/**
 * The browser sign-up form: its validation schema, the split of the full name
 * into first and last name, and the fields handed on to `signUp`.
 */
module Signup {
  import opened Js
  import SupabaseAuth

  /** The form's values (optional inputs as options). */
  datatype SignupForm = SignupForm(
    email: string,
    username: string,
    password: string,
    confirmPassword: string,
    fullName: string,
    company: Option<string>,
    jobTitle: Option<string>,
    privacyConsent: bool)

  /** A validation issue: the field it is reported on and its message. */
  datatype Issue = Issue(path: string, message: string)

  const InvalidEmail: Issue := Issue("email", "Please enter a valid email address")
  const UsernameTooShort: Issue := Issue("username", "Username must be at least 3 characters")
  const PasswordTooShort: Issue := Issue("password", "Password must be at least 8 characters")
  const ConfirmationTooShort: Issue := Issue("confirmPassword", "Password confirmation is required")
  const FullNameTooShort: Issue := Issue("fullName", "Full name is required")
  const ConsentMissing: Issue := Issue("privacyConsent", "You must accept the privacy policy to continue")
  const PasswordMismatch: Issue := Issue("confirmPassword", "Passwords don't match")

  /** One check: no issue when it passes, its issue when it fails. */
  function Check(passes: bool, issue: Issue): (issues: seq<Issue>)
    ensures issues == [] <==> passes
    ensures !passes ==> issue in issues
    ensures forall other :: other in issues ==> other == issue
  {
    if passes then [] else [issue]
  }

  /**
   * The schema's issues, in field order, followed by the password-match check.
   * Whether the email is well formed is a parameter (`emailWellFormed`).
   */
  function Validate(form: SignupForm, emailWellFormed: bool): (issues: seq<Issue>)
    ensures issues == [] <==>
              emailWellFormed && |form.username| >= 3 && |form.password| >= 8 && |form.confirmPassword| >= 8 &&
              |form.fullName| >= 2 && form.privacyConsent && form.password == form.confirmPassword
    ensures !emailWellFormed ==> InvalidEmail in issues
    ensures |form.username| < 3 ==> UsernameTooShort in issues
    ensures |form.password| < 8 ==> PasswordTooShort in issues
    ensures |form.confirmPassword| < 8 ==> ConfirmationTooShort in issues
    ensures |form.fullName| < 2 ==> FullNameTooShort in issues
    ensures !form.privacyConsent ==> ConsentMissing in issues
    ensures form.password != form.confirmPassword ==> PasswordMismatch in issues
  {
    Check(emailWellFormed, InvalidEmail) +
    Check(|form.username| >= 3, UsernameTooShort) +
    Check(|form.password| >= 8, PasswordTooShort) +
    Check(|form.confirmPassword| >= 8, ConfirmationTooShort) +
    Check(|form.fullName| >= 2, FullNameTooShort) +
    Check(form.privacyConsent, ConsentMissing) +
    Check(form.password == form.confirmPassword, PasswordMismatch)
  }

  /** An issue is reported only when its own rule fails: no issue stands in for another. */
  lemma ValidateReportsOnlyFailedRules(form: SignupForm, emailWellFormed: bool)
    ensures var issues := Validate(form, emailWellFormed);
            (InvalidEmail in issues ==> !emailWellFormed) &&
            (UsernameTooShort in issues ==> |form.username| < 3) &&
            (PasswordTooShort in issues ==> |form.password| < 8) &&
            (ConfirmationTooShort in issues ==> |form.confirmPassword| < 8) &&
            (FullNameTooShort in issues ==> |form.fullName| < 2) &&
            (ConsentMissing in issues ==> !form.privacyConsent) &&
            (PasswordMismatch in issues ==> form.password != form.confirmPassword)
  {
    var c1 := Check(emailWellFormed, InvalidEmail);
    var c2 := Check(|form.username| >= 3, UsernameTooShort);
    var c3 := Check(|form.password| >= 8, PasswordTooShort);
    var c4 := Check(|form.confirmPassword| >= 8, ConfirmationTooShort);
    var c5 := Check(|form.fullName| >= 2, FullNameTooShort);
    var c6 := Check(form.privacyConsent, ConsentMissing);
    var c7 := Check(form.password == form.confirmPassword, PasswordMismatch);
    var issues := Validate(form, emailWellFormed);
    assert issues == c1 + c2 + c3 + c4 + c5 + c6 + c7;
    IssuesAreDistinct();
    forall x | x in issues
      ensures (x == InvalidEmail && !emailWellFormed) || (x == UsernameTooShort && |form.username| < 3) ||
              (x == PasswordTooShort && |form.password| < 8) || (x == ConfirmationTooShort && |form.confirmPassword| < 8) ||
              (x == FullNameTooShort && |form.fullName| < 2) || (x == ConsentMissing && !form.privacyConsent) ||
              (x == PasswordMismatch && form.password != form.confirmPassword)
    {
      assert x in c1 || x in c2 || x in c3 || x in c4 || x in c5 || x in c6 || x in c7;
    }
  }

  /** The seven issues are pairwise different (by field, or by message on the confirmation field). */
  lemma IssuesAreDistinct()
    ensures InvalidEmail != UsernameTooShort && InvalidEmail != PasswordTooShort && InvalidEmail != ConfirmationTooShort
    ensures InvalidEmail != FullNameTooShort && InvalidEmail != ConsentMissing && InvalidEmail != PasswordMismatch
    ensures UsernameTooShort != PasswordTooShort && UsernameTooShort != ConfirmationTooShort
    ensures UsernameTooShort != FullNameTooShort && UsernameTooShort != ConsentMissing && UsernameTooShort != PasswordMismatch
    ensures PasswordTooShort != ConfirmationTooShort && PasswordTooShort != FullNameTooShort
    ensures PasswordTooShort != ConsentMissing && PasswordTooShort != PasswordMismatch
    ensures ConfirmationTooShort != FullNameTooShort && ConfirmationTooShort != ConsentMissing
    ensures ConfirmationTooShort != PasswordMismatch
    ensures FullNameTooShort != ConsentMissing && FullNameTooShort != PasswordMismatch
    ensures ConsentMissing != PasswordMismatch
  {
    assert InvalidEmail.path[0] == 'e' && UsernameTooShort.path[0] == 'u' && PasswordTooShort.path[0] == 'p';
    assert ConfirmationTooShort.path[0] == 'c' && FullNameTooShort.path[0] == 'f';
    assert ConsentMissing.path[0] == 'p' && ConsentMissing.path[1] == 'r' && PasswordTooShort.path[1] == 'a';
    assert PasswordMismatch.path[0] == 'c' && |ConfirmationTooShort.message| != |PasswordMismatch.message|;
  }

  /** `fullName.split(' ')[0] || fullName` */
  function FirstName(fullName: string): (first: string)
    ensures ' ' !in fullName ==> first == fullName
    ensures ' ' in fullName && IndexOf(fullName, ' ') > 0 ==> first == fullName[..IndexOf(fullName, ' ')]
    ensures ' ' in fullName && IndexOf(fullName, ' ') == 0 ==> first == fullName
  {
    SplitHead(fullName, ' ');
    var head := Split(fullName, ' ')[0];
    if head != "" then head else fullName
  }

  /** `fullName.split(' ').slice(1).join(' ') || ''`: everything after the first space. */
  function LastName(fullName: string): (last: string)
    ensures ' ' !in fullName ==> last == ""
    ensures ' ' in fullName ==> last == fullName[IndexOf(fullName, ' ') + 1..]
  {
    SplitHead(fullName, ' ');
    var rest := Split(fullName, ' ')[1..];
    if ' ' in fullName then
      JoinSplit(fullName[IndexOf(fullName, ' ') + 1..], ' ');
      Join(rest, ' ')
    else
      Join(rest, ' ')
  }

  /** A full name with a space, not starting with one, is first name, a space, and last name. */
  lemma {:induction false} NameSplitRoundTrip(fullName: string)
    requires ' ' in fullName && fullName[0] != ' '
    ensures FirstName(fullName) + " " + LastName(fullName) == fullName
  {
    var i := IndexOf(fullName, ' ');
    assert i > 0;
    assert fullName == fullName[..i] + [fullName[i]] + fullName[i + 1..];
  }

  /** What the form hands to `signUp`: email, password and the profile fields. */
  datatype SignUpArgs = SignUpArgs(email: string, password: string, data: SupabaseAuth.SignUpData)

  /** `onSubmit`: confirmPassword, privacyConsent and jobTitle are dropped and no phone is sent. */
  function SignUpArguments(form: SignupForm): (args: SignUpArgs)
    ensures args.email == form.email && args.password == form.password
    ensures args.data.username == form.username && args.data.company == form.company && args.data.phone.None?
    ensures args.data.firstName == FirstName(form.fullName) && args.data.lastName == LastName(form.fullName)
  {
    SignUpArgs(form.email, form.password,
               SupabaseAuth.SignUpData(form.username, FirstName(form.fullName), LastName(form.fullName), form.company, None))
  }

  /** Forms that differ only in the confirmation, the consent and the job title send the same sign-up. */
  lemma DroppedFieldsAreNotForwarded(form: SignupForm, confirmPassword: string, privacyConsent: bool, jobTitle: Option<string>)
    ensures SignUpArguments(form.(confirmPassword := confirmPassword, privacyConsent := privacyConsent, jobTitle := jobTitle)) ==
            SignUpArguments(form)
  {
  }
}
