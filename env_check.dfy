/**
 * The environment check script: a table of variables, each required or
 * optional and shown truncated, raw or as its length only; a pass over the
 * table that reports each variable and collects the required ones that are not
 * set. Console output becomes a report line per variable.
 */
module EnvCheck {
  import opened Js
  import opened Env
  import MasterAdminInit

  /** How a set variable's value is shown. */
  datatype Masking =
    | Truncated(width: nat)   // the first `width` characters, then "..."
    | Raw                     // the value itself
    | LengthOnly              // "[HIDDEN - Length: n]"

  /** A row of the table (the description is display text and is left out). */
  datatype EnvSpec = EnvSpec(variable: string, required: bool, masking: Masking)

  const DatabaseUrlVar: string := "DATABASE_URL"
  const AnonKeyVar: string := "SUPABASE_ANON_KEY"

  const EnvChecks: seq<EnvSpec> := [
    EnvSpec(MasterAdminInit.SupabaseUrlVar, true, Truncated(30)),
    EnvSpec(AnonKeyVar, true, Truncated(20)),
    EnvSpec(MasterAdminInit.ServiceRoleKeyVar, true, Truncated(20)),
    EnvSpec(MasterAdminInit.MasterAdminEmailVar, true, Raw),
    EnvSpec(MasterAdminInit.MasterAdminPasswordVar, true, LengthOnly),
    EnvSpec(DatabaseUrlVar, false, Truncated(30))
  ]

  /** The `value` field of a row: undefined unless set, except the raw one, which is whatever is defined. */
  function DisplayValue(spec: EnvSpec, env: Environment): (value: Option<string>)
    ensures Present(env, spec.variable) ==> Truthy(value)
    ensures !Present(env, spec.variable) ==> !Truthy(value)
    ensures spec.masking.Truncated? && Present(env, spec.variable) ==>
              |value.value| == (if |env[spec.variable]| <= spec.masking.width then |env[spec.variable]|
                                else spec.masking.width) + 3 &&
              value.value[|value.value| - 3..] == "..." &&
              StartsWith(env[spec.variable], value.value[..|value.value| - 3])
    ensures spec.masking.Raw? && Present(env, spec.variable) ==> value.value == env[spec.variable]
    ensures spec.masking.LengthOnly? && Present(env, spec.variable) ==> value.value == HiddenLength(|env[spec.variable]|)
  {
    var name := spec.variable;
    match spec.masking
    case Truncated(width) =>
      if Present(env, name) then Some(Take(env[name], width) + "...") else None
    case Raw =>
      if name in env then Some(env[name]) else None
    case LengthOnly =>
      if Present(env, name) then Some(HiddenLength(|env[name]|)) else None
  }

  /** `'[HIDDEN - Length: ' + length + ']'` */
  function HiddenLength(length: nat): (text: string)
    ensures text != ""
  {
    "[HIDDEN - Length: " + NatToString(length) + "]"
  }

  /** Values of different lengths are shown differently; the text itself is never shown. */
  lemma HiddenLengthShowsOnlyLength(password: string, other: string)
    ensures HiddenLength(|password|) == HiddenLength(|other|) <==> |password| == |other|
  {
    var a, b := NatToString(|password|), NatToString(|other|);
    var ha, hb := HiddenLength(|password|), HiddenLength(|other|);
    assert ha[18..|ha| - 1] == a;
    assert hb[18..|hb| - 1] == b;
    if |password| != |other| {
      NatToStringInjective(|password|, |other|);
    }
  }

  /**
   * The password row reports two set passwords alike exactly when they have
   * the same length: nothing of the password but its length is shown.
   */
  lemma PasswordReportShowsOnlyLength(env: Environment, other: Environment)
    requires Present(env, MasterAdminInit.MasterAdminPasswordVar) && Present(other, MasterAdminInit.MasterAdminPasswordVar)
    ensures Report(EnvChecks[4], env) == Report(EnvChecks[4], other) <==>
            |env[MasterAdminInit.MasterAdminPasswordVar]| == |other[MasterAdminInit.MasterAdminPasswordVar]|
  {
    HiddenLengthShowsOnlyLength(env[MasterAdminInit.MasterAdminPasswordVar], other[MasterAdminInit.MasterAdminPasswordVar]);
  }

  /** What the script reports for one variable. */
  datatype Line =
    | ShowsValue(value: string)
    | MissingRequired
    | NotSetOptional
    | Silent       // set but with a falsy value: nothing beyond the header

  /** The `if / else if` chain for one row. */
  function Report(spec: EnvSpec, env: Environment): (line: Line)
    ensures line.ShowsValue? <==> Present(env, spec.variable)
    ensures line == MissingRequired <==> !Present(env, spec.variable) && spec.required
    ensures line == NotSetOptional <==> !Present(env, spec.variable) && !spec.required
    ensures line.ShowsValue? ==> Some(line.value) == DisplayValue(spec, env)
    ensures !line.Silent?
  {
    var present := Present(env, spec.variable);
    var value := DisplayValue(spec, env);
    if present && Truthy(value) then ShowsValue(value.value)
    else if !present && spec.required then MissingRequired
    else if !present then NotSetOptional
    else Silent
  }

  /** The required variables of a table, in table order. */
  function RequiredVariables(specs: seq<EnvSpec>): (names: seq<string>)
    ensures forall n :: n in names ==> exists i :: 0 <= i < |specs| && specs[i].required && specs[i].variable == n
    ensures |names| <= |specs|
  {
    if specs == [] then []
    else
      var init, last := specs[..|specs| - 1], specs[|specs| - 1];
      RequiredVariables(init) + (if last.required then [last.variable] else [])
  }

  /** Every required row's variable is among the required variables. */
  lemma {:induction false} RequiredRowsAreListed(specs: seq<EnvSpec>)
    ensures forall i :: 0 <= i < |specs| && specs[i].required ==> specs[i].variable in RequiredVariables(specs)
  {
    if specs != [] {
      var init := specs[..|specs| - 1];
      RequiredRowsAreListed(init);
      assert forall i :: 0 <= i < |init| ==> init[i] == specs[i];
    }
  }

  /** The required variables of two tables one after the other: the first table's come first. */
  lemma {:induction false} RequiredVariablesAppend(a: seq<EnvSpec>, b: seq<EnvSpec>)
    ensures RequiredVariables(a + b) == RequiredVariables(a) + RequiredVariables(b)
    decreases |b|
  {
    if b == [] {
      assert a + b == a;
    } else {
      var init, last := b[..|b| - 1], b[|b| - 1];
      assert (a + b)[..|a + b| - 1] == a + init;
      RequiredVariablesAppend(a, init);
    }
  }

  /** The required variables that are not set, in table order: the final `criticalMissing`. */
  function CriticalMissing(specs: seq<EnvSpec>, env: Environment): (missing: seq<string>)
  {
    if specs == [] then []
    else
      var init, last := specs[..|specs| - 1], specs[|specs| - 1];
      CriticalMissing(init, env) + (if Report(last, env) == MissingRequired then [last.variable] else [])
  }

  /** The critical list is the missing names among the required ones. */
  lemma {:induction false} CriticalMissingIsMissingRequired(specs: seq<EnvSpec>, env: Environment)
    ensures CriticalMissing(specs, env) == MissingNames(RequiredVariables(specs), env)
  {
    if specs != [] {
      var init, last := specs[..|specs| - 1], specs[|specs| - 1];
      CriticalMissingIsMissingRequired(init, env);
      var names := RequiredVariables(specs);
      if last.required {
        assert names == RequiredVariables(init) + [last.variable];
        assert names[..|names| - 1] == RequiredVariables(init);
        assert names[|names| - 1] == last.variable;
      } else {
        assert names == RequiredVariables(init);
      }
    }
  }

  /** The critical list holds only unset variables of required rows, and every one of them. */
  lemma CriticalMissingIsUnsetRequired(specs: seq<EnvSpec>, env: Environment)
    ensures forall n :: n in CriticalMissing(specs, env) ==>
              (!Present(env, n) && exists i :: 0 <= i < |specs| && specs[i].required && specs[i].variable == n)
    ensures forall i :: 0 <= i < |specs| && specs[i].required && !Present(env, specs[i].variable) ==>
              specs[i].variable in CriticalMissing(specs, env)
  {
    CriticalMissingIsMissingRequired(specs, env);
    RequiredRowsAreListed(specs);
  }

  /** The critical list of a longer table extends that of its prefix. */
  lemma CriticalMissingSnoc(specs: seq<EnvSpec>, i: nat, env: Environment)
    requires i < |specs|
    ensures CriticalMissing(specs[..i + 1], env) ==
            CriticalMissing(specs[..i], env) + (if Report(specs[i], env) == MissingRequired then [specs[i].variable] else [])
  {
    assert specs[..i + 1][..i] == specs[..i];
  }

  /**
   * `checkEnvironmentVariables`: one report line per row and, for each
   * required row that is not set, the flag cleared and the name collected.
   */
  method CheckEnvironmentVariables(specs: seq<EnvSpec>, env: Environment)
    returns (lines: seq<Line>, allRequiredPresent: bool, criticalMissing: seq<string>)
    ensures |lines| == |specs|
    ensures forall i :: 0 <= i < |specs| ==> lines[i] == Report(specs[i], env)
    ensures criticalMissing == CriticalMissing(specs, env)
    ensures allRequiredPresent <==> criticalMissing == []
  {
    lines := [];
    allRequiredPresent := true;
    criticalMissing := [];
    for i := 0 to |specs|
      invariant |lines| == i
      invariant forall j :: 0 <= j < i ==> lines[j] == Report(specs[j], env)
      invariant criticalMissing == CriticalMissing(specs[..i], env)
      invariant allRequiredPresent <==> criticalMissing == []
    {
      var line := Report(specs[i], env);
      lines := lines + [line];
      CriticalMissingSnoc(specs, i, env);
      var missingHere := line == MissingRequired;
      allRequiredPresent := allRequiredPresent && !missingHere;
      criticalMissing := criticalMissing + (if missingHere then [specs[i].variable] else []);
    }
    assert specs[..|specs|] == specs;
  }

  /** The required variables of a longer table extend those of its prefix. */
  lemma RequiredVariablesSnoc(specs: seq<EnvSpec>, i: nat)
    requires i < |specs|
    ensures RequiredVariables(specs[..i + 1]) ==
            RequiredVariables(specs[..i]) + (if specs[i].required then [specs[i].variable] else [])
  {
    assert specs[..i + 1][..i] == specs[..i];
  }

  /** The script's table requires exactly the five variables before DATABASE_URL. */
  lemma RequiredVariablesOfTheTable()
    ensures RequiredVariables(EnvChecks) ==
            [MasterAdminInit.SupabaseUrlVar, AnonKeyVar, MasterAdminInit.ServiceRoleKeyVar,
             MasterAdminInit.MasterAdminEmailVar, MasterAdminInit.MasterAdminPasswordVar]
  {
    assert EnvChecks[..0] == [];
    RequiredVariablesSnoc(EnvChecks, 0);
    assert RequiredVariables(EnvChecks[..1]) == [MasterAdminInit.SupabaseUrlVar];
    RequiredVariablesSnoc(EnvChecks, 1);
    RequiredVariablesSnoc(EnvChecks, 2);
    RequiredVariablesSnoc(EnvChecks, 3);
    assert RequiredVariables(EnvChecks[..4]) ==
           [MasterAdminInit.SupabaseUrlVar, AnonKeyVar, MasterAdminInit.ServiceRoleKeyVar,
            MasterAdminInit.MasterAdminEmailVar];
    RequiredVariablesSnoc(EnvChecks, 4);
    RequiredVariablesSnoc(EnvChecks, 5);
    assert EnvChecks[..6] == EnvChecks;
  }

  /**
   * The table's critical list is the unset required names in table order;
   * DATABASE_URL is never critical; and a clean check means the master-admin
   * script finds its own four variables set.
   */
  lemma TableCriticalMissing(env: Environment)
    ensures CriticalMissing(EnvChecks, env) ==
            MissingNames([MasterAdminInit.SupabaseUrlVar, AnonKeyVar, MasterAdminInit.ServiceRoleKeyVar,
                          MasterAdminInit.MasterAdminEmailVar, MasterAdminInit.MasterAdminPasswordVar], env)
    ensures DatabaseUrlVar !in CriticalMissing(EnvChecks, env)
    ensures CriticalMissing(EnvChecks, env) == [] ==> MasterAdminInit.EnvComplete(env)
  {
    RequiredVariablesOfTheTable();
    CriticalMissingIsMissingRequired(EnvChecks, env);
    var required := RequiredVariables(EnvChecks);
    NothingMissingMeansAllPresent(required, env);
    NothingMissingMeansAllPresent(MasterAdminInit.RequiredEnvVars, env);
    if CriticalMissing(EnvChecks, env) == [] {
      forall i | 0 <= i < |MasterAdminInit.RequiredEnvVars|
        ensures Present(env, MasterAdminInit.RequiredEnvVars[i])
      {
        assert MasterAdminInit.RequiredEnvVars[i] in required;
      }
    }
  }
}
