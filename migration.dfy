/**
 * The one-off migration from the legacy database: users go through
 * `migrateUser`, contact submissions and newsletter subscriptions are inserted
 * directly, and each item ends as migrated, skipped or failed in the run's
 * counters; a summary line classifies the whole run.
 */
module Migration {
  import opened Js
  import opened Schema
  import AdminStore

  /** How one item ended. */
  datatype ItemOutcome = Migrated | Skipped | Failed

  /** `{ success, skipped, failed }` of one kind of item. */
  datatype Tally = Tally(success: nat, skipped: nat, failed: nat)

  const Zero: Tally := Tally(0, 0, 0)

  function Total(t: Tally): nat {
    t.success + t.skipped + t.failed
  }

  /** The increment of the one counter an outcome names. */
  function Bump(t: Tally, o: ItemOutcome): (t': Tally)
    ensures o == Migrated ==> t' == t.(success := t.success + 1)
    ensures o == Skipped ==> t' == t.(skipped := t.skipped + 1)
    ensures o == Failed ==> t' == t.(failed := t.failed + 1)
  {
    match o
    case Migrated => t.(success := t.success + 1)
    case Skipped => t.(skipped := t.skipped + 1)
    case Failed => t.(failed := t.failed + 1)
  }

  /** How many of the outcomes are `o`. */
  function Count(outcomes: seq<ItemOutcome>, o: ItemOutcome): nat
  {
    if outcomes == [] then 0 else (if outcomes[0] == o then 1 else 0) + Count(outcomes[1..], o)
  }

  /** The counters after a run of outcomes, starting from zero: each counts the items with its outcome. */
  function TallyOf(outcomes: seq<ItemOutcome>): Tally {
    Tally(Count(outcomes, Migrated), Count(outcomes, Skipped), Count(outcomes, Failed))
  }

  /** Each outcome counts once: the three counters add up to the number of items. */
  lemma {:induction false} TallyCountsEveryItem(outcomes: seq<ItemOutcome>)
    ensures Total(TallyOf(outcomes)) == |outcomes|
  {
    if outcomes != [] {
      TallyCountsEveryItem(outcomes[1..]);
    }
  }

  /** Counting one more outcome. */
  lemma {:induction false} CountAppend(outcomes: seq<ItemOutcome>, x: ItemOutcome, o: ItemOutcome)
    ensures Count(outcomes + [x], o) == Count(outcomes, o) + (if x == o then 1 else 0)
  {
    if outcomes == [] {
      assert outcomes + [x] == [x];
    } else {
      assert (outcomes + [x])[1..] == outcomes[1..] + [x];
      CountAppend(outcomes[1..], x, o);
    }
  }

  /** One more outcome bumps its own counter once: the loops' step. */
  lemma TallyOfAppend(outcomes: seq<ItemOutcome>, o: ItemOutcome)
    ensures TallyOf(outcomes + [o]) == Bump(TallyOf(outcomes), o)
  {
    CountAppend(outcomes, o, Migrated);
    CountAppend(outcomes, o, Skipped);
    CountAppend(outcomes, o, Failed);
  }

  /** Counting a run of outcomes from zero counts each of them once. */
  lemma CountedFromZero(outcomes: seq<ItemOutcome>)
    ensures Total(Plus(Zero, TallyOf(outcomes))) == |outcomes|
  {
    TallyCountsEveryItem(outcomes);
  }

  function Plus(a: Tally, b: Tally): Tally {
    Tally(a.success + b.success, a.skipped + b.skipped, a.failed + b.failed)
  }

  lemma PlusZero(t: Tally)
    ensures Plus(Zero, t) == t
  {
  }

  /** A user's migration: its error first, then whether it was skipped; a throw fails it. */
  datatype UserAttempt = UserReturned(result: AdminStore.MigrateOutcome) | UserThrew

  function ClassifyUser(a: UserAttempt): (o: ItemOutcome)
    ensures o == Failed <==> a.UserThrew? || a.result.error.Some?
    ensures o == Skipped <==> a.UserReturned? && a.result.error.None? && a.result.skipped
    ensures o == Migrated <==> a.UserReturned? && a.result.error.None? && !a.result.skipped
  {
    if a.UserThrew? then Failed
    else if a.result.error.Some? then Failed
    else if a.result.skipped then Skipped
    else Migrated
  }

  /** A direct insert of a contact or a newsletter row: its error, or a throw. */
  datatype InsertAttempt = InsertReturned(error: Option<DbError>) | InsertThrew

  /** A duplicate key counts as skipped; any other error and a throw as failed. */
  function ClassifyInsert(a: InsertAttempt): (o: ItemOutcome)
    ensures o == Skipped <==> a.InsertReturned? && a.error.Some? && a.error.value.code == UniqueViolation
    ensures o == Failed <==> a.InsertThrew? || (a.error.Some? && a.error.value.code != UniqueViolation)
    ensures o == Migrated <==> a.InsertReturned? && a.error.None?
  {
    if a.InsertThrew? then Failed
    else if a.error.Some? && a.error.value.code != UniqueViolation then Failed
    else if a.error.Some? && a.error.value.code == UniqueViolation then Skipped
    else Migrated
  }

  /** The final summary line. */
  datatype Summary = NoFailures | MostlySuccessful | SomeIssues

  function Summarize(users: Tally, contacts: Tally, newsletters: Tally): (s: Summary)
    ensures s == NoFailures <==> users.failed == 0 && contacts.failed == 0 && newsletters.failed == 0
    ensures s == MostlySuccessful <==>
              users.failed + contacts.failed + newsletters.failed > 0 &&
              users.success + contacts.success + newsletters.success > users.failed + contacts.failed + newsletters.failed
  {
    var totalSuccess := users.success + contacts.success + newsletters.success;
    var totalFailed := users.failed + contacts.failed + newsletters.failed;
    if totalFailed == 0 then NoFailures
    else if totalSuccess > totalFailed then MostlySuccessful
    else SomeIssues
  }

  /** Items that never failed leave the failed counter at zero. */
  lemma {:induction false} NoFailedItemCountsNoFailure(outcomes: seq<ItemOutcome>)
    requires Failed !in outcomes
    ensures TallyOf(outcomes).failed == 0
  {
    if outcomes != [] {
      assert outcomes[0] in outcomes;
      assert forall x :: x in outcomes[1..] ==> x in outcomes;
      NoFailedItemCountsNoFailure(outcomes[1..]);
    }
  }

  /** A run where every item ends migrated or skipped reports no failures. */
  lemma NoFailedItemsMeansNoFailures(users: seq<ItemOutcome>, contacts: seq<ItemOutcome>, newsletters: seq<ItemOutcome>)
    requires Failed !in users && Failed !in contacts && Failed !in newsletters
    ensures Summarize(TallyOf(users), TallyOf(contacts), TallyOf(newsletters)) == NoFailures
  {
    NoFailedItemCountsNoFailure(users);
    NoFailedItemCountsNoFailure(contacts);
    NoFailedItemCountsNoFailure(newsletters);
  }

  /** The migration runs only when the command line carries `--confirm`. */
  function RunsMigration(argv: seq<string>): (runs: bool)
    ensures runs <==> exists i :: 0 <= i < |argv| && argv[i] == "--confirm"
  {
    "--confirm" in argv
  }

  /** The outcome of each direct insert, in order. */
  function InsertOutcomes(attempts: seq<InsertAttempt>): (outcomes: seq<ItemOutcome>)
    ensures |outcomes| == |attempts|
    ensures forall i :: 0 <= i < |attempts| ==> outcomes[i] == ClassifyInsert(attempts[i])
    decreases |attempts|
  {
    if attempts == [] then []
    else InsertOutcomes(attempts[..|attempts| - 1]) + [ClassifyInsert(attempts[|attempts| - 1])]
  }

  /** The insert outcomes of one table, counted onto `start`. */
  method CountInserts(start: Tally, attempts: seq<InsertAttempt>) returns (t: Tally, outcomes: seq<ItemOutcome>)
    ensures outcomes == InsertOutcomes(attempts)
    ensures t == Plus(start, TallyOf(outcomes))
    ensures Total(t) == Total(start) + |attempts|
  {
    t := start;
    outcomes := [];
    for i := 0 to |attempts|
      invariant outcomes == InsertOutcomes(attempts[..i])
      invariant t == Plus(start, TallyOf(outcomes))
      invariant Total(t) == Total(start) + i
    {
      assert attempts[..i + 1][..i] == attempts[..i];
      var o := ClassifyInsert(attempts[i]);
      TallyOfAppend(outcomes, o);
      t := Bump(t, o);
      outcomes := outcomes + [o];
    }
    assert attempts[..|attempts|] == attempts;
  }

  /** The run's `stats`: one tally per kind of item. */
  datatype MigrationStats = MigrationStats(users: Tally, contacts: Tally, newsletters: Tally)

  /** What the backend answers for one legacy user: whether the lookup fails, and the insert's error. */
  datatype UserAnswers = UserAnswers(lookupFails: bool, insertError: Option<DbError>)

  /**
   * What `migrateUser` makes of one row against the table as it stands: an id
   * the lookup finds is skipped; an id already there whose lookup failed hits
   * the key on insert and fails, as does a failed insert; anything else is
   * migrated.
   */
  function UserOutcome(users: map<string, Profile>, row: AdminStore.LegacyUser, answers: UserAnswers): ItemOutcome
  {
    if row.id in users && !answers.lookupFails then Skipped
    else if row.id in users || answers.insertError.Some? then Failed
    else Migrated
  }

  /** The profiles table after a users loop, and the outcome of each row in order. */
  datatype UserRun = UserRun(users: map<string, Profile>, outcomes: seq<ItemOutcome>)

  /** The ids the rows carry. */
  function RowIds(rows: seq<AdminStore.LegacyUser>): set<string> {
    set j | 0 <= j < |rows| :: rows[j].id
  }

  /**
   * The users loop as a function of the table before it: each row meets the
   * table the rows before it left. No row is removed, every row that did not
   * fail has its id in the table afterwards, and no id arrives from elsewhere.
   */
  function MigratedUsers(users: map<string, Profile>, rows: seq<AdminStore.LegacyUser>,
                         answers: seq<UserAnswers>): (run: UserRun)
    requires |answers| == |rows|
    ensures |run.outcomes| == |rows|
    ensures users.Keys <= run.users.Keys
    ensures forall j :: 0 <= j < |rows| && run.outcomes[j] != Failed ==> rows[j].id in run.users
    decreases |rows|
  {
    if rows == [] then UserRun(users, [])
    else
      var n := |rows| - 1;
      var prev := MigratedUsers(users, rows[..n], answers[..n]);
      var o := UserOutcome(prev.users, rows[n], answers[n]);
      UserRun(if o == Migrated then prev.users[rows[n].id := AdminStore.MigratedProfile(rows[n])] else prev.users,
              prev.outcomes + [o])
  }

  /** The outcomes of a shorter run are the first outcomes of a longer one. */
  lemma {:induction false} MigratedUsersPrefix(users: map<string, Profile>, rows: seq<AdminStore.LegacyUser>,
                                               answers: seq<UserAnswers>, k: nat)
    requires |answers| == |rows| && k <= |rows|
    ensures MigratedUsers(users, rows, answers).outcomes[..k] ==
            MigratedUsers(users, rows[..k], answers[..k]).outcomes
    decreases |rows|
  {
    if k == |rows| {
      assert rows[..k] == rows && answers[..k] == answers;
    } else {
      var n := |rows| - 1;
      var prev := MigratedUsers(users, rows[..n], answers[..n]);
      var full := MigratedUsers(users, rows, answers);
      assert full.outcomes == prev.outcomes + [UserOutcome(prev.users, rows[n], answers[n])];
      assert full.outcomes[..k] == prev.outcomes[..k];
      MigratedUsersPrefix(users, rows[..n], answers[..n], k);
      assert rows[..n][..k] == rows[..k];
      assert answers[..n][..k] == answers[..k];
    }
  }

  /** No id arrives in the table except from the rows. */
  lemma {:induction false} MigratedUsersOnlyFromRows(users: map<string, Profile>, rows: seq<AdminStore.LegacyUser>,
                                                     answers: seq<UserAnswers>)
    requires |answers| == |rows|
    ensures MigratedUsers(users, rows, answers).users.Keys <= users.Keys + RowIds(rows)
    decreases |rows|
  {
    if rows != [] {
      var n := |rows| - 1;
      MigratedUsersOnlyFromRows(users, rows[..n], answers[..n]);
      assert RowIds(rows) == RowIds(rows[..n]) + {rows[n].id};
    }
  }

  /** Row `j` meets the table the first `j` rows left behind. */
  lemma MigratedUserAt(users: map<string, Profile>, rows: seq<AdminStore.LegacyUser>,
                       answers: seq<UserAnswers>, j: nat)
    requires |answers| == |rows| && j < |rows|
    ensures MigratedUsers(users, rows, answers).outcomes[j] ==
            UserOutcome(MigratedUsers(users, rows[..j], answers[..j]).users, rows[j], answers[j])
  {
    MigratedUsersPrefix(users, rows, answers, j + 1);
    assert rows[..j + 1][..j] == rows[..j] && answers[..j + 1][..j] == answers[..j];
    assert MigratedUsers(users, rows, answers).outcomes[j] ==
           MigratedUsers(users, rows, answers).outcomes[..j + 1][j];
  }

  /**
   * Rows with distinct ids none of which is stored yet are each migrated,
   * unless their own insert fails.
   */
  lemma FreshRowsMigrateUnlessInsertFails(users: map<string, Profile>, rows: seq<AdminStore.LegacyUser>,
                                          answers: seq<UserAnswers>)
    requires |answers| == |rows|
    requires forall j :: 0 <= j < |rows| ==> rows[j].id !in users
    requires forall j, k :: 0 <= j < k < |rows| ==> rows[j].id != rows[k].id
    ensures forall j :: 0 <= j < |rows| ==>
              MigratedUsers(users, rows, answers).outcomes[j] ==
              (if answers[j].insertError.Some? then Failed else Migrated)
  {
    forall j | 0 <= j < |rows|
      ensures MigratedUsers(users, rows, answers).outcomes[j] ==
              (if answers[j].insertError.Some? then Failed else Migrated)
    {
      MigratedUserAt(users, rows, answers, j);
      MigratedUsersOnlyFromRows(users, rows[..j], answers[..j]);
      assert rows[j].id !in RowIds(rows[..j]);
    }
  }

  /**
   * Running the users loop again over the same rows never migrates a row the
   * first run did not fail: it is skipped, or fails on the key when its lookup
   * fails. A repeated migration adds no duplicate.
   */
  lemma RerunSkipsMigratedUsers(users: map<string, Profile>, rows: seq<AdminStore.LegacyUser>,
                                firstAnswers: seq<UserAnswers>, secondAnswers: seq<UserAnswers>)
    requires |firstAnswers| == |rows| && |secondAnswers| == |rows|
    ensures var first := MigratedUsers(users, rows, firstAnswers);
            forall j :: 0 <= j < |rows| && first.outcomes[j] != Failed ==>
              MigratedUsers(first.users, rows, secondAnswers).outcomes[j] ==
              (if secondAnswers[j].lookupFails then Failed else Skipped)
  {
    var first := MigratedUsers(users, rows, firstAnswers);
    forall j | 0 <= j < |rows| && first.outcomes[j] != Failed
      ensures MigratedUsers(first.users, rows, secondAnswers).outcomes[j] ==
              (if secondAnswers[j].lookupFails then Failed else Skipped)
    {
      MigratedUserAt(first.users, rows, secondAnswers, j);
    }
  }

  /**
   * The users loop: every row goes through `migrateUser` and bumps the
   * counter its outcome names; the table and the outcomes are those of
   * `MigratedUsers`.
   */
  method MigrateUsers(store: AdminStore.Store, start: Tally, rows: seq<AdminStore.LegacyUser>,
                      answers: seq<UserAnswers>)
    returns (t: Tally, outcomes: seq<ItemOutcome>)
    requires store.Valid()
    requires |answers| == |rows|
    modifies store`users
    ensures store.Valid()
    ensures UserRun(store.users, outcomes) == MigratedUsers(old(store.users), rows, answers)
    ensures forall j :: 0 <= j < |outcomes| && outcomes[j] != Failed ==> rows[j].id in store.users
    ensures old(store.users).Keys <= store.users.Keys
    ensures t == Plus(start, TallyOf(outcomes))
    ensures Total(t) == Total(start) + |rows|
  {
    t := start;
    outcomes := [];
    for i := 0 to |rows|
      invariant store.Valid()
      invariant UserRun(store.users, outcomes) == MigratedUsers(old(store.users), rows[..i], answers[..i])
      invariant t == Plus(start, TallyOf(outcomes))
    {
      assert rows[..i + 1][..i] == rows[..i] && answers[..i + 1][..i] == answers[..i];
      var r := store.MigrateUser(rows[i], answers[i].lookupFails, answers[i].insertError);
      var o := ClassifyUser(UserReturned(r));
      TallyOfAppend(outcomes, o);
      t := Bump(t, o);
      outcomes := outcomes + [o];
    }
    assert rows[..|rows|] == rows && answers[..|rows|] == answers;
    TallyCountsEveryItem(outcomes);
  }

  /** The users loop over the rows that could be read; none when they could not. */
  method MigrateUserRows(store: AdminStore.Store, rows: Option<seq<AdminStore.LegacyUser>>,
                         answers: seq<UserAnswers>)
    returns (t: Tally)
    requires store.Valid()
    requires rows.Some? ==> |answers| == |rows.value|
    modifies store`users
    ensures rows.None? ==> t == Zero && store.users == old(store.users)
    ensures rows.Some? ==>
              var run := MigratedUsers(old(store.users), rows.value, answers);
              t == TallyOf(run.outcomes) && store.users == run.users
    ensures Total(t) == (if rows.Some? then |rows.value| else 0)
  {
    t := Zero;
    if rows.Some? {
      var outcomes;
      t, outcomes := MigrateUsers(store, Zero, rows.value, answers);
      CountedFromZero(outcomes);
    }
  }

  /** A direct-insert loop over the rows that could be read; none when they could not. */
  method InsertRows(attempts: Option<seq<InsertAttempt>>) returns (t: Tally)
    ensures attempts.None? ==> t == Zero
    ensures t == (if attempts.Some? then TallyOf(InsertOutcomes(attempts.value)) else Zero)
    ensures Total(t) == (if attempts.Some? then |attempts.value| else 0)
  {
    t := Zero;
    if attempts.Some? {
      var outcomes;
      t, outcomes := CountInserts(Zero, attempts.value);
      PlusZero(TallyOf(outcomes));
      TallyCountsEveryItem(outcomes);
    }
  }

  /**
   * `runMigration`: without a legacy database URL it returns with the counters
   * at zero and the store untouched; otherwise the three loops run and the
   * summary is drawn from the counters.
   */
  method RunMigration(databaseUrl: Option<string>, store: AdminStore.Store,
                      userRows: Option<seq<AdminStore.LegacyUser>>, userAnswers: seq<UserAnswers>,
                      contactAttempts: Option<seq<InsertAttempt>>, newsletterAttempts: Option<seq<InsertAttempt>>)
    returns (stats: MigrationStats, summary: Option<Summary>)
    requires store.Valid()
    requires userRows.Some? ==> |userAnswers| == |userRows.value|
    modifies store`users
    ensures !Truthy(databaseUrl) ==>
              summary.None? && stats == MigrationStats(Zero, Zero, Zero) && store.users == old(store.users)
    ensures Truthy(databaseUrl) ==> summary == Some(Summarize(stats.users, stats.contacts, stats.newsletters))
    ensures Truthy(databaseUrl) && userRows.None? ==> stats.users == Zero && store.users == old(store.users)
    ensures Truthy(databaseUrl) && userRows.Some? ==>
              var run := MigratedUsers(old(store.users), userRows.value, userAnswers);
              stats.users == TallyOf(run.outcomes) && store.users == run.users
    ensures Truthy(databaseUrl) ==>
              stats.contacts == (if contactAttempts.Some? then TallyOf(InsertOutcomes(contactAttempts.value)) else Zero)
    ensures Truthy(databaseUrl) ==>
              stats.newsletters == (if newsletterAttempts.Some? then TallyOf(InsertOutcomes(newsletterAttempts.value)) else Zero)
    ensures Truthy(databaseUrl) ==> Total(stats.users) == (if userRows.Some? then |userRows.value| else 0)
    ensures Truthy(databaseUrl) ==> Total(stats.contacts) == (if contactAttempts.Some? then |contactAttempts.value| else 0)
    ensures Truthy(databaseUrl) ==>
              Total(stats.newsletters) == (if newsletterAttempts.Some? then |newsletterAttempts.value| else 0)
  {
    if !Truthy(databaseUrl) {
      return MigrationStats(Zero, Zero, Zero), None;
    }
    var users := MigrateUserRows(store, userRows, userAnswers);
    var contacts := InsertRows(contactAttempts);
    var newsletters := InsertRows(newsletterAttempts);
    stats := MigrationStats(users, contacts, newsletters);
    summary := Some(Summarize(stats.users, stats.contacts, stats.newsletters));
  }
}
