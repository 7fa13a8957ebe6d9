/** What holds in every reachable state of the ledger, under any interleaving. */
module LedgerTheorems {
  import opened Prelude
  import opened UsageWindows
  import opened TokenTable
  import opened TokenLedger
  import opened LedgerInvariants

  lemma ReachableInv(quotas: Quotas, s: State)
    requires Reachable(quotas, s)
    ensures Inv(s)
  {
    var actions :| s == Run(quotas, INITIAL, actions);
    InitialInv();
    RunKeepsInv(quotas, INITIAL, actions);
  }

  // The books

  lemma SharesAreNonNegative(t: Table, m: Tally)
    requires WellShapedTable(t)
    ensures Total(m, t) >= 0
  {
    forall k | k in t ensures Share(m, k, t[k]) >= 0 {
      assert WellShaped(k, t[k]);
    }
    TotalIsNonNegative(m, t);
  }

  lemma {:induction false} UsageIsNonNegative(log: seq<Usage>, user: string, windows: set<string>, limited: set<bool>)
    ensures UsageIn(log, user, windows, limited) >= 0
    decreases |log|
  {
    if log != [] {
      UsageIsNonNegative(log[..|log| - 1], user, windows, limited);
    }
  }

  /** In every reachable state a counter row adds up: the effective count is consumed plus
      reserved, reserved is the sum of the budgets still outstanding in that window, consumed is
      the sum of the charges of completed reservations plus the recorded usage. None is negative,
      so reading a count back fails exactly when it does not fit a `u64`. */
  lemma BooksAlwaysBalance(quotas: Quotas, s: State, user: string, window: string)
    requires Reachable(quotas, s) && IsUsageWindow(window)
    ensures
      var row := RowOf(s.table, Key(user, window));
      var tokens, reserved, consumed := row.tokens.GetOr(0), row.reserved.GetOr(0), row.consumed.GetOr(0);
      && tokens == consumed + reserved
      && reserved == Total(Outstanding(user, {window}), s.table)
      && consumed == Total(Charges(user, {window}), s.table) + AllUsage(s.usage, user, {window})
      && tokens >= 0 && reserved >= 0 && consumed >= 0
      && (ParseU64(NumberText(tokens)) == if tokens <= U64_MAX then Some(tokens) else None)
  {
    ReachableInv(quotas, s);
    assert Balanced(s.table, s.usage, user, window);
    SharesAreNonNegative(s.table, Outstanding(user, {window}));
    SharesAreNonNegative(s.table, Charges(user, {window}));
    UsageIsNonNegative(s.usage, user, {window}, {true, false});
    CountReadsBack(RowOf(s.table, Key(user, window)).tokens.GetOr(0));
  }

  // Weeks and days

  datatype Counter = Tokens | ReservedTokens | ConsumedTokens

  function Count(t: Table, user: string, window: string, c: Counter): int {
    var row := RowOf(t, Key(user, window));
    match c
    case Tokens => row.tokens.GetOr(0)
    case ReservedTokens => row.reserved.GetOr(0)
    case ConsumedTokens => row.consumed.GetOr(0)
  }

  /** The first day of a Monday-aligned week; week 0 starts before the epoch. */
  function FirstDay(week: nat): int {
    7 * week - 3
  }

  /** The sum of a counter over `n` consecutive daily rows. */
  function DaySum(t: Table, user: string, c: Counter, first: int, n: nat): int {
    if n == 0 then 0
    else
      var day := first + n - 1;
      DaySum(t, user, c, first, n - 1) + (if day < 0 then 0 else Count(t, user, DayKey(day), c))
  }

  function DayWindows(first: int, n: nat): set<string> {
    if n == 0 then {}
    else
      var day := first + n - 1;
      DayWindows(first, n - 1) + (if day < 0 then {} else {DayKey(day)})
  }

  lemma {:induction false} DayInWindows(first: int, n: nat, day: nat)
    ensures DayKey(day) in DayWindows(first, n) <==> first <= day < first + n
  {
    if n > 0 {
      DayInWindows(first, n - 1, day);
      var last := first + n - 1;
      if last >= 0 && DayKey(last) == DayKey(day) {
        DayKeysAreDistinct(last, day);
      }
    }
  }

  lemma {:induction false} WeekNotInWindows(first: int, n: nat, week: nat)
    ensures WeekKey(week) !in DayWindows(first, n)
  {
    if n > 0 {
      WeekNotInWindows(first, n - 1, week);
      var day := first + n - 1;
      if day >= 0 {
        assert DayKey(day)[0] == 'd' && WeekKey(week)[0] == 'w';
      }
    }
  }

  lemma InstantInDay(now: u64, first: int, n: nat)
    ensures (DailyWindow(now) in DayWindows(first, n) || WeeklyWindow(now) in DayWindows(first, n)) <==>
            first <= DayOf(now) < first + n
  {
    DayInWindows(first, n, DayOf(now));
    WeekNotInWindows(first, n, WeekOf(now));
  }

  /** An instant falls on a day of the week exactly when it falls in the week. */
  lemma InstantInWeek(now: u64, week: nat)
    ensures (DailyWindow(now) == WeekKey(week) || WeeklyWindow(now) == WeekKey(week)) <==>
            FirstDay(week) <= DayOf(now) < FirstDay(week) + 7
  {
    DaysNestInWeeks(now);
    WeekOfDay(DayOf(now), week);
    assert DailyWindow(now)[0] == 'd' && WeekKey(week)[0] == 'w';
    hide DayOf, WeekOf, WeekKey;
    if WeeklyWindow(now) == WeekKey(week) {
      WeekKeysAreDistinct(WeekOf(now), week);
    }
  }

  lemma WeekOfDay(day: nat, week: nat)
    ensures (day + 3) / 7 == week <==> FirstDay(week) <= day < FirstDay(week) + 7
  {
  }

  lemma InstantOfRow(row: Item) returns (now: u64)
    requires IsReservationRow(row)
    ensures row.daily == Some(DailyWindow(now)) && row.weekly == Some(WeeklyWindow(now))
  {
    now :| row.daily.value == DailyWindow(now) && row.weekly.value == WeeklyWindow(now);
  }

  lemma AddADay(t: Table, m: Tally, first: int, n: nat)
    requires WellShapedTable(t) && m.windows == DayWindows(first, n) && first + n >= 0
    ensures Total(m.(windows := DayWindows(first, n + 1)), t) ==
            Total(m, t) + Total(m.(windows := {DayKey(first + n)}), t)
  {
    var one, sum := m.(windows := {DayKey(first + n)}), m.(windows := DayWindows(first, n + 1));
    forall k | k in t ensures Share(m, k, t[k]) + Share(one, k, t[k]) == Share(sum, k, t[k]) {
      if t[k].daily.Some? {
        assert WellShaped(k, t[k]);
        var now := InstantOfRow(t[k]);
        InstantInDay(now, first, n);
        InstantInDay(now, first, n + 1);
        InstantInDay(now, first + n, 1);
        assert DayWindows(first + n, 1) == {DayKey(first + n)};
      }
    }
    TotalsAdd(m, one, sum, t);
  }

  lemma {:induction false} UsageAddADay(log: seq<Usage>, user: string, first: int, n: nat)
    requires first + n >= 0
    ensures AllUsage(log, user, DayWindows(first, n + 1)) ==
            AllUsage(log, user, DayWindows(first, n)) + AllUsage(log, user, {DayKey(first + n)})
    decreases |log|
  {
    if log != [] {
      UsageAddADay(log[..|log| - 1], user, first, n);
      var now := log[|log| - 1].occurredAt;
      InstantInDay(now, first, n);
      InstantInDay(now, first, n + 1);
      InstantInDay(now, first + n, 1);
      assert DayWindows(first + n, 1) == {DayKey(first + n)};
    }
  }

  lemma {:induction false} DaysAddUp(s: State, user: string, first: int, n: nat)
    requires WellShapedTable(s.table) && BooksBalance(s.table, s.usage)
    ensures DaySum(s.table, user, ReservedTokens, first, n) == Total(Outstanding(user, DayWindows(first, n)), s.table)
    ensures DaySum(s.table, user, ConsumedTokens, first, n) ==
            Total(Charges(user, DayWindows(first, n)), s.table) + AllUsage(s.usage, user, DayWindows(first, n))
    ensures DaySum(s.table, user, Tokens, first, n) ==
            DaySum(s.table, user, ReservedTokens, first, n) + DaySum(s.table, user, ConsumedTokens, first, n)
  {
    if n == 0 {
      NothingInNoWindows(s.table, user);
      UsageInNoWindows(s.usage, user);
    } else {
      DaysAddUp(s, user, first, n - 1);
      var day := first + n - 1;
      if day >= 0 {
        assert IsUsageWindow(DayKey(day)) && Balanced(s.table, s.usage, user, DayKey(day));
        AddADay(s.table, Outstanding(user, DayWindows(first, n - 1)), first, n - 1);
        AddADay(s.table, Charges(user, DayWindows(first, n - 1)), first, n - 1);
        UsageAddADay(s.usage, user, first, n - 1);
      } else {
        assert DayWindows(first, n) == DayWindows(first, n - 1);
      }
    }
  }

  lemma NothingInNoWindows(t: Table, user: string)
    ensures Total(Outstanding(user, {}), t) == 0 && Total(Charges(user, {}), t) == 0
  {
    NoShares(t, Outstanding(user, {}));
    NoShares(t, Charges(user, {}));
  }

  lemma {:induction false} NoShares(t: Table, m: Tally)
    requires m.windows == {}
    ensures Total(m, t) == 0
    decreases |t|
  {
    if t != map[] {
      var k :| k in t;
      TotalWithout(m, t, k);
      NoShares(t - {k}, m);
    }
  }

  lemma {:induction false} UsageInNoWindows(log: seq<Usage>, user: string)
    ensures AllUsage(log, user, {}) == 0
    decreases |log|
  {
    if log != [] {
      UsageInNoWindows(log[..|log| - 1], user);
    }
  }

  lemma WeekIsItsDays(t: Table, m: Tally, week: nat)
    requires WellShapedTable(t) && m.windows == {WeekKey(week)}
    ensures Total(m, t) == Total(m.(windows := DayWindows(FirstDay(week), 7)), t)
  {
    var days := m.(windows := DayWindows(FirstDay(week), 7));
    forall k | k in t ensures Share(m, k, t[k]) == Share(days, k, t[k]) {
      if t[k].daily.Some? {
        assert WellShaped(k, t[k]);
        var now := InstantOfRow(t[k]);
        InstantInWeek(now, week);
        InstantInDay(now, FirstDay(week), 7);
      }
    }
    TotalsAgree(m, days, t);
  }

  lemma {:induction false} UsageWeekIsItsDays(log: seq<Usage>, user: string, week: nat)
    ensures AllUsage(log, user, {WeekKey(week)}) == AllUsage(log, user, DayWindows(FirstDay(week), 7))
    decreases |log|
  {
    if log != [] {
      UsageWeekIsItsDays(log[..|log| - 1], user, week);
      var now := log[|log| - 1].occurredAt;
      InstantInWeek(now, week);
      InstantInDay(now, FirstDay(week), 7);
    }
  }

  /** In every reachable state the weekly row's three counters are the sums of the same counters
      over the daily rows of that week's days. */
  lemma WeeklyRowIsSumOfDays(quotas: Quotas, s: State, user: string, week: nat, c: Counter)
    requires Reachable(quotas, s)
    ensures Count(s.table, user, WeekKey(week), c) == DaySum(s.table, user, c, FirstDay(week), 7)
  {
    ReachableInv(quotas, s);
    DaysAddUp(s, user, FirstDay(week), 7);
    assert Balanced(s.table, s.usage, user, WeekKey(week));
    WeekIsItsDays(s.table, Outstanding(user, {WeekKey(week)}), week);
    WeekIsItsDays(s.table, Charges(user, {WeekKey(week)}), week);
    UsageWeekIsItsDays(s.usage, user, week);
  }

  // Exactly once

  lemma ReserveTouches(s: State, quota: Quota, user: string, now: u64, budget: u64, id: string, outcome: Outcome)
    returns (k: Key)
    requires LedgerSound(s.table, s.usage, s.held, s.issued) && budget > 0
    ensures
      var t' := TableAfter(s.table, ReserveTx(user, quota, now, budget, id), outcome);
      OnlyTouches(s.table, t', k) && KeepsOutcome(s.table, t', k)
  {
    k := Key(user, ReservationWindow(id));
    if Commits(s.table, ReserveTx(user, quota, now, budget, id), outcome) {
      ReserveBooks(s.table, s.usage, quota, user, now, budget, id);
    }
  }

  lemma RecordTouches(s: State, quota: Quota, user: string, now: u64, tokens: u64, outcome: Outcome) returns (k: Key)
    requires LedgerSound(s.table, s.usage, s.held, s.issued)
    ensures
      var t' := TableAfter(s.table, UsageWrites(user, quota, now, tokens), outcome);
      OnlyTouches(s.table, t', k) && KeepsOutcome(s.table, t', k)
  {
    k := Key(user, DailyWindow(now));
    KeyFamiliesAreDisjoint(now, now, "", "");
    assert k in s.table ==> WellShaped(k, s.table[k]);
    if Commits(s.table, UsageWrites(user, quota, now, tokens), outcome) {
      RecordBooks(s.table, s.usage, user, quota, now, tokens, false);
    }
  }

  lemma JobTouches(s: State, job: Job, outcome: Outcome) returns (k: Key)
    requires LedgerSound(s.table, s.usage, s.held, s.issued) && JobLinked(s.table, job)
    ensures
      var t' := TableAfter(s.table, JobTx(job), outcome);
      OnlyTouches(s.table, t', k) && KeepsOutcome(s.table, t', k)
  {
    k := JobKey(job);
    if Commits(s.table, JobTx(job), outcome) {
      if job.ReservationJob? {
        ReconcileBooks(s.table, s.usage, job);
      } else {
        UsageBooks(s.table, s.usage, job);
      }
    }
  }

  lemma TaskJobIsLinked(s: State, task: nat)
    requires Inv(s) && task in s.tasks
    ensures JobLinked(s.table, s.tasks[task].job)
  {
    assert Known(s.issued, s.tasks[task].job);
    assert JobLinked(s.table, s.issued[JobKey(s.tasks[task].job)]);
  }

  /** Apart from counters a step writes one row, and never undoes an outcome. */
  lemma StepTouches(quotas: Quotas, s: State, a: Action) returns (k: Key)
    requires Inv(s)
    ensures OnlyTouches(s.table, Next(quotas, s, a).table, k) && KeepsOutcome(s.table, Next(quotas, s, a).table, k)
  {
    hide LedgerSound, OnlyTouches, KeepsOutcome, TasksSound, MessagesSound, AcknowledgedSurvive, TableAfter, Commits;
    hide ReplyTo;
    hide ReserveTx, UsageWrites, JobTx, PhaseAfter, Logged, SettlementKey, JobFor, IsVacuous, Refused;
    var t' := Next(quotas, s, a).table;
    k := Key("", "");
    UnchangedTouches(s.table, k);
    match a
    case Reserve(user, now, budget, id, _, outcome) =>
      if t' != s.table {
        k := ReserveTouches(s, quotas(user), user, now, budget, id, outcome);
      }
    case Record(user, now, tokens, enforced, outcome) =>
      if t' != s.table {
        k := RecordTouches(s, EnforcedQuota(quotas(user), enforced), user, now, tokens, outcome);
      }
    case Submit(task, outcome) =>
      if t' != s.table {
        TaskJobIsLinked(s, task);
        k := JobTouches(s, s.tasks[task].job, outcome);
      }
    case _ =>
  }

  lemma UnchangedTouches(t: Table, k: Key)
    ensures OnlyTouches(t, t, k) && KeepsOutcome(t, t, k)
  {
  }

  /** No step rewrites a completed row or removes a reservation or marker row. */
  lemma OutcomesAreFinal(quotas: Quotas, s: State, a: Action, key: Key)
    requires Inv(s) && (IsReservationWindow(key.sort) || IsMarkerWindow(key.sort)) && key in s.table
    ensures key in Next(quotas, s, a).table
    ensures s.table[key].status == Some(Completed) ==> Next(quotas, s, a).table[key] == s.table[key]
  {
    hide Inv, Next;
    var k := StepTouches(quotas, s, a);
    if k != key {
      RowsUntouched(s.table, Next(quotas, s, a).table, k, key.user, key.sort);
    }
  }

  lemma {:induction false} OutcomesStayFinal(quotas: Quotas, s: State, actions: seq<Action>, key: Key)
    requires Inv(s) && (IsReservationWindow(key.sort) || IsMarkerWindow(key.sort)) && key in s.table
    ensures key in Run(quotas, s, actions).table
    ensures s.table[key].status == Some(Completed) ==> Run(quotas, s, actions).table[key] == s.table[key]
    decreases |actions|
  {
    if actions != [] {
      var n := |actions| - 1;
      OutcomesStayFinal(quotas, s, actions[..n], key);
      RunKeepsInv(quotas, s, actions[..n]);
      OutcomesAreFinal(quotas, Run(quotas, s, actions[..n]), actions[n], key);
    }
  }

  lemma CompletedKeyFamily(t: Table, key: Key)
    requires WellShapedTable(t) && RowOf(t, key).status == Some(Completed)
    ensures key in t && IsReservationWindow(key.sort)
  {
    assert WellShaped(key, t[key]);
  }

  /** The action completes the reservation at `key`: this is when it is charged. */
  predicate Completes(quotas: Quotas, s: State, a: Action, key: Key) {
    RowOf(s.table, key).status != Some(Completed) && RowOf(Next(quotas, s, a).table, key).status == Some(Completed)
  }

  /** A reservation is charged at most once in any run, with whatever duplicates, retries, lost
      replies and crashes: after a step that charges it, no later step does. */
  lemma ChargedAtMostOnce(quotas: Quotas, s: State, a: Action, later: State, b: Action, key: Key)
    requires Reachable(quotas, s) && Leads(quotas, Next(quotas, s, a), later)
    ensures !(Completes(quotas, s, a, key) && Completes(quotas, later, b, key))
  {
    hide Next;
    ReachableInv(quotas, s);
    StepKeepsInv(quotas, s, a);
    var charged := Next(quotas, s, a);
    var actions :| later == Run(quotas, charged, actions);
    if RowOf(charged.table, key).status == Some(Completed) {
      CompletedKeyFamily(charged.table, key);
      OutcomesStayFinal(quotas, charged, actions, key);
    }
  }

  /** The amount on a completed row is the charge of the one job its reservation became, and a
      usage job appears in the log once or not at all, according to its marker. */
  lemma ChargesAreTheJobsOwn(quotas: Quotas, s: State, key: Key)
    requires Reachable(quotas, s)
    ensures RowOf(s.table, key).status == Some(Completed) ==>
              key in s.issued && JobKey(s.issued[key]) == key &&
                RowOf(s.table, key).actual == Some(Charge(s.issued[key]))
    ensures IsMarkerWindow(key.sort) && key in s.table ==>
              key in s.issued && s.issued[key].UsageJob? && JobKey(s.issued[key]) == key &&
              EntriesFrom(s.usage, key) ==
                [Usage(key.user, s.issued[key].occurredAt, Charge(s.issued[key]), false, Some(key))]
    ensures IsMarkerWindow(key.sort) && key !in s.table ==> EntriesFrom(s.usage, key) == []
  {
    ReachableInv(quotas, s);
    hide TasksSound, MessagesSound, AcknowledgedSurvive, BooksBalance;
    if RowOf(s.table, key).status == Some(Completed) {
      CompletedKeyFamily(s.table, key);
      assert key in s.issued && JobLinked(s.table, s.issued[key]);
      if s.issued[key].UsageJob? {
        MarkerFamily(s.issued[key].jobId);
        FamiliesExclude(key.sort);
      }
    }
  }

  lemma SettledJobIsRefused(t: Table, job: Job, attempt: nat, outcome: Outcome)
    requires Settled(t, job) && !IsVacuous(job)
    ensures TableAfter(t, JobTx(job), outcome) == t && !Commits(t, JobTx(job), outcome)
    ensures !ReplyTo(t, JobTx(job), outcome).Committed?
    ensures PhaseAfter(job, attempt, ReplyTo(t, JobTx(job), Evaluate)) == Checking
  {
    var tx := JobTx(job);
    assert !Holds(t, tx[2]);
    assert !AllHold(t, tx);
    assert ReplyTo(t, tx, Evaluate).reasons[2] == Some(ConditionalCheckFailed);
  }

  /** Once a job is settled, submitting any copy of it changes neither table nor log ... */
  lemma SettledJobsAreInert(quotas: Quotas, s: State, task: nat, outcome: Outcome)
    requires task in s.tasks && s.tasks[task].phase.Submitting? && Settled(s.table, s.tasks[task].job)
    ensures
      var after := Next(quotas, s, Submit(task, outcome));
      && after.table == s.table && after.usage == s.usage
      && (!IsVacuous(s.tasks[task].job) ==> !after.tasks[task].phase.Succeeded?)
  {
    hide Settled, TableAfter, Commits, ReplyTo, JobTx;
    if !IsVacuous(s.tasks[task].job) {
      SettledJobIsRefused(s.table, s.tasks[task].job, 0, outcome);
    }
  }

  /** ... and a task that is answered and can read reports success through the completed check. */
  lemma SettledJobsReportSuccess(quotas: Quotas, s: State, task: nat)
    requires task in s.tasks && s.tasks[task].phase.Submitting? && Settled(s.table, s.tasks[task].job)
    ensures
      var checked := Next(quotas, Next(quotas, s, Submit(task, Evaluate)), Check(task, true));
      checked.table == s.table && checked.usage == s.usage && HasPhase(checked, task, Succeeded)
  {
    hide TableAfter, Commits, ReplyTo, JobTx, PhaseAfter;
    var Task(job, _, phase) := s.tasks[task];
    if !IsVacuous(job) {
      SettledJobIsRefused(s.table, job, phase.attempt, Evaluate);
    }
  }

  lemma ShapeOf(s: State)
    requires Inv(s)
    ensures WellShapedTable(s.table)
  {
  }

  // Nothing acknowledged is lost

  lemma AcknowledgementsStay(quotas: Quotas, s: State, a: Action)
    ensures s.acknowledged <= Next(quotas, s, a).acknowledged
  {
  }

  lemma {:induction false} AcknowledgementsPersist(quotas: Quotas, s: State, actions: seq<Action>)
    ensures s.acknowledged <= Run(quotas, s, actions).acknowledged
    decreases |actions|
  {
    if actions != [] {
      var n := |actions| - 1;
      AcknowledgementsPersist(quotas, s, actions[..n]);
      AcknowledgementsStay(quotas, Run(quotas, s, actions[..n]), actions[n]);
    }
  }

  /** Once `reconcile` has returned Ok, in every later state either the job's effect is in the
      table, or an equal job waits in the queue or the dead-letter queue. */
  lemma NoChargeIsLost(quotas: Quotas, s: State, later: State, job: Job)
    requires Reachable(quotas, s) && Leads(quotas, s, later) && job in s.acknowledged
    ensures Settled(later.table, job) || InQueue(later.messages, job)
  {
    hide Run, LedgerSound;
    LeadsCompose(quotas, INITIAL, s, later);
    ReachableInv(quotas, later);
    var actions :| later == Run(quotas, s, actions);
    AcknowledgementsPersist(quotas, s, actions);
  }

  /** A message is deleted only with its effect in the table. */
  lemma DeletedMessagesAreSettled(quotas: Quotas, s: State, mid: nat)
    requires Reachable(quotas, s) && mid in s.messages && s.messages[mid].place.Deleted?
    ensures Settled(s.table, s.messages[mid].job)
  {
    ReachableInv(quotas, s);
  }

  /** Whatever has happened to it, an issued job can still be settled: no row is left in a state
      that refuses its own job. One undisturbed submission is enough. */
  lemma JobsCanAlwaysSettle(quotas: Quotas, s: State, task: nat)
    requires Inv(s) && task in s.tasks && s.tasks[task].phase.Submitting?
    ensures
      var after := Next(quotas, s, Submit(task, Evaluate));
      && Settled(after.table, s.tasks[task].job)
      && (HasPhase(after, task, Succeeded) || HasPhase(after, task, Checking))
  {
    hide Inv, JobTx, ReplyTo, TableAfter, Commits, PhaseAfter, JobLinked;
    var Task(job, owner, phase) := s.tasks[task];
    TaskJobIsLinked(s, task);
    TaskIsKnown(s, task);
    if IsVacuous(job) {
      assert Settled(s.table, job);
    } else {
      EvaluatedJobSettles(s, job, phase.attempt);
      hide Settled;
    }
  }

  lemma EvaluatedJobSettles(s: State, job: Job, attempt: nat)
    requires Inv(s) && Known(s.issued, job) && JobLinked(s.table, job)
    ensures Settled(TableAfter(s.table, JobTx(job), Evaluate), job)
    ensures PhaseAfter(job, attempt, ReplyTo(s.table, JobTx(job), Evaluate)) in {Succeeded, Checking}
  {
    if AllHold(s.table, JobTx(job)) {
      hide Inv, Settled;
      SubmittedTableKeepsInv(s, job, attempt, Evaluate);
    } else {
      hide Inv;
      RefusedJobIsSettled(s.table, job, attempt);
    }
  }

  lemma RefusedJobIsSettled(t: Table, job: Job, attempt: nat)
    requires JobLinked(t, job) && !AllHold(t, JobTx(job))
    ensures Settled(t, job)
    ensures PhaseAfter(job, attempt, ReplyTo(t, JobTx(job), Evaluate)) == Checking
  {
    var tx := JobTx(job);
    var i :| 0 <= i < |tx| && !Holds(t, tx[i]);
    assert i == 2 && !Holds(t, tx[2]);
    if job.ReservationJob? {
      assert RowOf(t, JobKey(job)).status.value == Completed;
    }
    assert ReplyTo(t, tx, Evaluate).reasons[2] == Some(ConditionalCheckFailed);
  }

  // Refusals

  predicate WouldExceed(t: Table, user: string, window: string, limit: Option<u64>, budget: u64) {
    limit.Some? && Count(t, user, window, Tokens) + budget > limit.value
  }

  predicate HasRoom(t: Table, user: string, quota: Quota, now: u64, amount: u64) {
    && !WouldExceed(t, user, DailyWindow(now), quota.daily, amount)
    && !WouldExceed(t, user, WeeklyWindow(now), quota.weekly, amount)
  }

  /** Usage whose recording is evaluated is logged once and added to both windows, unless its limits
      are enforced and one of the windows has no room for it: then nothing happens. */
  lemma UsageIsRecorded(quotas: Quotas, s: State, user: string, now: u64, tokens: u64, enforced: bool)
    requires Reachable(quotas, s) && tokens > 0
    ensures
      var after := Next(quotas, s, Record(user, now, tokens, enforced, Evaluate));
      if enforced && !HasRoom(s.table, user, quotas(user), now, tokens) then after == s
      else
        && after.usage == s.usage + [Usage(user, now, tokens, enforced, None)]
        && forall window :: window in {DailyWindow(now), WeeklyWindow(now)} ==>
          && Count(after.table, user, window, Tokens) == Count(s.table, user, window, Tokens) + tokens
          && Count(after.table, user, window, ConsumedTokens) == Count(s.table, user, window, ConsumedTokens) + tokens
          && Count(after.table, user, window, ReservedTokens) == Count(s.table, user, window, ReservedTokens)
  {
    hide Reachable, Count, HasRoom, Posted, UsageWrites, Holds, AllHold, AllWritten;
    var quota := EnforcedQuota(quotas(user), enforced);
    CountsAreNatural(quotas, s, user, now);
    UsageWritesPost(s.table, user, quota, now, tokens);
    PostedUsage(s.table, user, now, tokens);
    if Refused(quota, tokens) {
      RefusedHasNoRoom(s.table, user, quota, now, tokens);
    } else {
      UsageConditions(s.table, user, quota, now, tokens);
      EnforcedRoom(s.table, user, quotas(user), now, tokens, enforced);
    }
  }

  lemma CountsAreNatural(quotas: Quotas, s: State, user: string, now: u64)
    requires Reachable(quotas, s)
    ensures Count(s.table, user, DailyWindow(now), Tokens) >= 0 && Count(s.table, user, WeeklyWindow(now), Tokens) >= 0
  {
    KeyFamiliesAreDisjoint(now, now, "", "");
    BooksAlwaysBalance(quotas, s, user, DailyWindow(now));
    BooksAlwaysBalance(quotas, s, user, WeeklyWindow(now));
  }

  lemma EnforcedRoom(t: Table, user: string, quota: Quota, now: u64, amount: u64, enforced: bool)
    ensures HasRoom(t, user, EnforcedQuota(quota, enforced), now, amount) <==>
            !enforced || HasRoom(t, user, quota, now, amount)
  {
  }

  lemma RefusedHasNoRoom(t: Table, user: string, quota: Quota, now: u64, amount: u64)
    requires Refused(quota, amount)
    requires Count(t, user, DailyWindow(now), Tokens) >= 0 && Count(t, user, WeeklyWindow(now), Tokens) >= 0
    ensures !HasRoom(t, user, quota, now, amount)
  {
  }

  lemma PostedUsage(t: Table, user: string, now: u64, tokens: u64)
    ensures
      var after := Posted(t, user, DailyWindow(now), WeeklyWindow(now), Add(Some(tokens), None, Some(tokens)));
      forall window :: window in {DailyWindow(now), WeeklyWindow(now)} ==>
        && Count(after, user, window, Tokens) == Count(t, user, window, Tokens) + tokens
        && Count(after, user, window, ConsumedTokens) == Count(t, user, window, ConsumedTokens) + tokens
        && Count(after, user, window, ReservedTokens) == Count(t, user, window, ReservedTokens)
  {
    KeyFamiliesAreDisjoint(now, now, "", "");
    hide DailyWindow, WeeklyWindow, IsUsageWindow;
  }

  lemma UsageConditions(t: Table, user: string, quota: Quota, now: u64, tokens: u64)
    requires !Refused(quota, tokens)
    ensures
      var tx := UsageWrites(user, quota, now, tokens);
      |tx| == 2 && (Holds(t, tx[0]) && Holds(t, tx[1]) <==> HasRoom(t, user, quota, now, tokens))
  {
  }

  /** A reservation is refused over its limit only when one of its two windows has no room for the
      budget; and a submission that is evaluated is refused exactly then, if its id is new. */
  lemma LimitRefusalsAreTrue(t: Table, user: string, quota: Quota, now: u64, budget: u64, id: string, outcome: Outcome)
    requires WellShapedTable(t)
    ensures
      var reply := ReplyTo(t, ReserveTx(user, quota, now, budget, id), outcome);
      var full := WouldExceed(t, user, DailyWindow(now), quota.daily, budget) ||
        WouldExceed(t, user, WeeklyWindow(now), quota.weekly, budget);
      && (reply.Canceled? && ClassifyReservation(reply.reasons) == LimitExceeded ==> full)
      && (outcome.Evaluate? && full && !Refused(quota, budget) ==>
          reply.Canceled? && ClassifyReservation(reply.reasons) == LimitExceeded)
      && (outcome.Evaluate? && !full && Key(user, ReservationWindow(id)) !in t ==> reply.Committed?)
  {
    var tx := ReserveTx(user, quota, now, budget, id);
    ReserveTxPosts(t, user, quota, now, budget, id);
    var d, w := Key(user, DailyWindow(now)), Key(user, WeeklyWindow(now));
    KeyFamiliesAreDisjoint(now, now, id, "");
    assert d in t ==> WellShaped(d, t[d]);
    assert w in t ==> WellShaped(w, t[w]);
    assert !Holds(t, tx[0]) ==> WouldExceed(t, user, DailyWindow(now), quota.daily, budget);
    assert !Holds(t, tx[1]) ==> WouldExceed(t, user, WeeklyWindow(now), quota.weekly, budget);
    if outcome.Evaluate? && !AllHold(t, tx) {
      var reasons := ReplyTo(t, tx, outcome).reasons;
      assert !Holds(t, tx[0]) ==> reasons[0] == Some(ConditionalCheckFailed);
      assert !Holds(t, tx[1]) ==> reasons[1] == Some(ConditionalCheckFailed);
    }
  }
}
