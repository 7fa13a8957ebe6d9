/** How far a window can go beyond its limit, under any interleaving. */
module LedgerQuota {
  import opened Prelude
  import opened UsageWindows
  import opened TokenTable
  import opened TokenLedger
  import opened LedgerInvariants
  import opened LedgerTheorems

  function LimitOn(quota: Quota, window: string): Option<u64> {
    if "daily#" <= window then quota.daily else quota.weekly
  }

  /** Usage recorded without enforcing a limit. */
  function Unlimited(log: seq<Usage>, user: string, window: string): int {
    UsageIn(log, user, {window}, {false})
  }

  ghost predicate WithinLimit(t: Table, log: seq<Usage>, user: string, window: string, limit: u64) {
    RowOf(t, Key(user, window)).tokens.GetOr(0) <=
      limit + Total(Overage(user, {window}), t) + Unlimited(log, user, window)
  }

  ghost predicate QuotasKept(quotas: Quotas, t: Table, log: seq<Usage>) {
    forall user, window :: IsUsageWindow(window) && LimitOn(quotas(user), window).Some? ==>
      WithinLimit(t, log, user, window, LimitOn(quotas(user), window).value)
  }

  /** Posting keeps a window within its limit when the new count is within the limit itself, or
      grows by no more than the overage and unlimited usage that were added. */
  lemma PostingKeepsLimit(t: Table, log: seq<Usage>, user: string, daily: string, weekly: string, amounts: Effect,
                          k: Key, row: Item, log': seq<Usage>, u: string, window: string, limit: u64)
    requires WellShapedTable(t) && OneInstant(daily, weekly) && amounts.Add? && amounts.tokens.Some?
    requires !IsUsageWindow(k.sort) && WellShaped(k, row) && IsUsageWindow(window) &&
             WithinLimit(t, log, u, window, limit)
    requires
      var gained := Delta(Overage(u, {window}), t, k, row) + Unlimited(log', u, window) - Unlimited(log, u, window);
      if Hits(user, daily, weekly, Key(u, window))
      then amounts.tokens.value <= gained || RowOf(t, Key(u, window)).tokens.GetOr(0) + amounts.tokens.value <= limit
      else gained >= 0
    ensures WithinLimit(Posted(t, user, daily, weekly, amounts)[k := row], log', u, window, limit)
  {
    var p := Posted(t, user, daily, weekly, amounts);
    PostingKeepsShape(t, user, daily, weekly, amounts);
    PostedRowShape(t, user, daily, weekly, amounts, k, row);
    InstantWindows(daily, weekly);
    TotalAfter(Overage(u, {window}), p, k, row);
    SharesAreNonNegative(p[k := row], Overage(u, {window}));
    UsageIsNonNegative(log', u, {window}, {false});
    assert RowOf(p, k) == RowOf(t, k);
    assert RowOf(p[k := row], Key(u, window)) == RowOf(p, Key(u, window));
  }

  lemma ReserveKeepsLimit(t: Table, log: seq<Usage>, quota: Quota, user: string, now: u64, budget: u64, id: string,
                          u: string, window: string, limit: u64)
    requires WellShapedTable(t) && budget > 0 && !Refused(quota, budget)
    requires AllHold(t, ReserveTx(user, quota, now, budget, id))
    requires IsUsageWindow(window) && WithinLimit(t, log, u, window, limit)
    requires u == user ==> LimitOn(quota, window) == Some(limit)
    ensures WithinLimit(AllWritten(t, ReserveTx(user, quota, now, budget, id)), log, u, window, limit)
  {
    hide WithinLimit, Posted, WellShapedTable;
    var k, row, amounts :=
      Key(user, ReservationWindow(id)), ReservationRow(budget, now), Add(Some(budget), Some(budget), None);
    ReserveTxPosts(t, user, quota, now, budget, id);
    KeyFamiliesAreDisjoint(now, now, id, "");
    KeyFamilyPrefixes(now);
    PostingKeepsLimit(t, log, user, DailyWindow(now), WeeklyWindow(now), amounts, k, row, log, u, window, limit);
  }

  lemma KeyFamilyPrefixes(now: u64)
    ensures "daily#" <= DailyWindow(now) && !("daily#" <= WeeklyWindow(now))
  {
    assert WeeklyWindow(now)[0] == 'w' && "daily#"[0] == 'd';
  }

  lemma ReconcileKeepsLimit(t: Table, log: seq<Usage>, job: Job, u: string, window: string, limit: u64)
    requires WellShapedTable(t) && job.ReservationJob? && JobLinked(t, job)
    requires AllHold(t, ReconcileTx(job))
    requires IsUsageWindow(window) && WithinLimit(t, log, u, window, limit)
    ensures WithinLimit(AllWritten(t, ReconcileTx(job)), log, u, window, limit)
  {
    ReconcileShape(t, job);
    hide WithinLimit, Posted, WellShapedTable;
    FamiliesExclude(job.reservationWindow);
    var k, amounts :=
      JobKey(job), Add(Some(Charge(job) as int - job.budget), Some(-(job.budget as int)), Some(Charge(job)));
    PostingKeepsLimit(t, log, job.user, job.daily, job.weekly, amounts, k,
                      t[k].(status := Some(Completed), actual := Some(Charge(job))), log, u, window, limit);
  }

  lemma UsageKeepsLimit(t: Table, log: seq<Usage>, job: Job, u: string, window: string, limit: u64)
    requires WellShapedTable(t) && job.UsageJob? && AllHold(t, UsageTx(job))
    requires IsUsageWindow(window) && WithinLimit(t, log, u, window, limit)
    ensures WithinLimit(AllWritten(t, UsageTx(job)),
                        log + [Usage(job.user, job.occurredAt, job.tokens, false, Some(JobKey(job)))], u, window, limit)
  {
    hide WithinLimit, Posted, WellShapedTable;
    var entry := Usage(job.user, job.occurredAt, job.tokens, false, Some(JobKey(job)));
    AppendedUsage(log, entry, u, {window}, {false});
    UsageTxPosts(t, job);
    KeyFamiliesAreDisjoint(job.occurredAt, job.occurredAt, "", job.jobId);
    PostingKeepsLimit(t, log, job.user, DailyWindow(job.occurredAt), WeeklyWindow(job.occurredAt),
                      Add(Some(job.tokens), None, Some(job.tokens)), JobKey(job), NO_ATTRIBUTES,
                      log + [entry], u, window, limit);
  }

  lemma RecordKeepsLimit(t: Table, log: seq<Usage>, quota: Quota, user: string, now: u64, tokens: u64, enforced: bool,
                         u: string, window: string, limit: u64)
    requires WellShapedTable(t) && !Refused(EnforcedQuota(quota, enforced), tokens)
    requires AllHold(t, UsageWrites(user, EnforcedQuota(quota, enforced), now, tokens))
    requires IsUsageWindow(window) && WithinLimit(t, log, u, window, limit)
    requires u == user ==> LimitOn(quota, window) == Some(limit)
    ensures
      WithinLimit(AllWritten(t, UsageWrites(user, EnforcedQuota(quota, enforced), now, tokens)),
                  log + [Usage(user, now, tokens, enforced, None)], u, window, limit)
  {
    var q := EnforcedQuota(quota, enforced);
    AppendedUsage(log, Usage(user, now, tokens, enforced, None), u, {window}, {false});
    UsageWritesPost(t, user, q, now, tokens);
    KeyFamilyPrefixes(now);
    PostingKeepsShape(t, user, DailyWindow(now), WeeklyWindow(now), Add(Some(tokens), None, Some(tokens)));
    SharesAreNonNegative(t, Overage(u, {window}));
    UsageIsNonNegative(log, u, {window}, {false});
  }

  lemma ReserveKeepsQuotas(quotas: Quotas, s: State, user: string, now: u64, budget: u64, id: string)
    requires Inv(s) && QuotasKept(quotas, s.table, s.usage) && budget > 0 && !Refused(quotas(user), budget)
    requires AllHold(s.table, ReserveTx(user, quotas(user), now, budget, id))
    ensures QuotasKept(quotas, AllWritten(s.table, ReserveTx(user, quotas(user), now, budget, id)), s.usage)
  {
    hide WithinLimit, TasksSound, MessagesSound, AcknowledgedSurvive;
    forall u, window | IsUsageWindow(window) && LimitOn(quotas(u), window).Some?
      ensures WithinLimit(AllWritten(s.table, ReserveTx(user, quotas(user), now, budget, id)), s.usage, u, window,
                          LimitOn(quotas(u), window).value)
    {
      ReserveKeepsLimit(s.table, s.usage, quotas(user), user, now, budget, id, u, window,
                        LimitOn(quotas(u), window).value);
    }
  }

  lemma RecordKeepsQuotas(quotas: Quotas, s: State, user: string, now: u64, tokens: u64, enforced: bool)
    requires Inv(s) && QuotasKept(quotas, s.table, s.usage) && !Refused(EnforcedQuota(quotas(user), enforced), tokens)
    requires AllHold(s.table, UsageWrites(user, EnforcedQuota(quotas(user), enforced), now, tokens))
    ensures QuotasKept(quotas,
                       AllWritten(s.table, UsageWrites(user, EnforcedQuota(quotas(user), enforced), now, tokens)),
                       s.usage + [Usage(user, now, tokens, enforced, None)])
  {
    hide WithinLimit, TasksSound, MessagesSound, AcknowledgedSurvive;
    forall u, window | IsUsageWindow(window) && LimitOn(quotas(u), window).Some?
      ensures WithinLimit(AllWritten(s.table, UsageWrites(user, EnforcedQuota(quotas(user), enforced), now, tokens)),
                          s.usage + [Usage(user, now, tokens, enforced, None)], u, window,
                            LimitOn(quotas(u), window).value)
    {
      RecordKeepsLimit(s.table, s.usage, quotas(user), user, now, tokens, enforced, u, window,
                       LimitOn(quotas(u), window).value);
    }
  }

  lemma JobKeepsQuotas(quotas: Quotas, s: State, job: Job, outcome: Outcome)
    requires Inv(s) && QuotasKept(quotas, s.table, s.usage) && JobLinked(s.table, job)
    ensures QuotasKept(quotas, SubmittedTable(s, job, outcome).table, SubmittedTable(s, job, outcome).usage)
  {
    hide WithinLimit, TasksSound, MessagesSound, AcknowledgedSurvive;
    if Commits(s.table, JobTx(job), outcome) {
      forall u, window | IsUsageWindow(window) && LimitOn(quotas(u), window).Some?
        ensures WithinLimit(SubmittedTable(s, job, outcome).table, SubmittedTable(s, job, outcome).usage, u, window,
                            LimitOn(quotas(u), window).value)
      {
        if job.ReservationJob? {
          ReconcileKeepsLimit(s.table, s.usage, job, u, window, LimitOn(quotas(u), window).value);
        } else {
          UsageKeepsLimit(s.table, s.usage, job, u, window, LimitOn(quotas(u), window).value);
        }
      }
    }
  }

  lemma StepKeepsQuotas(quotas: Quotas, s: State, a: Action)
    requires Inv(s) && QuotasKept(quotas, s.table, s.usage)
    ensures QuotasKept(quotas, Next(quotas, s, a).table, Next(quotas, s, a).usage)
  {
    hide Inv, QuotasKept, AllHold, ReplyTo, ReserveTx, UsageWrites, AllWritten, PhaseAfter, SettlementKey, JobFor;
    hide Refused;
    match a
    case Reserve(user, now, budget, id, _, outcome) =>
      if Next(quotas, s, a).table != s.table {
        ReserveKeepsQuotas(quotas, s, user, now, budget, id);
      }
    case Record(user, now, tokens, enforced, outcome) =>
      var q := EnforcedQuota(quotas(user), enforced);
      if tokens != 0 && !Refused(q, tokens) && Commits(s.table, UsageWrites(user, q, now, tokens), outcome) {
        RecordKeepsQuotas(quotas, s, user, now, tokens, enforced);
      }
    case Submit(task, outcome) =>
      if task in s.tasks && s.tasks[task].phase.Submitting? && !IsVacuous(s.tasks[task].job) {
        TaskJobIsLinked(s, task);
        JobKeepsQuotas(quotas, s, s.tasks[task].job, outcome);
      }
    case _ =>
  }

  lemma {:induction false} RunKeepsQuotas(quotas: Quotas, actions: seq<Action>)
    ensures QuotasKept(quotas, Run(quotas, INITIAL, actions).table, Run(quotas, INITIAL, actions).usage)
    decreases |actions|
  {
    if actions != [] {
      var n := |actions| - 1;
      RunKeepsQuotas(quotas, actions[..n]);
      InitialInv();
      RunKeepsInv(quotas, INITIAL, actions[..n]);
      StepKeepsQuotas(quotas, Run(quotas, INITIAL, actions[..n]), actions[n]);
    }
  }

  /** With a fixed limit on a window, its effective count never exceeds the limit plus the overage
      of completed reservations plus the usage recorded without a limit. */
  lemma LimitIsKept(quotas: Quotas, s: State, user: string, window: string, limit: u64)
    requires Reachable(quotas, s) && IsUsageWindow(window) && LimitOn(quotas(user), window) == Some(limit)
    ensures Count(s.table, user, window, Tokens) <=
            limit + Total(Overage(user, {window}), s.table) + Unlimited(s.usage, user, window)
  {
    var actions :| s == Run(quotas, INITIAL, actions);
    RunKeepsQuotas(quotas, actions);
    assert WithinLimit(s.table, s.usage, user, window, limit);
  }

  predicate ChargedWithinBudget(t: Table, user: string) {
    forall k :: k in t && k.user == user && t[k].status == Some(Completed) ==>
      t[k].actual.GetOr(0) <= t[k].reserved.GetOr(0)
  }

  lemma {:induction false} NoOverage(t: Table, user: string, window: string)
    requires ChargedWithinBudget(t, user)
    ensures Total(Overage(user, {window}), t) == 0
    decreases |t|
  {
    if t != map[] {
      var k :| k in t;
      TotalWithout(Overage(user, {window}), t, k);
      NoOverage(t - {k}, user, window);
    }
  }

  /** If no response exceeded its budget and nothing was recorded without a limit, the quota was
      never exceeded. */
  lemma QuotaIsNeverExceeded(quotas: Quotas, s: State, user: string, window: string, limit: u64)
    requires Reachable(quotas, s) && IsUsageWindow(window) && LimitOn(quotas(user), window) == Some(limit)
    requires ChargedWithinBudget(s.table, user) && Unlimited(s.usage, user, window) == 0
    ensures Count(s.table, user, window, Tokens) <= limit
  {
    LimitIsKept(quotas, s, user, window, limit);
    NoOverage(s.table, user, window);
  }

  /** Then reading the window's count back never fails: it is a `u64`, however many reservations were
      made. */
  lemma LimitedCountReadsBack(quotas: Quotas, s: State, user: string, window: string)
    requires Reachable(quotas, s) && IsUsageWindow(window) && LimitOn(quotas(user), window).Some?
    requires ChargedWithinBudget(s.table, user) && Unlimited(s.usage, user, window) == 0
    ensures
      var count := Count(s.table, user, window, Tokens);
      count >= 0 && ParseU64(NumberText(count)) == Some(count)
  {
    QuotaIsNeverExceeded(quotas, s, user, window, LimitOn(quotas(user), window).value);
    BooksAlwaysBalance(quotas, s, user, window);
  }

  /** A reconciliation is never refused over a limit, and moves both counts of its reservation by the
      charge less the budget. */
  lemma OverageIsNotRefused(t: Table, job: Job, window: string)
    requires WellShapedTable(t) && job.ReservationJob? && JobLinked(t, job) &&
             RowOf(t, JobKey(job)).status == Some(Reserved)
    requires window in {job.daily, job.weekly}
    ensures Commits(t, JobTx(job), Evaluate)
    ensures Count(AllWritten(t, JobTx(job)), job.user, window, Tokens) ==
            Count(t, job.user, window, Tokens) + Charge(job) - job.budget
  {
    hide JobTx;
    ReconcileWritesBoth(t, job);
    InstantWindows(job.daily, job.weekly);
    FamiliesExclude(job.reservationWindow);
  }

  lemma ReconcileWritesBoth(t: Table, job: Job)
    requires WellShapedTable(t) && job.ReservationJob? && JobLinked(t, job)
    ensures OneInstant(job.daily, job.weekly) && IsReservationWindow(job.reservationWindow)
    ensures AllHold(t, JobTx(job)) <==> RowOf(t, JobKey(job)).status == Some(Reserved)
    ensures
      AllWritten(t, JobTx(job)) ==
      Posted(t, job.user, job.daily, job.weekly,
             Add(Some(Charge(job) as int - job.budget), Some(-(job.budget as int)), Some(Charge(job))))
            [JobKey(job) := RowOf(t, JobKey(job)).(status := Some(Completed), actual := Some(Charge(job)))]
  {
    FamiliesExclude(job.reservationWindow);
    assert WellShaped(JobKey(job), t[JobKey(job)]);
    ReconcileTxPosts(t, job);
  }

  // States that reach the bounds

  /** From a reachable state a reservation that fits its limits can be made, ... */
  lemma ReservationIsReachable(quotas: Quotas, s: State, user: string, now: u64, budget: u64, id: string, token: string)
    returns (after: State, r: TokenReservation)
    requires Reachable(quotas, s) && budget > 0 && quotas(user) != NO_LIMITS && !Refused(quotas(user), budget)
    requires AllHold(s.table, ReserveTx(user, quotas(user), now, budget, id))
    ensures Reachable(quotas, after) && r == Tracked(user, id, token, budget, now)
    ensures after ==
            s.(table := AllWritten(s.table, ReserveTx(user, quotas(user), now, budget, id)),
               held := s.held[SettlementKey(r) := r])
    ensures
      after.table == Posted(s.table, user, DailyWindow(now), WeeklyWindow(now), Add(Some(budget), Some(budget), None))
                           [Key(user, ReservationWindow(id)) := ReservationRow(budget, now)]
  {
    hide ReserveTx, AllWritten, AllHold;
    var a := Reserve(user, now, budget, id, token, Evaluate);
    r := Tracked(user, id, token, budget, now);
    after := Next(quotas, s, a);
    ReserveTxPosts(s.table, user, quotas(user), now, budget, id);
    StepLeads(quotas, s, a);
    LeadsCompose(quotas, INITIAL, s, after);
  }

  /** ... and a tracked reservation that is held can be charged any amount. */
  lemma ChargeIsReachable(quotas: Quotas, s: State, key: Key, actual: u64, task: nat) returns (after: State, job: Job)
    requires Reachable(quotas, s) && key in s.held && s.held[key].reservationWindow.Some? && task !in s.tasks
    ensures Reachable(quotas, after) && JobFor(s.held[key], Some(actual)) == Some(job)
    ensures after.held == s.held - {key} && after.tasks.Keys == s.tasks.Keys + {task} && after.usage == s.usage
    ensures JobLinked(s.table, job) && RowOf(s.table, key).status == Some(Reserved)
    ensures after.table == AllWritten(s.table, JobTx(job))
  {
    hide Inv, Next, JobTx, AllWritten;
    ReachableInv(quotas, s);
    HeldIsReserved(s, key, Some(actual));
    job := JobFor(s.held[key], Some(actual)).value;
    var issued := Next(quotas, s, Reconcile(key, Some(actual), task));
    after := Next(quotas, issued, Submit(task, Evaluate));
    ShapeOf(s);
    ReconcileWritesBoth(s.table, job);
    ChargingSteps(quotas, s, key, actual, task, job);
    StepLeads(quotas, s, Reconcile(key, Some(actual), task));
    StepLeads(quotas, issued, Submit(task, Evaluate));
    LeadsCompose(quotas, INITIAL, s, issued);
    LeadsCompose(quotas, INITIAL, issued, after);
  }

  lemma ChargingSteps(quotas: Quotas, s: State, key: Key, actual: u64, task: nat, job: Job)
    requires key in s.held && task !in s.tasks && JobFor(s.held[key], Some(actual)) == Some(job) && job.ReservationJob?
    requires AllHold(s.table, JobTx(job))
    ensures
      var after := Next(quotas, Next(quotas, s, Reconcile(key, Some(actual), task)), Submit(task, Evaluate));
      && after.held == s.held - {key} && after.tasks.Keys == s.tasks.Keys + {task} && after.usage == s.usage
      && after.table == AllWritten(s.table, JobTx(job))
  {
    hide JobFor, JobTx, AllWritten, AllHold, PhaseAfter, ReplyTo;
    var issued := Next(quotas, s, Reconcile(key, Some(actual), task));
    assert issued.table == s.table && task in issued.tasks && issued.tasks[task] == Task(job, Caller, Submitting(0));
  }

  lemma HeldIsReserved(s: State, key: Key, actual: Option<u64>)
    requires Inv(s) && key in s.held && s.held[key].reservationWindow.Some?
    ensures JobFor(s.held[key], actual).Some? && JobFor(s.held[key], actual).value.ReservationJob?
    ensures JobKey(JobFor(s.held[key], actual).value) == key && JobLinked(s.table, JobFor(s.held[key], actual).value)
    ensures RowOf(s.table, key).status == Some(Reserved)
  {
    JobOfHeldReservation(s, key, actual);
  }

  lemma PostedCount(t: Table, user: string, daily: string, weekly: string, amounts: Effect, k: Key, row: Item,
                    window: string)
    requires OneInstant(daily, weekly) && amounts.Add? && amounts.tokens.Some? && !IsUsageWindow(k.sort) &&
             window in {daily, weekly}
    ensures
      Count(Posted(t, user, daily, weekly, amounts)[k := row], user, window, Tokens) ==
        Count(t, user, window, Tokens) + amounts.tokens.value
  {
    InstantWindows(daily, weekly);
  }

  lemma PostedOverage(t: Table, user: string, daily: string, weekly: string, amounts: Effect, k: Key, row: Item,
                      window: string)
    requires WellShapedTable(t) && OneInstant(daily, weekly) && amounts.Add? && amounts.tokens.Some? &&
             !IsUsageWindow(k.sort)
    ensures
      var m := Overage(user, {window});
      Total(m, Posted(t, user, daily, weekly, amounts)[k := row]) == Total(m, t) + Delta(m, t, k, row)
  {
    var m, p := Overage(user, {window}), Posted(t, user, daily, weekly, amounts);
    PostingKeepsShape(t, user, daily, weekly, amounts);
    InstantWindows(daily, weekly);
    TotalAfter(m, p, k, row);
    assert RowOf(p, k) == RowOf(t, k);
  }

  /** A reservation adds its budget to the counts of its windows and no overage, ... */
  lemma ReservationEffects(t: Table, user: string, now: u64, budget: u64, id: string, window: string)
    requires WellShapedTable(t) && Key(user, ReservationWindow(id)) !in t &&
             window in {DailyWindow(now), WeeklyWindow(now)}
    ensures
      var k, row := Key(user, ReservationWindow(id)), ReservationRow(budget, now);
      var t' := Posted(t, user, DailyWindow(now), WeeklyWindow(now), Add(Some(budget), Some(budget), None))[k := row];
      && Count(t', user, window, Tokens) == Count(t, user, window, Tokens) + budget
      && Total(Overage(user, {window}), t') == Total(Overage(user, {window}), t)
  {
    hide Posted, WellShapedTable, IsUsageWindow, Total, IsMarkerWindow, IsReservationWindow;
    var k, row, amounts :=
      Key(user, ReservationWindow(id)), ReservationRow(budget, now), Add(Some(budget), Some(budget), None);
    KeyFamiliesAreDisjoint(now, now, id, "");
    assert OneInstant(DailyWindow(now), WeeklyWindow(now));
    PostedCount(t, user, DailyWindow(now), WeeklyWindow(now), amounts, k, row, window);
    PostedOverage(t, user, DailyWindow(now), WeeklyWindow(now), amounts, k, row, window);
  }

  /** ... and a charge beyond the budget adds the difference to both. */
  lemma ChargeEffects(t: Table, job: Job, window: string)
    requires WellShapedTable(t) && job.ReservationJob? && JobLinked(t, job) &&
             RowOf(t, JobKey(job)).status == Some(Reserved)
    requires window in {job.daily, job.weekly} && Charge(job) >= job.budget
    ensures
      var t' := AllWritten(t, JobTx(job));
      && Count(t', job.user, window, Tokens) == Count(t, job.user, window, Tokens) + Charge(job) - job.budget
      && Total(Overage(job.user, {window}), t') == Total(Overage(job.user, {window}), t) + Charge(job) - job.budget
  {
    hide Posted, WellShapedTable, IsUsageWindow, Total, JobTx, AllWritten, IsMarkerWindow, IsReservationWindow;
    OverageIsNotRefused(t, job, window);
    ReconcileWritesBoth(t, job);
    FamiliesExclude(job.reservationWindow);
    var k := JobKey(job);
    PostedOverage(t, job.user, job.daily, job.weekly,
                  Add(Some(Charge(job) as int - job.budget), Some(-(job.budget as int)), Some(Charge(job))),
                  k, RowOf(t, k).(status := Some(Completed), actual := Some(Charge(job))), window);
  }

  /** The bound of `LimitIsKept` is attained: for every limit and every overage there is a reachable
      state whose count is the limit plus the overage. */
  lemma LimitIsReached(quotas: Quotas, user: string, now: u64, window: string, limit: u64, overage: nat, id: string,
                       token: string)
    returns (s: State)
    requires window in {DailyWindow(now), WeeklyWindow(now)} && LimitOn(quotas(user), window) == Some(limit)
    requires 0 < limit && limit + overage <= U64_MAX && !Refused(quotas(user), limit)
    ensures Reachable(quotas, s)
    ensures Count(s.table, user, window, Tokens) == limit + overage
    ensures Total(Overage(user, {window}), s.table) == overage && Unlimited(s.usage, user, window) == 0
  {
    hide Next, Run, Posted, WellShapedTable, ReserveTx, JobTx, AllWritten, Total, JobLinked, Refused, Inv, Reachable;
    hide Count, UsageIn;
    InitialIsReachable(quotas);
    EmptyTableHasRoom(quotas(user), user, now, limit, id);
    NothingYet(user, window);
    var booked, r := ReservationIsReachable(quotas, INITIAL, user, now, limit, id, token);
    ReservationEffects(map[], user, now, limit, id, window);
    var after, job := ChargeIsReachable(quotas, booked, Key(user, ReservationWindow(id)), limit + overage, 0);
    ReachableInv(quotas, booked);
    ShapeOf(booked);
    ChargeEffects(booked.table, job, window);
    s := after;
  }

  lemma InitialIsReachable(quotas: Quotas)
    ensures Reachable(quotas, INITIAL)
  {
    assert Run(quotas, INITIAL, []) == INITIAL;
  }

  lemma EmptyTableHasRoom(quota: Quota, user: string, now: u64, budget: u64, id: string)
    ensures AllHold(map[], ReserveTx(user, quota, now, budget, id)) && WellShapedTable(map[])
  {
  }

  lemma NothingYet(user: string, window: string)
    ensures Count(map[], user, window, Tokens) == 0 && Total(Overage(user, {window}), map[]) == 0 &&
            Unlimited([], user, window) == 0
  {
  }

  /** Two reservations of one token that both fit can be charged so much that their window's count is
      no longer a `u64` and cannot be read back. */
  lemma CountCanOutgrowU64(quotas: Quotas, user: string, now: u64, window: string, id: string, other: string,
                           token: string)
    returns (s: State)
    requires window in {DailyWindow(now), WeeklyWindow(now)} && quotas(user) != NO_LIMITS &&
             !Refused(quotas(user), 2) && id != other
    ensures Reachable(quotas, s)
    ensures Count(s.table, user, window, Tokens) == 2 * U64_MAX
    ensures ParseU64(NumberText(Count(s.table, user, window, Tokens))) == None
  {
    hide Next, Run, Posted, WellShapedTable, ReserveTx, JobTx, AllWritten, AllHold, Total, JobLinked, Inv, Reachable;
    hide Count, UsageIn;
    InitialIsReachable(quotas);
    EmptyTableHasRoom(quotas(user), user, now, 1, id);
    NothingYet(user, window);
    var k1, k2 := Key(user, ReservationWindow(id)), Key(user, ReservationWindow(other));
    var one, r1 := ReservationIsReachable(quotas, INITIAL, user, now, 1, id, token);
    ReservationEffects(map[], user, now, 1, id, window);
    RoomForAnother(quotas(user), user, now, id, other);
    ReachableInv(quotas, one);
    ShapeOf(one);
    var two, r2 := ReservationIsReachable(quotas, one, user, now, 1, other, token);
    ReservationEffects(one.table, user, now, 1, other, window);
    ReachableInv(quotas, two);
    ShapeOf(two);
    var charged, job1 := ChargeIsReachable(quotas, two, k1, U64_MAX, 0);
    ChargeEffects(two.table, job1, window);
    ReachableInv(quotas, charged);
    ShapeOf(charged);
    var both, job2 := ChargeIsReachable(quotas, charged, k2, U64_MAX, 1);
    ChargeEffects(charged.table, job2, window);
    CountReadsBack(2 * U64_MAX);
    s := both;
  }

  lemma RoomForAnother(quota: Quota, user: string, now: u64, id: string, other: string)
    requires !Refused(quota, 2) && id != other
    ensures
      var t := Posted(map[], user, DailyWindow(now), WeeklyWindow(now), Add(Some(1), Some(1), None))
                 [Key(user, ReservationWindow(id)) := ReservationRow(1, now)];
      AllHold(t, ReserveTx(user, quota, now, 1, other)) && Key(user, ReservationWindow(other)) !in t
    ensures !Refused(quota, 1) && Key(user, ReservationWindow(id)) != Key(user, ReservationWindow(other))
  {
    KeyFamiliesAreDisjoint(now, now, id, "");
    KeyFamiliesAreDisjoint(now, now, other, "");
    assert ReservationWindow(id)[12..] == id && ReservationWindow(other)[12..] == other;
    hide DailyWindow, WeeklyWindow, IsUsageWindow, IsReservationWindow, IsMarkerWindow, ReservationWindow;
    var t := Posted(map[], user, DailyWindow(now), WeeklyWindow(now), Add(Some(1), Some(1), None))
               [Key(user, ReservationWindow(id)) := ReservationRow(1, now)];
    ReserveTxPosts(t, user, quota, now, 1, other);
  }
}
