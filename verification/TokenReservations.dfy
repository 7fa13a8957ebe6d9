/** The loops of `token_reservation.rs`, `token_usage.rs` and `token_reconciliation.rs`, run against
    the shared state while others act: between any two of their steps the environment may take
    any number of steps of its own. Each call is a run of the protocol. */
module TokenReservations {
  import opened Prelude
  import opened UsageWindows
  import opened TokenTable
  import opened TokenLedger
  import opened LedgerInvariants
  import opened LedgerTheorems

  const RETRY_BASE_DELAY_MILLISECONDS: nat := 25

  function PowerOfTwo(n: nat): nat {
    if n == 0 then 1 else 2 * PowerOfTwo(n - 1)
  }

  function BaseDelay(attempt: nat): nat {
    RETRY_BASE_DELAY_MILLISECONDS * PowerOfTwo(attempt)
  }

  /** What the environment does around one attempt: the steps others take before it and before a
      read that may follow it, the fate of the submission, and the jitter drawn. */
  datatype Fate = Fate(before: seq<Action>, outcome: Outcome, jitter: nat, beforeRead: seq<Action>, readable: bool)

  predicate ValidFates(fates: seq<Fate>) {
    |fates| == TRANSACTION_ATTEMPTS && forall i :: 0 <= i < |fates| ==> fates[i].jitter <= BaseDelay(i)
  }

  /** What the others did in the first `n` attempts. */
  function Interference(fates: seq<Fate>, n: nat): seq<Action>
    requires n <= |fates|
  {
    if n == 0 then [] else Interference(fates, n - 1) + fates[n - 1].before
  }

  /** Nobody else advances this task. */
  predicate LeavesAlone(a: Action, task: nat) {
    match a
    case Submit(t, _) => t != task
    case Check(t, _) => t != task
    case Acknowledge(t) => t != task
    case Enqueue(t, _, _) => t != task
    case Delete(t, _) => t != task
    case Abandon(t) => t != task
    case _ => true
  }

  predicate AllLeaveAlone(actions: seq<Action>, task: nat) {
    forall i :: 0 <= i < |actions| ==> LeavesAlone(actions[i], task)
  }

  predicate FateLeavesAlone(fate: Fate, task: nat) {
    AllLeaveAlone(fate.before, task) && AllLeaveAlone(fate.beforeRead, task)
  }

  predicate FatesLeaveAlone(fates: seq<Fate>, task: nat) {
    forall i :: 0 <= i < |fates| ==> FateLeavesAlone(fates[i], task)
  }

  lemma {:induction false} OthersKeepTask(quotas: Quotas, s: State, actions: seq<Action>, task: nat)
    requires task in s.tasks && AllLeaveAlone(actions, task)
    ensures task in Run(quotas, s, actions).tasks && Run(quotas, s, actions).tasks[task] == s.tasks[task]
    decreases |actions|
  {
    hide Next, LeavesAlone;
    if actions != [] {
      var n := |actions| - 1;
      OthersKeepTask(quotas, s, actions[..n], task);
      assert LeavesAlone(actions[n], task);
      OtherKeepsTask(quotas, Run(quotas, s, actions[..n]), actions[n], task);
    }
  }

  lemma OtherKeepsTask(quotas: Quotas, s: State, a: Action, task: nat)
    requires task in s.tasks && LeavesAlone(a, task)
    ensures task in Next(quotas, s, a).tasks && Next(quotas, s, a).tasks[task] == s.tasks[task]
  {
    hide ReserveTx, UsageWrites, JobTx, ReplyTo, TableAfter, Commits, PhaseAfter;
  }

  lemma StepAfter(quotas: Quotas, origin: State, s: State, a: Action)
    requires Leads(quotas, origin, s)
    ensures Leads(quotas, origin, Next(quotas, s, a))
  {
    StepLeads(quotas, s, a);
    LeadsCompose(quotas, origin, s, Next(quotas, s, a));
  }

  predicate TouchesMessage(a: Action, task: nat) {
    (a.Delete? || a.Enqueue?) && a.task == task
  }

  /** This task has deleted no message and queued none. */
  predicate TouchesNoMessage(actions: seq<Action>, task: nat) {
    forall i :: 0 <= i < |actions| ==> !TouchesMessage(actions[i], task)
  }

  ghost predicate LeadsQuietly(quotas: Quotas, s: State, s': State, task: nat) {
    exists actions :: s' == Run(quotas, s, actions) && TouchesNoMessage(actions, task)
  }

  lemma RunIsQuiet(quotas: Quotas, s: State, actions: seq<Action>, task: nat)
    requires TouchesNoMessage(actions, task)
    ensures LeadsQuietly(quotas, s, Run(quotas, s, actions), task)
  {
  }

  lemma QuietLeads(quotas: Quotas, s: State, s': State, task: nat)
    requires LeadsQuietly(quotas, s, s', task)
    ensures Leads(quotas, s, s')
  {
  }

  lemma QuietCompose(quotas: Quotas, s: State, middle: State, s': State, task: nat)
    requires LeadsQuietly(quotas, s, middle, task) && LeadsQuietly(quotas, middle, s', task)
    ensures LeadsQuietly(quotas, s, s', task)
  {
    var a :| middle == Run(quotas, s, a) && TouchesNoMessage(a, task);
    var b :| s' == Run(quotas, middle, b) && TouchesNoMessage(b, task);
    RunsCompose(quotas, s, a, b);
  }

  lemma OthersLeadQuietly(quotas: Quotas, origin: State, s: State, actions: seq<Action>, task: nat)
    requires LeadsQuietly(quotas, origin, s, task) && AllLeaveAlone(actions, task)
    ensures LeadsQuietly(quotas, origin, Run(quotas, s, actions), task)
  {
    forall i | 0 <= i < |actions| ensures !TouchesMessage(actions[i], task) {
      assert LeavesAlone(actions[i], task);
    }
    RunIsQuiet(quotas, s, actions, task);
    QuietCompose(quotas, origin, s, Run(quotas, s, actions), task);
  }

  lemma StepAfterQuietly(quotas: Quotas, origin: State, s: State, a: Action, task: nat)
    requires LeadsQuietly(quotas, origin, s, task) && !TouchesMessage(a, task)
    ensures LeadsQuietly(quotas, origin, Next(quotas, s, a), task)
  {
    hide Next, LeadsQuietly;
    var one := [a];
    assert one[..0] == [] && one[0] == a;
    assert Run(quotas, s, one) == Next(quotas, s, a);
    RunIsQuiet(quotas, s, one, task);
    QuietCompose(quotas, origin, s, Next(quotas, s, a), task);
  }

  lemma StartQuietly(quotas: Quotas, s: State, task: nat)
    ensures LeadsQuietly(quotas, s, s, task)
  {
    RunIsQuiet(quotas, s, [], task);
  }

  /** A job reported as done is in the table. */
  lemma DoneIsSettled(quotas: Quotas, s: State, s': State, task: nat)
    requires LeadsQuietly(quotas, s, s', task) && task in s'.tasks
    ensures Inv(s) ==> Inv(s') && (s'.tasks[task].phase.Succeeded? ==> Settled(s'.table, s'.tasks[task].job))
  {
    hide Inv, Settled;
    if Inv(s) {
      QuietLeads(quotas, s, s', task);
      LeadsKeepsInv(quotas, s, s');
      SucceededIsSettled(s', task);
    }
  }

  lemma SubmitMovesTask(quotas: Quotas, s: State, task: nat, outcome: Outcome)
    requires task in s.tasks && s.tasks[task].phase.Submitting?
    ensures
      var Task(job, owner, phase) := s.tasks[task];
      var s' := Next(quotas, s, Submit(task, outcome));
      && task in s'.tasks
      && s'.tasks[task] ==
         Task(job, owner, if IsVacuous(job) then Succeeded
              else PhaseAfter(job, phase.attempt, ReplyTo(s.table, JobTx(job), outcome)))
  {
  }

  lemma CheckMovesTask(quotas: Quotas, s: State, task: nat, readable: bool)
    requires HasPhase(s, task, Checking)
    ensures
      var s' := Next(quotas, s, Check(task, readable));
      && task in s'.tasks
      && s'.tasks[task] ==
        s.tasks[task].(phase := if readable && ReadsAsSettled(s.table, s.tasks[task].job) then Succeeded else Failed)
  {
  }

  lemma UntrackedStep(quotas: Quotas, s: State, user: string, now: u64, budget: u64, completionToken: string)
    requires budget > 0 && quotas(user) == NO_LIMITS
    requires Key(user, MarkerWindow(completionToken)) !in s.issued &&
             Key(user, MarkerWindow(completionToken)) !in s.held
    ensures
      var r := Untracked(user, completionToken, budget, now);
      Leads(quotas, s, s.(held := s.held[SettlementKey(r) := r]))
  {
    StepLeads(quotas, s, ReserveUntracked(user, now, budget, completionToken));
  }

  lemma EmptyRun(quotas: Quotas, s: State)
    ensures Run(quotas, s, []) == s && Leads(quotas, s, s)
  {
    StartLeads(quotas, s);
  }

  /** What a committed reservation does to the table: both windows gain the budget in their effective
      and reserved counts, the reservation's row appears, and no other row changes. */
  ghost predicate Booked(before: Table, after: Table, user: string, now: u64, budget: u64, id: string) {
    var key := Key(user, ReservationWindow(id));
    && (forall window :: window in {DailyWindow(now), WeeklyWindow(now)} ==>
          && Count(after, user, window, Tokens) == Count(before, user, window, Tokens) + budget
          && Count(after, user, window, ReservedTokens) == Count(before, user, window, ReservedTokens) + budget
          && Count(after, user, window, ConsumedTokens) == Count(before, user, window, ConsumedTokens))
    && key !in before && RowOf(after, key) == ReservationRow(budget, now)
    && (forall k :: k !in {Key(user, DailyWindow(now)), Key(user, WeeklyWindow(now)), key} ==>
        RowOf(after, k) == RowOf(before, k))
  }

  /** What an unanswered or refused submission leaves: nothing, or, exactly when it was committed and
      the reply was lost, a booked reservation that no request was given. */
  ghost predicate LeavesUnheld(before: State, after: State, quota: Quota, user: string, now: u64, budget: u64,
                               id: string, outcome: Outcome) {
    var key := Key(user, ReservationWindow(id));
    if outcome.LostAfter? && AllHold(before.table, ReserveTx(user, quota, now, budget, id))
    then
      && after == before.(table := after.table) && Booked(before.table, after.table, user, now, budget, id)
      && (Inv(before) ==> key !in after.held && key !in after.issued)
    else after == before
  }

  lemma UnansweredReservation(s: State, quota: Quota, user: string, now: u64, budget: u64, id: string, outcome: Outcome)
    requires !ReplyTo(s.table, ReserveTx(user, quota, now, budget, id), outcome).Committed?
    ensures LeavesUnheld(s, s.(table := TableAfter(s.table, ReserveTx(user, quota, now, budget, id), outcome)), quota,
                         user, now, budget, id, outcome)
  {
    hide Inv, ReserveTx, Booked;
    if outcome.LostAfter? && AllHold(s.table, ReserveTx(user, quota, now, budget, id)) {
      ReserveTxBooks(s.table, user, quota, now, budget, id);
      if Inv(s) {
        BookedIsNew(s.table, AllWritten(s.table, ReserveTx(user, quota, now, budget, id)), user, now, budget, id);
        FreshReservationKey(s, user, id);
      }
    }
  }

  lemma BookedIsNew(before: Table, after: Table, user: string, now: u64, budget: u64, id: string)
    requires Booked(before, after, user, now, budget, id)
    ensures Key(user, ReservationWindow(id)) !in before
  {
  }

  lemma ReserveTxBooks(t: Table, user: string, quota: Quota, now: u64, budget: u64, id: string)
    requires AllHold(t, ReserveTx(user, quota, now, budget, id))
    ensures Booked(t, AllWritten(t, ReserveTx(user, quota, now, budget, id)), user, now, budget, id)
  {
    hide ReserveTx, AllHold, AllWritten, Booked, Posted;
    ReserveTxPosts(t, user, quota, now, budget, id);
    PostedIsBooked(t, user, now, budget, id);
  }

  lemma PostedIsBooked(t: Table, user: string, now: u64, budget: u64, id: string)
    requires Key(user, ReservationWindow(id)) !in t
    ensures Booked(t, Posted(t, user, DailyWindow(now), WeeklyWindow(now), Add(Some(budget), Some(budget), None))
                      [Key(user, ReservationWindow(id)) := ReservationRow(budget, now)], user, now, budget, id)
  {
    KeyFamiliesAreDisjoint(now, now, id, "");
    hide DailyWindow, WeeklyWindow, ReservationWindow, IsUsageWindow, IsReservationWindow, IsMarkerWindow;
  }

  /** A submission of `reserve`, as a step of the protocol. */
  lemma ReserveStep(quotas: Quotas, s: State, user: string, now: u64, budget: u64, id: string, completionToken: string,
                    outcome: Outcome)
    requires budget > 0 && quotas(user) != NO_LIMITS && !Refused(quotas(user), budget)
    ensures
      var tx, r := ReserveTx(user, quotas(user), now, budget, id), Tracked(user, id, completionToken, budget, now);
      var s' := Next(quotas, s, Reserve(user, now, budget, id, completionToken, outcome));
      && (ReplyTo(s.table, tx, outcome).Committed? ==>
            && s' == s.(table := TableAfter(s.table, tx, outcome), held := s.held[SettlementKey(r) := r])
            && Booked(s.table, s'.table, user, now, budget, id))
      && (!ReplyTo(s.table, tx, outcome).Committed? ==> s' == s.(table := TableAfter(s.table, tx, outcome)))
      && (ReplyTo(s.table, tx, outcome).Canceled? ==> TableAfter(s.table, tx, outcome) == s.table)
  {
    hide Booked;
    if AllHold(s.table, ReserveTx(user, quotas(user), now, budget, id)) {
      ReserveTxBooks(s.table, user, quotas(user), now, budget, id);
    }
  }

  // What a reply obliges the caller to

  /** The store refuses the submission for a reason that passes. */
  predicate AsksToRetry(outcome: Outcome) {
    && outcome.Refuse?
    && (Some(TransactionConflict) in outcome.codes || Some(ProvisionedThroughputExceeded) in outcome.codes ||
        Some(ThrottlingError) in outcome.codes)
  }

  predicate Blames(outcome: Outcome, i: nat) {
    outcome.Refuse? && i < |outcome.codes| && outcome.codes[i] == Some(ConditionalCheckFailed)
  }

  /** The answer tells of a full window: an evaluation that meets one, or a refusal that names one. */
  predicate TellsOfLimit(t: Table, user: string, quota: Quota, now: u64, budget: u64, outcome: Outcome) {
    || (outcome.Evaluate? && !HasRoom(t, user, quota, now, budget))
    || (Blames(outcome, 0) && WouldExceed(t, user, DailyWindow(now), quota.daily, budget))
    || (Blames(outcome, 1) && WouldExceed(t, user, WeeklyWindow(now), quota.weekly, budget))
  }

  /** Each of the first `n` submissions was refused for a reason that passes, and told of no full window. */
  predicate AllRetried(quotas: Quotas, s: State, user: string, now: u64, budget: u64, fates: seq<Fate>, n: nat)
    requires n <= |fates|
  {
    forall i :: 0 <= i < n ==> WasRetried(quotas, s, user, now, budget, fates, i)
  }

  predicate WasRetried(quotas: Quotas, s: State, user: string, now: u64, budget: u64, fates: seq<Fate>, i: nat)
    requires i < |fates|
  {
    && AsksToRetry(fates[i].outcome)
    && !TellsOfLimit(Run(quotas, s, Interference(fates, i + 1)).table, user, quotas(user), now, budget,
                     fates[i].outcome)
  }

  lemma OneMoreRetried(quotas: Quotas, s: State, user: string, now: u64, budget: u64, fates: seq<Fate>, n: nat)
    requires 0 < n <= |fates| && AllRetried(quotas, s, user, now, budget, fates, n - 1)
    requires AsksToRetry(fates[n - 1].outcome)
    requires !TellsOfLimit(Run(quotas, s, Interference(fates, n)).table, user, quotas(user), now, budget,
                           fates[n - 1].outcome)
    ensures AllRetried(quotas, s, user, now, budget, fates, n)
  {
  }

  /** The reply to a reservation and its classification, told by the windows and the outcome alone. */
  lemma ReservationReplies(t: Table, user: string, quota: Quota, now: u64, budget: u64, id: string, outcome: Outcome)
    requires !Refused(quota, budget)
    ensures
      var reply := ReplyTo(t, ReserveTx(user, quota, now, budget, id), outcome);
      var limited := TellsOfLimit(t, user, quota, now, budget, outcome);
      && (reply.Committed? <==>
          outcome.Evaluate? && HasRoom(t, user, quota, now, budget) && Key(user, ReservationWindow(id)) !in t)
      && (reply.Canceled? <==> !outcome.LostBefore? && !outcome.LostAfter? && !reply.Committed?)
      && (limited || AsksToRetry(outcome) ==> reply.Canceled?)
      && (reply.Canceled? ==>
          && (ClassifyReservation(reply.reasons) == LimitExceeded <==> limited)
          && (ClassifyReservation(reply.reasons) == RetryReservation <==> AsksToRetry(outcome) && !limited))
  {
    var tx := ReserveTx(user, quota, now, budget, id);
    ReserveTxPosts(t, user, quota, now, budget, id);
    RoomIsCondition(t, user, quota, now, budget, id);
    hide ReserveTx, Holds, AllHold, WouldExceed;
    if ReplyTo(t, tx, outcome).Canceled? {
      var reasons := ReplyTo(t, tx, outcome).reasons;
      assert |reasons| > 0 && reasons[0] == Some(ConditionalCheckFailed) <==>
        !Holds(t, tx[0]) && (outcome.Evaluate? || Blames(outcome, 0));
      assert |reasons| > 1 && reasons[1] == Some(ConditionalCheckFailed) <==>
        !Holds(t, tx[1]) && (outcome.Evaluate? || Blames(outcome, 1));
      HonestyKeepsRetries(t, tx, outcome);
    }
  }

  lemma RoomIsCondition(t: Table, user: string, quota: Quota, now: u64, budget: u64, id: string)
    requires !Refused(quota, budget)
    ensures
      var tx := ReserveTx(user, quota, now, budget, id);
      && |tx| == 3
      && (Holds(t, tx[0]) <==> !WouldExceed(t, user, DailyWindow(now), quota.daily, budget))
      && (Holds(t, tx[1]) <==> !WouldExceed(t, user, WeeklyWindow(now), quota.weekly, budget))
  {
  }

  lemma HonestyKeepsRetries(t: Table, tx: seq<Write>, outcome: Outcome)
    requires ReplyTo(t, tx, outcome).Canceled?
    ensures IsRetryable(ReplyTo(t, tx, outcome).reasons) <==> AsksToRetry(outcome)
  {
    var reasons := ReplyTo(t, tx, outcome).reasons;
    if outcome.Refuse? {
      assert |reasons| == |outcome.codes|;
      forall i | 0 <= i < |reasons|
        ensures reasons[i] == outcome.codes[i] ||
                (outcome.codes[i] == Some(ConditionalCheckFailed) && reasons[i] == None)
      {
      }
    }
  }

  /** A reply to a job's submission that obliges another attempt: it does not blame the row that
      holds the outcome, and names a reason that passes. */
  predicate ObligesRetry(outcome: Outcome) {
    AsksToRetry(outcome) && !Blames(outcome, 2)
  }

  /** The submission is answered and what follows it can be read: the job's own transaction is
      evaluated, or it is refused for an outcome that is there. */
  predicate SettlesFor(t: Table, job: Job, fate: Fate) {
    fate.readable && (fate.outcome.Evaluate? || (Settled(t, job) && Blames(fate.outcome, 2)))
  }

  /** Some attempt is evaluated and can be read, and every attempt before it must be repeated.
      A usage job has one attempt. */
  predicate WillSettle(job: Job, fates: seq<Fate>) {
    exists k :: 0 <= k < |fates| && SettlesAt(job, fates, k)
  }

  predicate SettlesAt(job: Job, fates: seq<Fate>, k: nat)
    requires k < |fates|
  {
    && fates[k].outcome.Evaluate? && fates[k].readable
    && (job.UsageJob? ==> k == 0)
    && forall i :: 0 <= i < k ==> ObligesRetry(fates[i].outcome)
  }

  lemma ReconciliationReplies(t: Table, job: Job, attempt: nat, outcome: Outcome)
    requires job.ReservationJob?
    ensures
      var phase := PhaseAfter(job, attempt, ReplyTo(t, JobTx(job), outcome));
      && (ObligesRetry(outcome) ==>
          phase == if attempt + 1 < TRANSACTION_ATTEMPTS then Submitting(attempt + 1) else Failed)
      && (phase.Submitting? ==> AsksToRetry(outcome))
      && (phase in {Succeeded, Checking} ==> outcome.Evaluate? || Blames(outcome, 2))
  {
    var tx := JobTx(job);
    hide JobTx, Holds, AllHold;
    if ReplyTo(t, tx, outcome).Canceled? {
      HonestyKeepsRetries(t, tx, outcome);
    }
  }

  lemma SettledJobIsChecked(t: Table, job: Job, attempt: nat, outcome: Outcome)
    requires Settled(t, job) && !IsVacuous(job) && (outcome.Evaluate? || Blames(outcome, 2))
    ensures PhaseAfter(job, attempt, ReplyTo(t, JobTx(job), outcome)) == Checking
  {
    var tx := JobTx(job);
    assert |tx| == 3 && !Holds(t, tx[2]);
    hide JobTx, Holds, Settled;
    var reply := ReplyTo(t, tx, outcome);
    assert reply.Canceled? && |reply.reasons| > 2 && reply.reasons[2] == Some(ConditionalCheckFailed);
  }

  /** What is settled stays settled, and reads so. */
  lemma SettledStaysReadable(quotas: Quotas, s: State, actions: seq<Action>, job: Job)
    requires Inv(s) && Settled(s.table, job) && !IsVacuous(job)
    ensures ReadsAsSettled(Run(quotas, s, actions).table, job)
  {
    ShapeOf(s);
    if job.ReservationJob? {
      CompletedKeyFamily(s.table, JobKey(job));
    } else {
      MarkerFamily(job.jobId);
    }
    hide Inv, Run;
    OutcomesStayFinal(quotas, s, actions, JobKey(job));
  }

  /** A loop that retries what it must, and succeeds when it can, settles whenever some attempt does. */
  lemma LoopSettles(job: Job, fates: seq<Fate>, retries: nat, ok: bool)
    requires ValidFates(fates) && retries < TRANSACTION_ATTEMPTS
    requires forall i :: 0 <= i < retries ==> AsksToRetry(fates[i].outcome)
    requires !ok && retries + 1 < TRANSACTION_ATTEMPTS ==> !ObligesRetry(fates[retries].outcome)
    ensures WillSettle(job, fates) && !ok ==> fates[retries].outcome.Evaluate? && fates[retries].readable
  {
    if WillSettle(job, fates) && !ok {
      var k :| 0 <= k < |fates| && SettlesAt(job, fates, k);
      assert k >= retries;
      assert k <= retries;
    }
  }

  lemma StartLeads(quotas: Quotas, s: State)
    ensures Leads(quotas, s, s)
  {
    assert Run(quotas, s, []) == s;
  }

  datatype ReservationError = InvalidBudget | LimitExceededError | WriteFailed

  class TokenReservationManager {
    const quotas: Quotas
    var state: State

    constructor (quotas: Quotas)
      ensures this.quotas == quotas && state == INITIAL
    {
      this.quotas := quotas;
      state := INITIAL;
    }

    /** One submission of `reserve`'s transaction, after what others do before it. */
    method AttemptReservation(user: string, now: u64, budget: u64, id: string, completionToken: string, fate: Fate)
      returns (reply: Reply)
      requires budget > 0 && quotas(user) != NO_LIMITS && !Refused(quotas(user), budget)
      modifies this`state
      ensures Leads(quotas, old(state), state)
      ensures reply == ReplyTo(Run(quotas, old(state), fate.before).table,
                               ReserveTx(user, quotas(user), now, budget, id), fate.outcome)
      ensures reply.Committed? ==>
                var r := Tracked(user, id, completionToken, budget, now);
                && SettlementKey(r) in state.held && state.held[SettlementKey(r)] == r
                && Booked(Run(quotas, old(state), fate.before).table, state.table, user, now, budget, id)
      ensures reply.Canceled? ==> state == Run(quotas, old(state), fate.before)
      ensures !reply.Committed? ==>
                LeavesUnheld(Run(quotas, old(state), fate.before), state, quotas(user), user, now, budget, id,
                             fate.outcome)
    {
      hide Next, ReplyTo, TableAfter, Run, Refused, Booked, LeavesUnheld, ReserveTx;
      state := Run(quotas, state, fate.before);
      assert Leads(quotas, old(state), state);
      StepAfter(quotas, old(state), state, Action.Reserve(user, now, budget, id, completionToken, fate.outcome));
      ReserveStep(quotas, state, user, now, budget, id, completionToken, fate.outcome);
      var tx := ReserveTx(user, quotas(user), now, budget, id);
      reply := ReplyTo(state.table, tx, fate.outcome);
      if !reply.Committed? {
        UnansweredReservation(state, quotas(user), user, now, budget, id, fate.outcome);
      }
      state := state.(table := TableAfter(state.table, tx, fate.outcome));
      if reply.Committed? {
        var tracked := Tracked(user, id, completionToken, budget, now);
        state := state.(held := state.held[SettlementKey(tracked) := tracked]);
      }
    }

    /** `reserve`. A tracked reservation is returned only when its three rows were written by one
        committed transaction, on the table as the others had left it; when the limit is exceeded,
        what changed was changed by others. */
    method Reserve(user: string, now: u64, budget: u64, id: string, completionToken: string, fates: seq<Fate>)
      returns (r: Result<TokenReservation, ReservationError>, attempts: nat, slept: nat)
      requires ValidFates(fates)
      // A new random identifier has not been used before.
      requires Key(user, MarkerWindow(completionToken)) !in state.issued &&
               Key(user, MarkerWindow(completionToken)) !in state.held
      modifies this`state
      ensures attempts <= TRANSACTION_ATTEMPTS
      ensures Leads(quotas, old(state), state)
      ensures r == Err(InvalidBudget) <==> budget == 0
      ensures r.Ok? ==>
              SettlementKey(r.value) in state.held && state.held[SettlementKey(r.value)] == r.value &&
                r.value.budget == budget
      ensures r.Ok? ==> (r.value.reservationWindow.None? <==> quotas(user) == NO_LIMITS)
      ensures r.Ok? && r.value.reservationWindow.Some? ==>
                r.value == Tracked(user, id, completionToken, budget, now)
                && Booked(Run(quotas, old(state), Interference(fates, attempts)).table, state.table, user, now,
                          budget, id)
      ensures r.Ok? && r.value.reservationWindow.None? ==>
              state == old(state).(held := old(state).held[SettlementKey(r.value) := r.value])
      ensures budget > 0 && Refused(quotas(user), budget) ==> r == Err(LimitExceededError) && attempts == 0
      ensures r == Err(WriteFailed) ==>
                attempts > 0 && LeavesUnheld(Run(quotas, old(state), Interference(fates, attempts)), state,
                                             quotas(user), user, now, budget, id, fates[attempts - 1].outcome)
      ensures r == Err(LimitExceededError) ==> state == Run(quotas, old(state), Interference(fates, attempts))
      // The last answer decides what is returned: on the table it was given for, a committed
      // reservation, an exceeded limit, or a failed write.
      ensures attempts > 0 ==>
                var t := Run(quotas, old(state), Interference(fates, attempts)).table;
                && (r.Ok? <==>
                    && fates[attempts - 1].outcome.Evaluate? && HasRoom(t, user, quotas(user), now, budget)
                    && Key(user, ReservationWindow(id)) !in t)
                && (r == Err(LimitExceededError) <==>
                    TellsOfLimit(t, user, quotas(user), now, budget, fates[attempts - 1].outcome))
      // Exactly the refusals that pass, and tell of no full window, are retried, while attempts remain.
      ensures attempts > 0 ==> AllRetried(quotas, old(state), user, now, budget, fates, attempts - 1)
      ensures r == Err(WriteFailed) && attempts < TRANSACTION_ATTEMPTS ==> !AsksToRetry(fates[attempts - 1].outcome)
      ensures attempts > 0 ==> 25 * (PowerOfTwo(attempts - 1) - 1) <= slept <= 50 * (PowerOfTwo(attempts - 1) - 1)
    {
      hide Leads, Next, Run, Booked, LeavesUnheld, ReservationRow, ClassifyReservation;
      hide ReplyTo, ReserveTx, TellsOfLimit, HasRoom, AsksToRetry, WasRetried;
      attempts, slept := 0, 0;
      EmptyRun(quotas, state);
      if budget == 0 {
        return Err(InvalidBudget), 0, 0;
      }
      var quota := quotas(user);
      if quota == NO_LIMITS {
        var untracked := Untracked(user, completionToken, budget, now);
        UntrackedStep(quotas, state, user, now, budget, completionToken);
        state := state.(held := state.held[SettlementKey(untracked) := untracked]);
        return Ok(untracked), 0, 0;
      }
      if Exceeds(quota.daily, budget) {
        return Err(LimitExceededError), 0, 0;
      }
      if Exceeds(quota.weekly, budget) {
        return Err(LimitExceededError), 0, 0;
      }
      while true
        invariant attempts < TRANSACTION_ATTEMPTS
        invariant Leads(quotas, old(state), state) && state == Run(quotas, old(state), Interference(fates, attempts))
        invariant 25 * (PowerOfTwo(attempts) - 1) <= slept <= 50 * (PowerOfTwo(attempts) - 1)
        invariant AllRetried(quotas, old(state), user, now, budget, fates, attempts)
        decreases TRANSACTION_ATTEMPTS - attempts
      {
        label attempting:
        RunsCompose(quotas, old(state), Interference(fates, attempts), fates[attempts].before);
        var reply := AttemptReservation(user, now, budget, id, completionToken, fates[attempts]);
        LeadsCompose(quotas, old(state), old@attempting(state), state);
        attempts := attempts + 1;
        ReservationReplies(Run(quotas, old(state), Interference(fates, attempts)).table, user, quota, now, budget, id,
                           fates[attempts - 1].outcome);
        match reply
        case Committed => return Ok(Tracked(user, id, completionToken, budget, now)), attempts, slept;
        case NoAnswer => return Err(WriteFailed), attempts, slept;
        case Canceled(reasons) =>
          match ClassifyReservation(reasons)
          case LimitExceeded => return Err(LimitExceededError), attempts, slept;
          case RetryReservation =>
            if attempts == TRANSACTION_ATTEMPTS {
              return Err(WriteFailed), attempts, slept;
            }
            OneMoreRetried(quotas, old(state), user, now, budget, fates, attempts);
            slept := slept + BaseDelay(attempts - 1) + fates[attempts - 1].jitter;
          case ReservationWriteFailed => return Err(WriteFailed), attempts, slept;
      }
    }

    /** One turn of the loop in `reconcile_reservation`: submit, and if the reservation row refused,
        read whether it is completed. */
    method AttemptReconciliation(task: nat, attempt: nat, fate: Fate) returns (phase: Phase)
      requires FateLeavesAlone(fate, task) && attempt < TRANSACTION_ATTEMPTS
      requires HasPhase(state, task, Submitting(attempt)) && state.tasks[task].job.ReservationJob?
      modifies this`state
      ensures LeadsQuietly(quotas, old(state), state, task)
      ensures task in state.tasks && state.tasks[task] == old(state.tasks[task]).(phase := phase)
      ensures old(Inv(state)) ==> Inv(state) && (phase.Succeeded? ==> Settled(state.table, state.tasks[task].job))
      ensures phase in {Succeeded, Failed} || (phase == Submitting(attempt + 1) && attempt + 1 < TRANSACTION_ATTEMPTS)
      ensures phase.Submitting? ==> AsksToRetry(fate.outcome)
      ensures phase.Succeeded? ==> fate.outcome.Evaluate? || Blames(fate.outcome, 2)
      ensures ObligesRetry(fate.outcome) ==>
                phase == if attempt + 1 < TRANSACTION_ATTEMPTS then Submitting(attempt + 1) else Failed
      ensures old(Inv(state)) &&
                SettlesFor(Run(quotas, old(state), fate.before).table, old(state.tasks[task]).job, fate) ==>
                phase.Succeeded?
    {
      hide Next, ReplyTo, TableAfter, Run, Inv, Settled, LeadsQuietly;
      var job := state.tasks[task].job;
      var tx := ReconcileTx(job);
      StartQuietly(quotas, state, task);
      OthersKeepTask(quotas, state, fate.before, task);
      OthersLeadQuietly(quotas, old(state), state, fate.before, task);
      state := Run(quotas, state, fate.before);

      var reply := ReplyTo(state.table, tx, fate.outcome);
      SubmitMovesTask(quotas, state, task, fate.outcome);
      StepAfterQuietly(quotas, old(state), state, Submit(task, fate.outcome), task);
      ReconciliationReplies(state.table, job, attempt, fate.outcome);
      SubmittedReadsAsSettled(quotas, old(state), fate, task);
      state := Next(quotas, state, Submit(task, fate.outcome));
      if reply.Committed? {
        DoneIsSettled(quotas, old(state), state, task);
        return Succeeded;
      }
      match ClassifyReconciliation(reply) {
      case VerifyCompleted =>
        OthersKeepTask(quotas, state, fate.beforeRead, task);
        OthersLeadQuietly(quotas, old(state), state, fate.beforeRead, task);
        state := Run(quotas, state, fate.beforeRead);
        var completed := fate.readable && ReadsAsSettled(state.table, job);
        CheckMovesTask(quotas, state, task, fate.readable);
        StepAfterQuietly(quotas, old(state), state, Check(task, fate.readable), task);
        state := Next(quotas, state, Check(task, fate.readable));
        phase := if completed then Succeeded else Failed;
      case RetryReconciliation =>
        phase := if attempt + 1 < TRANSACTION_ATTEMPTS then Submitting(attempt + 1) else Failed;
      case ReconciliationWriteFailed => phase := Failed;
      }
      DoneIsSettled(quotas, old(state), state, task);
    }

    /** `reconcile_reservation`, on behalf of the task that carries the job. The loop always
        returns: after the last attempt there is no retry. */
    method ReconcileReservation(task: nat, fates: seq<Fate>) returns (ok: bool, retries: nat, slept: nat)
      requires ValidFates(fates) && FatesLeaveAlone(fates, task)
      requires HasPhase(state, task, Submitting(0)) && state.tasks[task].job.ReservationJob?
      modifies this`state
      ensures LeadsQuietly(quotas, old(state), state, task)
      ensures task in state.tasks &&
              state.tasks[task] == old(state.tasks[task]).(phase := if ok then Succeeded else Failed)
      ensures old(Inv(state)) ==> Inv(state) && (ok ==> Settled(state.table, state.tasks[task].job))
      // Only refusals that pass are retried, and all that oblige a retry are, while attempts remain.
      ensures retries < TRANSACTION_ATTEMPTS && forall i :: 0 <= i < retries ==> AsksToRetry(fates[i].outcome)
      ensures !ok && retries + 1 < TRANSACTION_ATTEMPTS ==> !ObligesRetry(fates[retries].outcome)
      ensures ok ==> fates[retries].outcome.Evaluate? || Blames(fates[retries].outcome, 2)
      ensures old(Inv(state)) && WillSettle(old(state.tasks[task]).job, fates) ==> ok
      ensures 25 * (PowerOfTwo(retries) - 1) <= slept <= 50 * (PowerOfTwo(retries) - 1)
    {
      hide LeadsQuietly, Next, Run, Inv, Settled, AsksToRetry, WillSettle;
      retries, slept := 0, 0;
      StartQuietly(quotas, state, task);
      for attempt := 0 to TRANSACTION_ATTEMPTS
        invariant LeadsQuietly(quotas, old(state), state, task)
        invariant retries == attempt < TRANSACTION_ATTEMPTS
        invariant task in state.tasks && state.tasks[task] == old(state.tasks[task]).(phase := Submitting(attempt))
        invariant old(Inv(state)) ==> Inv(state)
        invariant forall i :: 0 <= i < attempt ==> AsksToRetry(fates[i].outcome)
        invariant 25 * (PowerOfTwo(attempt) - 1) <= slept <= 50 * (PowerOfTwo(attempt) - 1)
      {
        label attempting:
        var phase := AttemptReconciliation(task, attempt, fates[attempt]);
        QuietCompose(quotas, old(state), old@attempting(state), state, task);
        if !phase.Submitting? {
          DoneIsSettled(quotas, old(state), state, task);
          ok := phase == Succeeded;
          LoopSettles(old(state.tasks[task]).job, fates, retries, ok);
          return;
        }
        slept := slept + BaseDelay(attempt) + fates[attempt].jitter;
        retries := retries + 1;
      }
      assert false;
    }

    /** `record_reconciliation`: one submission, and a look at the marker if it was cancelled. */
    method RecordReconciliation(task: nat, fate: Fate) returns (ok: bool)
      requires FateLeavesAlone(fate, task)
      requires HasPhase(state, task, Submitting(0)) && state.tasks[task].job.UsageJob?
      modifies this`state
      ensures LeadsQuietly(quotas, old(state), state, task)
      ensures task in state.tasks &&
              state.tasks[task] == old(state.tasks[task]).(phase := if ok then Succeeded else Failed)
      ensures old(Inv(state)) ==> Inv(state) && (ok ==> Settled(state.table, state.tasks[task].job))
      ensures IsVacuous(old(state.tasks[task]).job) ==> ok
      ensures old(Inv(state)) && WillSettle(old(state.tasks[task]).job, [fate]) ==> ok
      ensures ok && (fate.outcome.LostBefore? || fate.outcome.LostAfter?) ==> IsVacuous(old(state.tasks[task]).job)
    {
      var job := state.tasks[task].job;
      hide Next, TableAfter, Run, Inv, Settled, LeadsQuietly;
      StartQuietly(quotas, state, task);
      OthersKeepTask(quotas, state, fate.before, task);
      OthersLeadQuietly(quotas, old(state), state, fate.before, task);
      state := Run(quotas, state, fate.before);
      var reply := ReplyTo(state.table, UsageTx(job), fate.outcome);
      SubmitMovesTask(quotas, state, task, fate.outcome);
      StepAfterQuietly(quotas, old(state), state, Submit(task, fate.outcome), task);
      SubmittedReadsAsSettled(quotas, old(state), fate, task);
      state := Next(quotas, state, Submit(task, fate.outcome));
      if job.tokens == 0 {
        DoneIsSettled(quotas, old(state), state, task);
        return true;
      }
      match reply {
      case Committed => ok := true;
      case NoAnswer => ok := false;
      case Canceled(_) =>
        OthersKeepTask(quotas, state, fate.beforeRead, task);
        OthersLeadQuietly(quotas, old(state), state, fate.beforeRead, task);
        state := Run(quotas, state, fate.beforeRead);
        ok := fate.readable && JobKey(job) in state.table;
        CheckMovesTask(quotas, state, task, fate.readable);
        StepAfterQuietly(quotas, old(state), state, Check(task, fate.readable), task);
        state := Next(quotas, state, Check(task, fate.readable));
      }
      DoneIsSettled(quotas, old(state), state, task);
    }

    /** `process_reconciliation`. */
    method ProcessReconciliation(task: nat, fates: seq<Fate>) returns (ok: bool)
      requires ValidFates(fates) && FatesLeaveAlone(fates, task)
      requires HasPhase(state, task, Submitting(0))
      modifies this`state
      ensures LeadsQuietly(quotas, old(state), state, task)
      ensures task in state.tasks &&
              state.tasks[task] == old(state.tasks[task]).(phase := if ok then Succeeded else Failed)
      ensures old(Inv(state)) ==> Inv(state) && (ok ==> Settled(state.table, state.tasks[task].job))
      ensures old(Inv(state)) && WillSettle(old(state.tasks[task]).job, fates) ==> ok
    {
      hide Inv, Settled, LeadsQuietly;
      if state.tasks[task].job.ReservationJob? {
        var retries, slept;
        ok, retries, slept := ReconcileReservation(task, fates);
      } else {
        if WillSettle(state.tasks[task].job, fates) {
          assert SettlesAt(state.tasks[task].job, [fates[0]], 0);
        }
        ok := RecordReconciliation(task, fates[0]);
      }
    }

    /** `TokenReservation::reconcile` through `reconcile_durably`: settle now, or queue the job.
        When it returns Ok, the charge is in the table or in the queue. */
    method Reconcile(r: TokenReservation, actual: Option<u64>, task: nat, fates: seq<Fate>, mid: nat,
                     delivery: Delivery)
      returns (ok: bool)
      requires Inv(state) && SettlementKey(r) in state.held && state.held[SettlementKey(r)] == r && task !in state.tasks
      requires ValidFates(fates) && FatesLeaveAlone(fates, task)
      modifies this`state
      ensures Leads(quotas, old(state), state) && Inv(state)
      ensures JobFor(r, actual).None? ==> ok && state == old(state).(held := old(state).held - {SettlementKey(r)})
      ensures JobFor(r, actual).Some? && ok ==>
                JobFor(r, actual).value in state.acknowledged
                && (Settled(state.table, JobFor(r, actual).value) || InQueue(state.messages, JobFor(r, actual).value))
      // A settlement that an answered attempt obliges is reported without queueing anything.
      ensures JobFor(r, actual).Some? && WillSettle(JobFor(r, actual).value, fates) ==>
                ok && Settled(state.table, JobFor(r, actual).value) && LeadsQuietly(quotas, old(state), state, task)
      // Otherwise the job is queued: only a queue that failed, or did not answer, explains an error.
      ensures !ok && task in state.tasks ==> mid in state.messages
      ensures !ok && task !in state.tasks ==>
                || delivery.NotSent?
                || (delivery.SentUnconfirmed? && mid in state.messages &&
                    state.messages[mid] == Message(JobFor(r, actual).value, Queued))
      ensures !ok ==> !delivery.Sent? || mid in state.messages
      ensures ok && delivery.NotSent? && JobFor(r, actual).Some? ==> Settled(state.table, JobFor(r, actual).value)
    {
      hide Inv, Next, Run, Settled, LeadsQuietly, WillSettle;
      StartQuietly(quotas, state, task);
      var key := SettlementKey(r);
      ReconcileStep(quotas, state, key, actual, task);
      StepLeads(quotas, state, Action.Reconcile(key, actual, task));
      StepAfterQuietly(quotas, state, state, Action.Reconcile(key, actual, task), task);
      StepKeepsInv(quotas, state, Action.Reconcile(key, actual, task));
      state := Next(quotas, state, Action.Reconcile(key, actual, task));
      if JobFor(r, actual).None? {
        return true;
      }
      label issued:
      var settled := ProcessReconciliation(task, fates);
      QuietCompose(quotas, old(state), old@issued(state), state, task);
      QuietLeads(quotas, old(state), state, task);
      LeadsKeepsInv(quotas, old(state), state);
      var last := if settled then Acknowledge(task) else Enqueue(task, mid, delivery);
      ok := settled || (mid !in state.messages && delivery.Sent?);
      LastStep(quotas, state, task, mid, delivery);
      TaskIsKnown(state, task);
      SucceededIsSettled(state, task);
      if settled {
        StepAfterQuietly(quotas, old(state), state, last, task);
      }
      StepAfter(quotas, old(state), state, last);
      StepKeepsInv(quotas, state, last);
      state := Next(quotas, state, last);
      if ok {
        AcknowledgedSurvives(state, JobFor(r, actual).value);
      }
    }

    /** `process_message`: the message is deleted only after its job has succeeded, and then its
        effect is in the table; a call that fails leads on without deleting anything itself. */
    method ProcessMessage(mid: nat, task: nat, fates: seq<Fate>, deletes: bool) returns (ok: bool)
      requires Inv(state) && mid in state.messages && !state.messages[mid].place.Dead? && task !in state.tasks
      requires ValidFates(fates) && FatesLeaveAlone(fates, task)
      modifies this`state
      ensures Leads(quotas, old(state), state) && Inv(state) && task !in state.tasks
      ensures ok ==> Settled(state.table, old(state).messages[mid].job)
      ensures WillSettle(old(state).messages[mid].job, fates) ==> ok
      ensures ok && deletes ==> mid in state.messages && state.messages[mid].place == Deleted
      ensures !ok ==> LeadsQuietly(quotas, old(state), state, task)
    {
      hide Inv, Next, Run, Settled, LeadsQuietly, WillSettle;
      DeliverStep(quotas, state, mid, task);
      StartQuietly(quotas, state, task);
      StepAfterQuietly(quotas, state, state, Deliver(mid, task), task);
      StepKeepsInv(quotas, state, Deliver(mid, task));
      state := Next(quotas, state, Deliver(mid, task));
      label delivered:
      ok := ProcessReconciliation(task, fates);
      QuietCompose(quotas, old(state), old@delivered(state), state, task);
      QuietLeads(quotas, old(state), state, task);
      LeadsKeepsInv(quotas, old(state), state);
      TaskIsKnown(state, task);
      SucceededIsSettled(state, task);
      var last := if ok then Delete(task, deletes) else Abandon(task);
      LastWorkerStep(quotas, state, task, deletes);
      if !ok {
        StepAfterQuietly(quotas, old(state), state, last, task);
      }
      StepAfter(quotas, old(state), state, last);
      StepKeepsInv(quotas, state, last);
      state := Next(quotas, state, last);
    }
  }

  /** After an attempt that settles, the outcome is there to be read. */
  lemma SubmittedReadsAsSettled(quotas: Quotas, s: State, fate: Fate, task: nat)
    requires task in s.tasks && s.tasks[task].phase.Submitting? && FateLeavesAlone(fate, task)
    ensures
      var job, t := s.tasks[task].job, Run(quotas, s, fate.before).table;
      var submitted := Next(quotas, Run(quotas, s, fate.before), Submit(task, fate.outcome));
      Inv(s) && SettlesFor(t, job, fate) && !IsVacuous(job) ==>
        && ReadsAsSettled(Run(quotas, submitted, fate.beforeRead).table, job)
        && (HasPhase(submitted, task, Succeeded) || HasPhase(submitted, task, Checking))
  {
    hide Inv, Next, Run, Settled, ReplyTo, TableAfter, PhaseAfter, ReadsAsSettled;
    var job, at := s.tasks[task].job, Run(quotas, s, fate.before);
    var submitted := Next(quotas, at, Submit(task, fate.outcome));
    if Inv(s) && SettlesFor(at.table, job, fate) && !IsVacuous(job) {
      OthersKeepTask(quotas, s, fate.before, task);
      RunKeepsInv(quotas, s, fate.before);
      StepKeepsInv(quotas, at, Submit(task, fate.outcome));
      SubmitMovesTask(quotas, at, task, fate.outcome);
      if fate.outcome.Evaluate? {
        JobsCanAlwaysSettle(quotas, at, task);
      } else {
        SettledJobsAreInert(quotas, at, task, fate.outcome);
        SettledJobIsChecked(at.table, job, at.tasks[task].phase.attempt, fate.outcome);
      }
      SettledStaysReadable(quotas, submitted, fate.beforeRead, job);
    }
  }

  lemma ReconcileStep(quotas: Quotas, s: State, key: Key, actual: Option<u64>, task: nat)
    requires key in s.held && task !in s.tasks
    ensures
      var s' := Next(quotas, s, Reconcile(key, actual, task));
      match JobFor(s.held[key], actual)
      case None => s' == s.(held := s.held - {key})
      case Some(job) => task in s'.tasks && s'.tasks[task] == Task(job, Caller, Submitting(0))
  {
  }

  lemma LastStep(quotas: Quotas, s: State, task: nat, mid: nat, delivery: Delivery)
    requires task in s.tasks && s.tasks[task].owner.Caller?
    ensures HasPhase(s, task, Succeeded) ==>
              var s' := Next(quotas, s, Acknowledge(task));
              s.tasks[task].job in s'.acknowledged && s'.table == s.table
    ensures HasPhase(s, task, Failed) ==>
              var s' := Next(quotas, s, Enqueue(task, mid, delivery));
              if mid in s.messages then s' == s
              else
                && task !in s'.tasks
                && (delivery.Sent? ==> s.tasks[task].job in s'.acknowledged)
                && (!delivery.NotSent? ==> s'.messages == s.messages[mid := Message(s.tasks[task].job, Queued)])
  {
  }

  lemma DeliverStep(quotas: Quotas, s: State, mid: nat, task: nat)
    requires mid in s.messages && !s.messages[mid].place.Dead? && task !in s.tasks
    ensures
      var s' := Next(quotas, s, Deliver(mid, task));
      task in s'.tasks && s'.tasks[task] == Task(s.messages[mid].job, Worker(mid), Submitting(0))
  {
  }

  lemma LastWorkerStep(quotas: Quotas, s: State, task: nat, deletes: bool)
    requires task in s.tasks && s.tasks[task].owner.Worker? && s.tasks[task].owner.mid in s.messages
    ensures
      var mid, s' := s.tasks[task].owner.mid, Next(quotas, s, Delete(task, deletes));
      HasPhase(s, task, Succeeded) ==>
        task !in s'.tasks && s'.table == s.table &&
          (deletes ==> mid in s'.messages && s'.messages[mid].place == Deleted)
    ensures task !in Next(quotas, s, Abandon(task)).tasks
  {
  }

  lemma AcknowledgedSurvives(s: State, job: Job)
    requires Inv(s) && job in s.acknowledged
    ensures Settled(s.table, job) || InQueue(s.messages, job)
  {
  }

  lemma LeadsKeepsInv(quotas: Quotas, s: State, s': State)
    requires Inv(s) && Leads(quotas, s, s')
    ensures Inv(s')
  {
    var actions :| s' == Run(quotas, s, actions);
    RunKeepsInv(quotas, s, actions);
  }

  lemma SucceededIsSettled(s: State, task: nat)
    requires Inv(s) && task in s.tasks
    ensures s.tasks[task].phase.Succeeded? ==> Settled(s.table, s.tasks[task].job)
  {
  }
}
