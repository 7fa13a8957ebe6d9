/** Reserved rows and who can still settle them: which steps leave a reservation to nobody, and that
    it then stays reserved for good. */
module LedgerOrphans {
  import opened Prelude
  import opened UsageWindows
  import opened TokenTable
  import opened TokenLedger
  import opened LedgerInvariants
  import opened LedgerTheorems
  import LedgerQuota

  predicate IsReserved(t: Table, key: Key) {
    RowOf(t, key).status == Some(Reserved)
  }

  predicate TaskCarries(s: State, task: nat, key: Key) {
    task in s.tasks && JobKey(s.tasks[task].job) == key
  }

  predicate MessageCarries(s: State, mid: nat, key: Key) {
    mid in s.messages && JobKey(s.messages[mid].job) == key && !s.messages[mid].place.Deleted?
  }

  /** A request holds the reservation, or its job is in some task's hands, or it waits in a queue. */
  ghost predicate IsCarried(s: State, key: Key) {
    key in s.held || (exists task :: TaskCarries(s, task, key)) || exists mid :: MessageCarries(s, mid, key)
  }

  /** The step leaves a reservation to nobody: its commit is not answered, its request vanishes before
      or while it reconciles, or its job is neither done nor queued. */
  predicate LeavesBehind(s: State, a: Action, key: Key) {
    match a
    case Reserve(user, _, _, id, _, outcome) => outcome.LostAfter? && Key(user, ReservationWindow(id)) == key
    case Forget(k) => k == key && key in s.held
    case Abandon(task) => TaskCarries(s, task, key) && s.tasks[task].owner.Caller?
    case Enqueue(task, mid, delivery) =>
      && TaskCarries(s, task, key) && s.tasks[task] == Task(s.tasks[task].job, Caller, Failed)
      && delivery.NotSent? && mid !in s.messages
    case _ => false
  }

  lemma ReservedKeyFamily(t: Table, key: Key)
    requires WellShapedTable(t) && IsReserved(t, key)
    ensures IsReservationWindow(key.sort)
  {
    assert WellShaped(key, t[key]);
  }

  lemma ReserveOnlyReserves(s: State, quota: Quota, user: string, now: u64, budget: u64, id: string, outcome: Outcome,
                            key: Key)
    requires LedgerSound(s.table, s.usage, s.held, s.issued) && budget > 0 && IsReservationWindow(key.sort)
    requires key != Key(user, ReservationWindow(id))
    ensures RowOf(TableAfter(s.table, ReserveTx(user, quota, now, budget, id), outcome), key) == RowOf(s.table, key)
  {
    if Commits(s.table, ReserveTx(user, quota, now, budget, id), outcome) {
      ReserveBooks(s.table, s.usage, quota, user, now, budget, id);
      RowsUntouched(s.table, AllWritten(s.table, ReserveTx(user, quota, now, budget, id)),
                    Key(user, ReservationWindow(id)), key.user, key.sort);
    }
  }

  lemma RecordReservesNothing(s: State, quota: Quota, user: string, now: u64, tokens: u64, outcome: Outcome, key: Key)
    requires LedgerSound(s.table, s.usage, s.held, s.issued) && IsReservationWindow(key.sort)
    ensures RowOf(TableAfter(s.table, UsageWrites(user, quota, now, tokens), outcome), key) == RowOf(s.table, key)
  {
    KeyFamiliesAreDisjoint(now, now, "", "");
    if Commits(s.table, UsageWrites(user, quota, now, tokens), outcome) {
      UsageWritesPost(s.table, user, quota, now, tokens);
    }
  }

  lemma JobsReserveNothing(s: State, job: Job, outcome: Outcome, key: Key)
    requires LedgerSound(s.table, s.usage, s.held, s.issued) && JobLinked(s.table, job) && IsReservationWindow(key.sort)
    ensures IsReserved(TableAfter(s.table, JobTx(job), outcome), key) ==> IsReserved(s.table, key)
  {
    if Commits(s.table, JobTx(job), outcome) {
      var t' := AllWritten(s.table, JobTx(job));
      if job.ReservationJob? {
        ReconcileBooks(s.table, s.usage, job);
      } else {
        UsageBooks(s.table, s.usage, job);
        MarkerFamily(job.jobId);
        FamiliesExclude(key.sort);
      }
      if key != JobKey(job) {
        RowsUntouched(s.table, t', JobKey(job), key.user, key.sort);
      }
    }
  }

  /** Only a committed reservation makes its row reserved. */
  lemma OnlyReserveReserves(quotas: Quotas, s: State, a: Action, key: Key)
    requires Inv(s) && IsReservationWindow(key.sort) && IsReserved(Next(quotas, s, a).table, key) &&
             !IsReserved(s.table, key)
    ensures a.Reserve? && Key(a.user, ReservationWindow(a.id)) == key
    ensures a.outcome.LostAfter? || key in Next(quotas, s, a).held
  {
    hide LedgerSound, TasksSound, MessagesSound, AcknowledgedSurvive, TableAfter, ReserveTx, UsageWrites, JobTx;
    hide PhaseAfter, JobLinked;
    match a
    case Reserve(user, now, budget, id, token, outcome) =>
      if key != Key(user, ReservationWindow(id)) && budget > 0 {
        ReserveOnlyReserves(s, quotas(user), user, now, budget, id, outcome, key);
      }
      AnsweredCommitsAreHeld(s, quotas(user), user, now, budget, id, token, outcome);
    case Record(user, now, tokens, enforced, outcome) =>
      RecordReservesNothing(s, EnforcedQuota(quotas(user), enforced), user, now, tokens, outcome, key);
    case Submit(task, outcome) =>
      if task in s.tasks {
        TaskJobIsLinked(s, task);
        JobsReserveNothing(s, s.tasks[task].job, outcome, key);
      }
    case _ =>
  }

  lemma AnsweredCommitsAreHeld(s: State, quota: Quota, user: string, now: u64, budget: u64, id: string, token: string,
                               outcome: Outcome)
    ensures
      var after := AfterReserve(s, quota, user, now, budget, id, token, outcome);
      after.table == s.table || outcome.LostAfter? || Key(user, ReservationWindow(id)) in after.held
  {
  }

  lemma ReservedBecomesJob(s: State, key: Key, actual: Option<u64>)
    requires Inv(s) && key in s.held && IsReserved(s.table, key)
    ensures JobFor(s.held[key], actual).Some?
  {
    hide TasksSound, MessagesSound, AcknowledgedSurvive, BooksBalance, WellShapedTable;
    assert s.held[key].reservationWindow.None? ==> key !in s.table;
  }

  lemma SettledIsNotReserved(t: Table, job: Job, key: Key)
    requires Settled(t, job) && JobKey(job) == key && IsReservationWindow(key.sort)
    ensures !IsReserved(t, key)
  {
    if job.UsageJob? {
      MarkerFamily(job.jobId);
      FamiliesExclude(key.sort);
    }
  }

  /** While its row is reserved, the job at `key` is not done: no task has succeeded with it and no
      message about it is deleted. */
  lemma ReservedIsNotDone(s: State, key: Key)
    requires Inv(s) && IsReserved(s.table, key)
    ensures IsReservationWindow(key.sort)
    ensures forall task :: TaskCarries(s, task, key) ==> !s.tasks[task].phase.Succeeded?
    ensures forall mid :: mid in s.messages && JobKey(s.messages[mid].job) == key ==> !s.messages[mid].place.Deleted?
    ensures forall task :: TaskCarries(s, task, key) && s.tasks[task].owner.Worker? ==>
            MessageCarries(s, s.tasks[task].owner.mid, key)
  {
    hide AcknowledgedSurvive, Settled, IsReserved;
    ReservedKeyFamily(s.table, key);
    forall task | TaskCarries(s, task, key) && s.tasks[task].phase.Succeeded? ensures false {
      SettledIsNotReserved(s.table, s.tasks[task].job, key);
    }
    forall mid | mid in s.messages && JobKey(s.messages[mid].job) == key && s.messages[mid].place.Deleted?
      ensures false
    {
      SettledIsNotReserved(s.table, s.messages[mid].job, key);
    }
  }

  lemma HeldIsHandedOn(quotas: Quotas, s: State, a: Action, key: Key)
    requires Inv(s) && IsReserved(s.table, key) && key in s.held && !LeavesBehind(s, a, key)
    ensures IsCarried(Next(quotas, s, a), key)
  {
    hide Inv, TableAfter, ReplyTo, PhaseAfter, JobTx, ReserveTx, UsageWrites, JobFor, IsReserved, Logged, IsVacuous;
    hide Refused, JobKey;
    if a.Reconcile? && a.key == key && a.task !in s.tasks {
      ReservedBecomesJob(s, key, a.actual);
      JobOfHeldReservation(s, key, a.actual);
      assert TaskCarries(Next(quotas, s, a), a.task, key);
    } else {
      assert key in Next(quotas, s, a).held;
    }
  }

  lemma TaskIsHandedOn(quotas: Quotas, s: State, a: Action, key: Key, task: nat)
    requires Inv(s) && IsReserved(s.table, key) && TaskCarries(s, task, key) && !LeavesBehind(s, a, key)
    ensures IsCarried(Next(quotas, s, a), key)
  {
    hide Inv, IsReserved, TableAfter, ReplyTo, PhaseAfter, JobTx, ReserveTx, UsageWrites, JobFor, Logged, IsVacuous;
    hide Refused, JobKey;
    ReservedIsNotDone(s, key);
    var after := Next(quotas, s, a);
    if a.Enqueue? && a.task == task && task !in after.tasks {
      assert MessageCarries(after, a.mid, key);
    } else if a.Abandon? && a.task == task {
      assert MessageCarries(after, s.tasks[task].owner.mid, key);
    } else {
      assert TaskCarries(after, task, key);
    }
  }

  lemma MessageIsHandedOn(quotas: Quotas, s: State, a: Action, key: Key, mid: nat)
    requires Inv(s) && IsReserved(s.table, key) && MessageCarries(s, mid, key)
    ensures IsCarried(Next(quotas, s, a), key)
  {
    hide Inv, IsReserved, TableAfter, ReplyTo, PhaseAfter, JobTx, ReserveTx, UsageWrites, JobFor, Logged, IsVacuous;
    hide Refused, JobKey;
    ReservedIsNotDone(s, key);
    if a.Delete? && a.task in s.tasks {
      TaskIsKnown(s, a.task);
      assert s.tasks[a.task].owner == Worker(mid) ==> TaskCarries(s, a.task, key);
    }
    var after := Next(quotas, s, a);
    assert MessageCarries(after, mid, key);
  }

  lemma StepKeepsCarriers(quotas: Quotas, s: State, a: Action, key: Key)
    requires Inv(s) && (IsReserved(s.table, key) ==> IsCarried(s, key)) && !LeavesBehind(s, a, key)
    ensures IsReserved(Next(quotas, s, a).table, key) ==> IsCarried(Next(quotas, s, a), key)
  {
    hide Inv, Next, IsReserved, TaskCarries, MessageCarries;
    if IsReserved(Next(quotas, s, a).table, key) {
      if !IsReserved(s.table, key) {
        StepKeepsInv(quotas, s, a);
        ShapeOf(Next(quotas, s, a));
        ReservedKeyFamily(Next(quotas, s, a).table, key);
        OnlyReserveReserves(quotas, s, a, key);
      } else if key in s.held {
        HeldIsHandedOn(quotas, s, a, key);
      } else if task :| TaskCarries(s, task, key) {
        TaskIsHandedOn(quotas, s, a, key, task);
      } else {
        var mid :| MessageCarries(s, mid, key);
        MessageIsHandedOn(quotas, s, a, key, mid);
      }
    }
  }

  /** Some step of the run, in the state in which it was taken, left the reservation behind. */
  ghost predicate WasLeftBehind(quotas: Quotas, actions: seq<Action>, key: Key) {
    exists i :: 0 <= i < |actions| && LeavesBehind(Run(quotas, INITIAL, actions[..i]), actions[i], key)
  }

  /** In every run a row that is still reserved is held by a request, or its job is in a task's hands
      or waits in a queue, unless some step of the run left it behind. */
  lemma {:induction false} ReservedRowsHaveOwners(quotas: Quotas, actions: seq<Action>, key: Key)
    ensures
      var s := Run(quotas, INITIAL, actions);
      IsReserved(s.table, key) ==> IsCarried(s, key) || WasLeftBehind(quotas, actions, key)
    decreases |actions|
  {
    hide Next, Inv, IsCarried, LeavesBehind;
    if actions != [] {
      var n := |actions| - 1;
      var init := actions[..n];
      ReservedRowsHaveOwners(quotas, init, key);
      if WasLeftBehind(quotas, init, key) {
        var i :| 0 <= i < n && LeavesBehind(Run(quotas, INITIAL, init[..i]), init[i], key);
        assert init[..i] == actions[..i];
      } else if !LeavesBehind(Run(quotas, INITIAL, init), actions[n], key) {
        InitialInv();
        RunKeepsInv(quotas, INITIAL, init);
        StepKeepsCarriers(quotas, Run(quotas, INITIAL, init), actions[n], key);
      }
    }
  }

  // Left behind for good

  ghost predicate IsOrphan(s: State, key: Key) {
    IsReserved(s.table, key) && !IsCarried(s, key)
  }

  /** No step changes the row of an orphan ... */
  lemma OrphanRowStays(quotas: Quotas, s: State, a: Action, key: Key)
    requires Inv(s) && IsOrphan(s, key)
    ensures RowOf(Next(quotas, s, a).table, key) == RowOf(s.table, key)
  {
    hide LedgerSound, TasksSound, MessagesSound, AcknowledgedSurvive, TableAfter, ReserveTx, UsageWrites, JobTx;
    hide PhaseAfter, JobLinked;
    hide IsReserved, ReplyTo, JobFor, JobKey, IsVacuous, Refused, Logged;
    ReservedIsNotDone(s, key);
    ReservedIsThere(s.table, key);
    match a
    case Reserve(user, now, budget, id, token, outcome) =>
      if budget > 0 {
        if key == Key(user, ReservationWindow(id)) {
          TakenIdIsRefused(s, quotas(user), user, now, budget, id, outcome);
        } else {
          ReserveOnlyReserves(s, quotas(user), user, now, budget, id, outcome, key);
        }
      }
    case Record(user, now, tokens, enforced, outcome) =>
      RecordReservesNothing(s, EnforcedQuota(quotas(user), enforced), user, now, tokens, outcome, key);
    case Submit(task, outcome) =>
      if task in s.tasks {
        TaskJobIsLinked(s, task);
        assert !TaskCarries(s, task, key);
        OtherJobsLeaveRow(s, s.tasks[task].job, outcome, key);
      }
    case _ =>
  }

  lemma TakenIdIsRefused(s: State, quota: Quota, user: string, now: u64, budget: u64, id: string, outcome: Outcome)
    requires Key(user, ReservationWindow(id)) in s.table
    ensures TableAfter(s.table, ReserveTx(user, quota, now, budget, id), outcome) == s.table
    ensures !ReplyTo(s.table, ReserveTx(user, quota, now, budget, id), outcome).Committed?
  {
    ReserveTxPosts(s.table, user, quota, now, budget, id);
  }

  lemma OtherJobsLeaveRow(s: State, job: Job, outcome: Outcome, key: Key)
    requires LedgerSound(s.table, s.usage, s.held, s.issued) && JobLinked(s.table, job)
    requires IsReservationWindow(key.sort) && JobKey(job) != key
    ensures RowOf(TableAfter(s.table, JobTx(job), outcome), key) == RowOf(s.table, key)
  {
    if Commits(s.table, JobTx(job), outcome) {
      if job.ReservationJob? {
        ReconcileBooks(s.table, s.usage, job);
      } else {
        UsageBooks(s.table, s.usage, job);
      }
      RowsUntouched(s.table, AllWritten(s.table, JobTx(job)), JobKey(job), key.user, key.sort);
    }
  }

  lemma ReservedIsThere(t: Table, key: Key)
    requires IsReserved(t, key)
    ensures key in t
  {
  }

  lemma NobodyTakesOrphan(quotas: Quotas, s: State, a: Action, key: Key)
    requires Inv(s) && IsOrphan(s, key)
    ensures key !in Next(quotas, s, a).held
  {
    hide Inv, IsReserved, TableAfter, ReplyTo, PhaseAfter, JobTx, ReserveTx, UsageWrites, JobFor, Logged, IsVacuous;
    hide Refused, JobKey;
    ReservedIsThere(s.table, key);
    ReservedIsNotDone(s, key);
    if a.Reserve? && key == Key(a.user, ReservationWindow(a.id)) {
      TakenIdIsRefused(s, quotas(a.user), a.user, a.now, a.budget, a.id, a.outcome);
    }
    if a.ReserveUntracked? {
      MarkerFamily(a.completionToken);
      FamiliesExclude(key.sort);
    }
  }

  lemma NoTaskTakesOrphan(quotas: Quotas, s: State, a: Action, key: Key, task: nat)
    requires Inv(s) && IsOrphan(s, key)
    ensures !TaskCarries(Next(quotas, s, a), task, key)
  {
    hide Inv, IsReserved, TableAfter, ReplyTo, PhaseAfter, JobTx, ReserveTx, UsageWrites, JobFor, Logged, IsVacuous;
    hide Refused, JobKey;
    ReservedIsNotDone(s, key);
    assert !TaskCarries(s, task, key);
    if a.Reconcile? && a.key in s.held {
      JobOfHeldReservation(s, a.key, a.actual);
    }
    if a.Deliver? {
      assert !MessageCarries(s, a.mid, key);
    }
  }

  lemma NoMessageTakesOrphan(quotas: Quotas, s: State, a: Action, key: Key, mid: nat)
    requires Inv(s) && IsOrphan(s, key)
    ensures !MessageCarries(Next(quotas, s, a), mid, key)
  {
    hide Inv, IsReserved, TableAfter, ReplyTo, PhaseAfter, JobTx, ReserveTx, UsageWrites, JobFor, Logged, IsVacuous;
    hide Refused, JobKey;
    assert !MessageCarries(s, mid, key);
    if a.Enqueue? {
      assert !TaskCarries(s, a.task, key);
    }
  }

  /** ... and nobody gets hold of it again. */
  lemma OrphanStaysUncarried(quotas: Quotas, s: State, a: Action, key: Key)
    requires Inv(s) && IsOrphan(s, key)
    ensures !IsCarried(Next(quotas, s, a), key)
  {
    hide Inv, Next, IsOrphan, TaskCarries, MessageCarries;
    NobodyTakesOrphan(quotas, s, a, key);
    forall task ensures !TaskCarries(Next(quotas, s, a), task, key) {
      NoTaskTakesOrphan(quotas, s, a, key, task);
    }
    forall mid ensures !MessageCarries(Next(quotas, s, a), mid, key) {
      NoMessageTakesOrphan(quotas, s, a, key, mid);
    }
  }

  /** A reservation that was left behind stays reserved in every later state, and its budget stays in
      the counts of its windows: no retry, redelivery or new request can settle it. */
  lemma {:induction false} OrphansStayReserved(quotas: Quotas, s: State, actions: seq<Action>, key: Key)
    requires Inv(s) && IsOrphan(s, key)
    ensures IsOrphan(Run(quotas, s, actions), key)
    ensures RowOf(Run(quotas, s, actions).table, key) == RowOf(s.table, key)
    decreases |actions|
  {
    hide Next, Inv, IsCarried;
    if actions != [] {
      var n := |actions| - 1;
      OrphansStayReserved(quotas, s, actions[..n], key);
      RunKeepsInv(quotas, s, actions[..n]);
      var before := Run(quotas, s, actions[..n]);
      OrphanRowStays(quotas, before, actions[n], key);
      OrphanStaysUncarried(quotas, before, actions[n], key);
    }
  }

  // Each of the four ways happens

  predicate CanReserve(quotas: Quotas, user: string, budget: u64) {
    budget > 0 && quotas(user) != NO_LIMITS && !Refused(quotas(user), budget)
  }

  lemma RunMore(quotas: Quotas, s: State, actions: seq<Action>, a: Action)
    ensures Run(quotas, s, actions + [a]) == Next(quotas, Run(quotas, s, actions), a)
  {
    hide Next;
    assert (actions + [a])[..|actions|] == actions;
  }

  lemma FirstReservation(quotas: Quotas, user: string, now: u64, budget: u64, id: string, token: string)
    requires CanReserve(quotas, user, budget)
    ensures
      var k, r := Key(user, ReservationWindow(id)), Tracked(user, id, token, budget, now);
      var booked := INITIAL.(table := AllWritten(map[], ReserveTx(user, quotas(user), now, budget, id)));
      && IsReserved(booked.table, k)
      && Run(quotas, INITIAL, [Reserve(user, now, budget, id, token, LostAfter)]) == booked
      && Run(quotas, INITIAL, [Reserve(user, now, budget, id, token, Evaluate)]) == booked.(held := map[k := r])
  {
    hide AllHold, ReserveTx, AllWritten;
    LedgerQuota.EmptyTableHasRoom(quotas(user), user, now, budget, id);
    ReserveTxPosts(map[], user, quotas(user), now, budget, id);
    RunMore(quotas, INITIAL, [], Reserve(user, now, budget, id, token, LostAfter));
    RunMore(quotas, INITIAL, [], Reserve(user, now, budget, id, token, Evaluate));
    assert Run(quotas, INITIAL, []) == INITIAL;
    assert [] + [Reserve(user, now, budget, id, token, LostAfter)] ==
           [Reserve(user, now, budget, id, token, LostAfter)];
    assert [] + [Reserve(user, now, budget, id, token, Evaluate)] == [Reserve(user, now, budget, id, token, Evaluate)];
  }

  /** A commit whose reply is lost, */
  lemma LostReplyOrphans(quotas: Quotas, user: string, now: u64, budget: u64, id: string, token: string)
    requires CanReserve(quotas, user, budget)
    ensures IsOrphan(Run(quotas, INITIAL, [Reserve(user, now, budget, id, token, LostAfter)]),
                     Key(user, ReservationWindow(id)))
  {
    hide Run, IsReserved;
    FirstReservation(quotas, user, now, budget, id, token);
  }

  /** a request that vanishes before it reconciles, */
  lemma VanishedRequestOrphans(quotas: Quotas, user: string, now: u64, budget: u64, id: string, token: string)
    requires CanReserve(quotas, user, budget)
    ensures
      var key := Key(user, ReservationWindow(id));
      IsOrphan(Run(quotas, INITIAL, [Reserve(user, now, budget, id, token, Evaluate)] + [Forget(key)]), key)
  {
    hide Run, IsReserved;
    var key := Key(user, ReservationWindow(id));
    FirstReservation(quotas, user, now, budget, id, token);
    RunMore(quotas, INITIAL, [Reserve(user, now, budget, id, token, Evaluate)], Forget(key));
  }

  /** The state in which the request's reconciliation has begun. */
  lemma FirstReconciliation(quotas: Quotas, user: string, now: u64, budget: u64, id: string, token: string)
    returns (s: State)
    requires CanReserve(quotas, user, budget)
    ensures
      var key := Key(user, ReservationWindow(id));
      && s == Run(quotas, INITIAL, [Reserve(user, now, budget, id, token, Evaluate)] + [Reconcile(key, None, 0)])
      && IsReserved(s.table, key) && s.held == map[] && s.messages == map[]
      && s.tasks.Keys == {0} && s.tasks[0].job.ReservationJob? &&
        s.tasks[0] == Task(s.tasks[0].job, Caller, Submitting(0))
  {
    hide Run, IsReserved;
    var key := Key(user, ReservationWindow(id));
    FirstReservation(quotas, user, now, budget, id, token);
    RunMore(quotas, INITIAL, [Reserve(user, now, budget, id, token, Evaluate)], Reconcile(key, None, 0));
    s := Run(quotas, INITIAL, [Reserve(user, now, budget, id, token, Evaluate)] + [Reconcile(key, None, 0)]);
  }

  /** one that vanishes while it reconciles, */
  lemma AbandonedCallerOrphans(quotas: Quotas, user: string, now: u64, budget: u64, id: string, token: string)
    requires CanReserve(quotas, user, budget)
    ensures
      var key := Key(user, ReservationWindow(id));
      var actions := [Reserve(user, now, budget, id, token, Evaluate)] + [Reconcile(key, None, 0)] + [Abandon(0)];
      IsOrphan(Run(quotas, INITIAL, actions), key)
  {
    hide Run, IsReserved;
    var key := Key(user, ReservationWindow(id));
    var s := FirstReconciliation(quotas, user, now, budget, id, token);
    RunMore(quotas, INITIAL, [Reserve(user, now, budget, id, token, Evaluate)] + [Reconcile(key, None, 0)], Abandon(0));
  }

  /** and a job that can be neither done nor queued, each leave a reservation to nobody. */
  lemma FailedEnqueueOrphans(quotas: Quotas, user: string, now: u64, budget: u64, id: string, token: string)
    requires CanReserve(quotas, user, budget)
    ensures
      var key := Key(user, ReservationWindow(id));
      var actions := [Reserve(user, now, budget, id, token, Evaluate)] + [Reconcile(key, None, 0)] +
                     [Submit(0, LostBefore)] + [Enqueue(0, 0, NotSent)];
      IsOrphan(Run(quotas, INITIAL, actions), key)
  {
    hide Run, IsReserved;
    var key := Key(user, ReservationWindow(id));
    var s := FirstReconciliation(quotas, user, now, budget, id, token);
    var actions := [Reserve(user, now, budget, id, token, Evaluate)] + [Reconcile(key, None, 0)];
    RunMore(quotas, INITIAL, actions, Submit(0, LostBefore));
    RunMore(quotas, INITIAL, actions + [Submit(0, LostBefore)], Enqueue(0, 0, NotSent));
  }
}
