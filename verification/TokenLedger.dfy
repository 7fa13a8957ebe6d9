/** The token ledger as a protocol: callers, queue workers, the table and an at-least-once queue
    under an adversarial scheduler. `Next` is total and every choice of the environment is part
    of the action, so a run is any sequence of actions.
    Sources: `token_reservation.rs`, `token_usage.rs`, `token_reconciliation.rs`. */
module TokenLedger {
  import opened Prelude
  import opened UsageWindows
  import opened TokenTable

  const TRANSACTION_ATTEMPTS: nat := 4

  datatype Quota = Quota(daily: Option<u64>, weekly: Option<u64>)

  /** Each engineer's limits, fixed for the run. */
  type Quotas = string -> Quota

  // Values

  datatype Job =
    | ReservationJob(
        actual: Option<u64>,
        daily: string,
        reservationWindow: string,
        budget: u64,
        user: string,
        weekly: string)
    | UsageJob(jobId: string, occurredAt: u64, tokens: u64, user: string)

  /** A `TokenReservation` in the hands of a request. */
  datatype TokenReservation = TokenReservation(
    completionToken: string,
    daily: string,
    user: string,
    occurredAt: u64,
    reservationWindow: Option<string>,
    budget: u64,
    weekly: string)

  function Untracked(user: string, completionToken: string, budget: u64, now: u64): TokenReservation {
    TokenReservation(completionToken, "", user, now, None, budget, "")
  }

  function Tracked(user: string, id: string, completionToken: string, budget: u64, now: u64): TokenReservation {
    TokenReservation(completionToken, DailyWindow(now), user, now, Some(ReservationWindow(id)), budget,
                     WeeklyWindow(now))
  }

  /** The row whose existence or status decides whether the reservation has been settled. */
  function SettlementKey(r: TokenReservation): Key {
    match r.reservationWindow
    case Some(window) => Key(r.user, window)
    case None => Key(r.user, MarkerWindow(r.completionToken))
  }

  function JobFor(r: TokenReservation, actual: Option<u64>): Option<Job> {
    match r.reservationWindow
    case Some(window) => Some(ReservationJob(actual, r.daily, window, r.budget, r.user, r.weekly))
    case None =>
      match actual
      case None => None
      case Some(tokens) => Some(UsageJob(r.completionToken, r.occurredAt, tokens, r.user))
  }

  function JobKey(job: Job): Key {
    match job
    case ReservationJob(_, _, window, _, user, _) => Key(user, window)
    case UsageJob(id, _, _, user) => Key(user, MarkerWindow(id))
  }

  function Charge(job: Job): u64 {
    match job
    case ReservationJob(actual, _, _, budget, _, _) => actual.GetOr(budget)
    case UsageJob(_, _, tokens, _) => tokens
  }

  // Transactions

  function Limited(limit: Option<u64>, amount: u64): Condition {
    match limit
    case None => Always
    case Some(l) => TokensAtMost(l - amount)
  }

  predicate Exceeds(limit: Option<u64>, amount: u64) {
    limit.Some? && limit.value < amount
  }

  function ReservationRow(budget: u64, now: u64): Item {
    Item(None, Some(budget), None, Some(Reserved), None, Some(DailyWindow(now)), Some(WeeklyWindow(now)))
  }

  function ReserveTx(user: string, quota: Quota, now: u64, budget: u64, id: string): seq<Write> {
    [Write(Key(user, DailyWindow(now)), Limited(quota.daily, budget), Add(Some(budget), Some(budget), None)),
     Write(Key(user, WeeklyWindow(now)), Limited(quota.weekly, budget), Add(Some(budget), Some(budget), None)),
     Write(Key(user, ReservationWindow(id)), Absent, Insert(ReservationRow(budget, now)))]
  }

  /** `reconciliation_values` */
  function ReconciliationValues(budget: u64, actual: Option<u64>): (int, int, u64) {
    var charged := actual.GetOr(budget);
    var adjustment: int := charged - budget;
    var release: int := -(budget as int);
    (adjustment, release, charged)
  }

  function ReconcileTx(job: Job): seq<Write>
    requires job.ReservationJob?
  {
    var (adjustment, release, charged) := ReconciliationValues(job.budget, job.actual);
    [Write(Key(job.user, job.daily), Always, Add(Some(adjustment), Some(release), Some(charged))),
     Write(Key(job.user, job.weekly), Always, Add(Some(adjustment), Some(release), Some(charged))),
     Write(Key(job.user, job.reservationWindow), StatusIs(Reserved), SetOutcome(Completed, charged))]
  }

  function UsageWrites(user: string, quota: Quota, now: u64, tokens: u64): seq<Write> {
    [Write(Key(user, DailyWindow(now)), Limited(quota.daily, tokens), Add(Some(tokens), None, Some(tokens))),
     Write(Key(user, WeeklyWindow(now)), Limited(quota.weekly, tokens), Add(Some(tokens), None, Some(tokens)))]
  }

  const NO_LIMITS := Quota(None, None)

  function UsageTx(job: Job): seq<Write>
    requires job.UsageJob?
  {
    [Write(Key(job.user, DailyWindow(job.occurredAt)), Always, Add(Some(job.tokens), None, Some(job.tokens))),
     Write(Key(job.user, WeeklyWindow(job.occurredAt)), Always, Add(Some(job.tokens), None, Some(job.tokens))),
     Write(Key(job.user, MarkerWindow(job.jobId)), Absent, Insert(NO_ATTRIBUTES))]
  }

  function JobTx(job: Job): seq<Write> {
    if job.ReservationJob? then ReconcileTx(job) else UsageTx(job)
  }

  // Reading replies

  predicate IsRetryable(reasons: seq<Option<Code>>) {
    exists i :: 0 <= i < |reasons| &&
      reasons[i] in {Some(TransactionConflict), Some(ProvisionedThroughputExceeded), Some(ThrottlingError)}
  }

  datatype ReservationFailure = LimitExceeded | RetryReservation | ReservationWriteFailed

  /** `classify_cancellation_reasons` */
  function ClassifyReservation(reasons: seq<Option<Code>>): ReservationFailure {
    if exists i :: 0 <= i < |reasons| && i < 2 && reasons[i] == Some(ConditionalCheckFailed) then LimitExceeded
    else if IsRetryable(reasons) then RetryReservation
    else ReservationWriteFailed
  }

  datatype ReconciliationFailure = RetryReconciliation | VerifyCompleted | ReconciliationWriteFailed

  /** `classify_reconciliation_error` */
  function ClassifyReconciliation(reply: Reply): ReconciliationFailure
    requires !reply.Committed?
  {
    if reply.NoAnswer? then ReconciliationWriteFailed
    else if |reply.reasons| > 2 && reply.reasons[2] == Some(ConditionalCheckFailed) then VerifyCompleted
    else if IsRetryable(reply.reasons) then RetryReconciliation
    else ReconciliationWriteFailed
  }

  // States

  datatype Owner = Caller | Worker(mid: nat)

  datatype Phase = Submitting(attempt: nat) | Checking | Succeeded | Failed

  /** One execution of `reconcile_durably` or of `process_message`. */
  datatype Task = Task(job: Job, owner: Owner, phase: Phase)

  datatype Place = Queued | Dead | Deleted

  datatype Message = Message(job: Job, place: Place)

  /** `source` is the job's marker row when the usage came from a job. */
  datatype Usage = Usage(user: string, occurredAt: u64, tokens: u64, limited: bool, source: Option<Key>)

  /** The last three fields are history: the job each reservation was turned into, the jobs whose
      `reconcile` returned Ok, and the usage recorded outside reservations. No step reads them
      except to refuse an identifier that was used before. */
  datatype State = State(
    table: Table,
    held: map<Key, TokenReservation>,
    tasks: map<nat, Task>,
    messages: map<nat, Message>,
    issued: map<Key, Job>,
    acknowledged: set<Job>,
    usage: seq<Usage>)

  const INITIAL := State(map[], map[], map[], map[], map[], {}, [])

  datatype Delivery = Sent | SentUnconfirmed | NotSent

  datatype Action =
    | Reserve(user: string, now: u64, budget: u64, id: string, completionToken: string, outcome: Outcome)
    | ReserveUntracked(user: string, now: u64, budget: u64, completionToken: string)
    | Record(user: string, now: u64, tokens: u64, enforced: bool, outcome: Outcome)
    | Reconcile(key: Key, actual: Option<u64>, task: nat)
    | Submit(task: nat, outcome: Outcome)
    | Check(task: nat, readable: bool)
    | Acknowledge(task: nat)
    | Enqueue(task: nat, mid: nat, delivery: Delivery)
    | Deliver(mid: nat, task: nat)
    | Delete(task: nat, confirmed: bool)
    | Redrive(mid: nat, place: Place)
    | Abandon(task: nat)
    | Forget(key: Key)

  predicate Refused(quota: Quota, amount: u64) {
    Exceeds(quota.daily, amount) || Exceeds(quota.weekly, amount)
  }

  function EnforcedQuota(quota: Quota, enforced: bool): Quota {
    if enforced then quota else NO_LIMITS
  }

  /** Where a submission leaves its task: the body of the loop in `reconcile_reservation`, or the
      single submission of `record_reconciliation`. */
  function PhaseAfter(job: Job, attempt: nat, reply: Reply): Phase {
    if reply.Committed? then Succeeded
    else if job.UsageJob? then (if reply.Canceled? then Checking else Failed)
    else
      match ClassifyReconciliation(reply)
      case VerifyCompleted => Checking
      case RetryReconciliation => if attempt + 1 < TRANSACTION_ATTEMPTS then Submitting(attempt + 1) else Failed
      case ReconciliationWriteFailed => Failed
  }

  /** A usage job of zero tokens is done before anything is submitted. */
  predicate IsVacuous(job: Job) {
    job.UsageJob? && job.tokens == 0
  }

  /** What `reservation_is_completed` or `reconciliation_marker_exists` reads. */
  predicate ReadsAsSettled(t: Table, job: Job) {
    if job.ReservationJob? then RowOf(t, JobKey(job)).status == Some(Completed) else JobKey(job) in t
  }

  function Logged(s: State, committed: bool, user: string, at: u64, tokens: u64, limited: bool,
                  source: Option<Key>): seq<Usage> {
    if committed then s.usage + [Usage(user, at, tokens, limited, source)] else s.usage
  }

  function AfterReserve(s: State, quota: Quota, user: string, now: u64, budget: u64, id: string,
                        completionToken: string, outcome: Outcome): State {
    var tx := ReserveTx(user, quota, now, budget, id);
    var r := Tracked(user, id, completionToken, budget, now);
    s.(table := TableAfter(s.table, tx, outcome),
       held := if ReplyTo(s.table, tx, outcome).Committed? then s.held[SettlementKey(r) := r] else s.held)
  }

  function AfterRecord(s: State, quota: Quota, user: string, now: u64, tokens: u64, enforced: bool,
                       outcome: Outcome): State {
    var tx := UsageWrites(user, EnforcedQuota(quota, enforced), now, tokens);
    s.(table := TableAfter(s.table, tx, outcome),
       usage := Logged(s, Commits(s.table, tx, outcome), user, now, tokens, enforced, None))
  }

  function AfterReconcile(s: State, key: Key, actual: Option<u64>, task: nat): State
    requires key in s.held
  {
    var released := s.(held := s.held - {key});
    match JobFor(s.held[key], actual)
    case None => released
    case Some(job) =>
      released.(issued := s.issued[key := job], tasks := s.tasks[task := Task(job, Caller, Submitting(0))])
  }

  function AfterSubmit(s: State, task: nat, outcome: Outcome): State
    requires task in s.tasks && s.tasks[task].phase.Submitting?
  {
    var Task(job, owner, phase) := s.tasks[task];
    if IsVacuous(job) then s.(tasks := s.tasks[task := Task(job, owner, Succeeded)])
    else
      var reply := ReplyTo(s.table, JobTx(job), outcome);
      s.(table := TableAfter(s.table, JobTx(job), outcome),
         tasks := s.tasks[task := Task(job, owner, PhaseAfter(job, phase.attempt, reply))],
         usage := if job.ReservationJob? then s.usage
                  else Logged(s, Commits(s.table, JobTx(job), outcome), job.user, job.occurredAt, job.tokens, false,
                              Some(JobKey(job))))
  }

  function AfterCheck(s: State, task: nat, readable: bool): State
    requires task in s.tasks
  {
    var t := s.tasks[task];
    s.(tasks := s.tasks[task := t.(phase := if readable && ReadsAsSettled(s.table, t.job) then Succeeded else Failed)])
  }

  function AfterEnqueue(s: State, task: nat, mid: nat, delivery: Delivery): State
    requires task in s.tasks
  {
    var job := s.tasks[task].job;
    s.(tasks := s.tasks - {task},
       messages := if delivery.NotSent? then s.messages else s.messages[mid := Message(job, Queued)],
       acknowledged := if delivery.Sent? then s.acknowledged + {job} else s.acknowledged)
  }

  function AfterDelete(s: State, task: nat, mid: nat, confirmed: bool): State {
    s.(tasks := s.tasks - {task},
       messages := if confirmed && mid in s.messages then s.messages[mid := s.messages[mid].(place := Deleted)]
                   else s.messages)
  }

  predicate HasPhase(s: State, task: nat, phase: Phase) {
    task in s.tasks && s.tasks[task].phase == phase
  }

  predicate IsCaller(s: State, task: nat) {
    task in s.tasks && s.tasks[task].owner.Caller?
  }

  /** An action whose guard fails is a step that does nothing. */
  function Next(quotas: Quotas, s: State, a: Action): State {
    match a
    case Reserve(user, now, budget, id, completionToken, outcome) =>
      if budget == 0 || quotas(user) == NO_LIMITS || Refused(quotas(user), budget) then s
      else AfterReserve(s, quotas(user), user, now, budget, id, completionToken, outcome)
    case ReserveUntracked(user, now, budget, completionToken) =>
      var r := Untracked(user, completionToken, budget, now);
      if budget == 0 || quotas(user) != NO_LIMITS || SettlementKey(r) in s.issued || SettlementKey(r) in s.held then s
      else s.(held := s.held[SettlementKey(r) := r])
    case Record(user, now, tokens, enforced, outcome) =>
      if tokens == 0 || Refused(EnforcedQuota(quotas(user), enforced), tokens) then s
      else AfterRecord(s, quotas(user), user, now, tokens, enforced, outcome)
    case Reconcile(key, actual, task) =>
      if key in s.held && task !in s.tasks then AfterReconcile(s, key, actual, task) else s
    case Submit(task, outcome) =>
      if task in s.tasks && s.tasks[task].phase.Submitting? then AfterSubmit(s, task, outcome) else s
    case Check(task, readable) =>
      if HasPhase(s, task, Checking) then AfterCheck(s, task, readable) else s
    case Acknowledge(task) =>
      if HasPhase(s, task, Succeeded) && IsCaller(s, task)
      then s.(tasks := s.tasks - {task}, acknowledged := s.acknowledged + {s.tasks[task].job})
      else s
    case Enqueue(task, mid, delivery) =>
      if HasPhase(s, task, Failed) && IsCaller(s, task) &&
        mid !in s.messages then AfterEnqueue(s, task, mid, delivery) else s
    case Deliver(mid, task) =>
      if mid in s.messages && !s.messages[mid].place.Dead? && task !in s.tasks
      then s.(tasks := s.tasks[task := Task(s.messages[mid].job, Worker(mid), Submitting(0))])
      else s
    case Delete(task, confirmed) =>
      if HasPhase(s, task, Succeeded) && s.tasks[task].owner.Worker?
      then AfterDelete(s, task, s.tasks[task].owner.mid, confirmed)
      else s
    case Redrive(mid, place) =>
      if mid in s.messages && !s.messages[mid].place.Deleted? && !place.Deleted?
      then s.(messages := s.messages[mid := s.messages[mid].(place := place)])
      else s
    case Abandon(task) => s.(tasks := s.tasks - {task})
    case Forget(key) => s.(held := s.held - {key})
  }

  function Run(quotas: Quotas, s: State, actions: seq<Action>): State
    decreases |actions|
  {
    if actions == [] then s
    else Next(quotas, Run(quotas, s, actions[..|actions| - 1]), actions[|actions| - 1])
  }

  ghost predicate Leads(quotas: Quotas, s: State, s': State) {
    exists actions :: s' == Run(quotas, s, actions)
  }

  ghost predicate Reachable(quotas: Quotas, s: State) {
    Leads(quotas, INITIAL, s)
  }

  lemma {:induction false} RunsCompose(quotas: Quotas, s: State, a: seq<Action>, b: seq<Action>)
    ensures Run(quotas, s, a + b) == Run(quotas, Run(quotas, s, a), b)
    decreases |b|
  {
    if b == [] {
      assert a + b == a;
    } else {
      var n := |b| - 1;
      assert (a + b)[..|a + b| - 1] == a + b[..n];
      RunsCompose(quotas, s, a, b[..n]);
    }
  }

  lemma LeadsCompose(quotas: Quotas, s: State, middle: State, s': State)
    requires Leads(quotas, s, middle) && Leads(quotas, middle, s')
    ensures Leads(quotas, s, s')
  {
    var a :| middle == Run(quotas, s, a);
    var b :| s' == Run(quotas, middle, b);
    RunsCompose(quotas, s, a, b);
  }

  lemma StepLeads(quotas: Quotas, s: State, a: Action)
    ensures Leads(quotas, s, Next(quotas, s, a))
  {
    assert [a][..0] == [];
    assert Run(quotas, s, [a]) == Next(quotas, s, a);
  }
}
