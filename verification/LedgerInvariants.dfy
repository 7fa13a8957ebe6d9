/** What every step of the ledger keeps: the books balance, every job copy agrees with its row,
    and nothing acknowledged is lost. */
module LedgerInvariants {
  import opened Prelude
  import opened UsageWindows
  import opened TokenTable
  import opened TokenLedger

  // Shapes of rows

  ghost predicate OneInstant(daily: string, weekly: string) {
    exists now: u64 :: daily == DailyWindow(now) && weekly == WeeklyWindow(now)
  }

  ghost predicate IsReservationRow(row: Item) {
    && row.tokens.None? && row.consumed.None?
    && row.reserved.Some? && row.reserved.value > 0
    && row.daily.Some? && row.weekly.Some? && OneInstant(row.daily.value, row.weekly.value)
    && row.status.Some? && (row.status.value.Completed? ==> row.actual.Some? && row.actual.value >= 0)
  }

  predicate IsCounterRow(row: Item) {
    row.tokens.Some? && row.status.None? && row.actual.None? && row.daily.None? && row.weekly.None?
  }

  ghost predicate WellShaped(k: Key, row: Item) {
    if IsUsageWindow(k.sort) then IsCounterRow(row)
    else if IsReservationWindow(k.sort) then IsReservationRow(row)
    else IsMarkerWindow(k.sort) && row == NO_ATTRIBUTES
  }

  ghost predicate WellShapedTable(t: Table) {
    forall k :: k in t ==> WellShaped(k, t[k])
  }

  // The books

  function UsageIn(log: seq<Usage>, user: string, windows: set<string>, limited: set<bool>): int {
    if log == [] then 0
    else
      var u := log[|log| - 1];
      UsageIn(log[..|log| - 1], user, windows, limited) +
      (if u.user == user && u.limited in limited &&
       (DailyWindow(u.occurredAt) in windows || WeeklyWindow(u.occurredAt) in windows)
       then u.tokens else 0)
  }

  /** Tokens recorded outside reservations, with or without a limit. */
  function AllUsage(log: seq<Usage>, user: string, windows: set<string>): int {
    UsageIn(log, user, windows, {true, false})
  }

  ghost predicate Balanced(t: Table, log: seq<Usage>, user: string, window: string) {
    var row := RowOf(t, Key(user, window));
    && row.tokens.GetOr(0) == row.consumed.GetOr(0) + row.reserved.GetOr(0)
    && row.reserved.GetOr(0) == Total(Outstanding(user, {window}), t)
    && row.consumed.GetOr(0) == Total(Charges(user, {window}), t) + AllUsage(log, user, {window})
  }

  ghost predicate BooksBalance(t: Table, log: seq<Usage>) {
    forall user, window :: IsUsageWindow(window) ==> Balanced(t, log, user, window)
  }

  // Posting: every transaction adds the same amounts to the two counters of one instant

  function Posted(t: Table, user: string, daily: string, weekly: string, amounts: Effect): Table {
    var d, w := Key(user, daily), Key(user, weekly);
    t[d := Changed(RowOf(t, d), amounts)][w := Changed(RowOf(t, w), amounts)]
  }

  predicate Hits(user: string, daily: string, weekly: string, k: Key) {
    k.user == user && (k.sort == daily || k.sort == weekly)
  }

  lemma InstantWindows(daily: string, weekly: string)
    requires OneInstant(daily, weekly)
    ensures IsUsageWindow(daily) && IsUsageWindow(weekly) && daily != weekly
  {
    var now: u64 :| daily == DailyWindow(now) && weekly == WeeklyWindow(now);
    KeyFamiliesAreDisjoint(now, now, "", "");
  }

  lemma PostingKeepsShape(t: Table, user: string, daily: string, weekly: string, amounts: Effect)
    requires WellShapedTable(t) && OneInstant(daily, weekly) && amounts.Add? && amounts.tokens.Some?
    ensures WellShapedTable(Posted(t, user, daily, weekly, amounts))
    ensures forall m :: Total(m, Posted(t, user, daily, weekly, amounts)) == Total(m, t)
    ensures forall k :: !Hits(user, daily, weekly, k) ==>
            RowOf(Posted(t, user, daily, weekly, amounts), k) == RowOf(t, k)
    ensures forall k :: Hits(user, daily, weekly, k) ==>
            RowOf(Posted(t, user, daily, weekly, amounts), k) == Changed(RowOf(t, k), amounts)
    ensures forall k :: k in Posted(t, user, daily, weekly, amounts) <==> k in t || Hits(user, daily, weekly, k)
  {
    InstantWindows(daily, weekly);
    var d, w := Key(user, daily), Key(user, weekly);
    var half := t[d := Changed(RowOf(t, d), amounts)];
    forall m ensures Total(m, Posted(t, user, daily, weekly, amounts)) == Total(m, t) {
      TotalAfter(m, t, d, Changed(RowOf(t, d), amounts));
      TotalAfter(m, half, w, Changed(RowOf(half, w), amounts));
    }
  }

  /** Apart from the counters, only the row at `k` may differ. */
  ghost predicate OnlyTouches(t: Table, t': Table, k: Key) {
    forall j: Key :: !IsUsageWindow(j.sort) && j != k ==> (j in t' <==> j in t) && RowOf(t', j) == RowOf(t, j)
  }

  lemma PostedRowShape(t: Table, user: string, daily: string, weekly: string, amounts: Effect, k: Key, row: Item)
    requires WellShapedTable(t) && OneInstant(daily, weekly) && amounts.Add? && amounts.tokens.Some?
    requires !IsUsageWindow(k.sort) && WellShaped(k, row)
    ensures WellShapedTable(Posted(t, user, daily, weekly, amounts)[k := row])
    ensures OnlyTouches(t, Posted(t, user, daily, weekly, amounts)[k := row], k)
  {
    hide Total, WellShaped;
    PostingKeepsShape(t, user, daily, weekly, amounts);
    InstantWindows(daily, weekly);
  }

  function Delta(m: Tally, t: Table, k: Key, row: Item): int {
    Share(m, k, row) - Share(m, k, RowOf(t, k))
  }

  /** Books that balance still balance after amounts are posted and one other row is written, when
      what is posted is what the row and the usage log gained. */
  lemma PostingKeepsBalance(t: Table, log: seq<Usage>, user: string, daily: string, weekly: string, amounts: Effect,
                            k: Key, row: Item, log': seq<Usage>, u: string, window: string)
    requires WellShapedTable(t) && OneInstant(daily, weekly) && amounts.Add? && amounts.tokens.Some?
    requires !IsUsageWindow(k.sort) && IsUsageWindow(window) && Balanced(t, log, u, window)
    requires
      var out, charged := Delta(Outstanding(u, {window}), t, k, row), Delta(Charges(u, {window}), t, k, row);
      var used := AllUsage(log', u, {window}) - AllUsage(log, u, {window});
      if Hits(user, daily, weekly, Key(u, window))
      then amounts.reserved.GetOr(0) == out && amounts.consumed.GetOr(0) == charged + used &&
        amounts.tokens.value == out + charged + used
      else out == 0 && charged + used == 0
    ensures Balanced(Posted(t, user, daily, weekly, amounts)[k := row], log', u, window)
  {
    PostingKeepsShape(t, user, daily, weekly, amounts);
    InstantWindows(daily, weekly);
    var p := Posted(t, user, daily, weekly, amounts);
    TotalAfter(Outstanding(u, {window}), p, k, row);
    TotalAfter(Charges(u, {window}), p, k, row);
    assert RowOf(p, k) == RowOf(t, k);
    assert RowOf(p[k := row], Key(u, window)) == RowOf(p, Key(u, window));
  }

  // The transactions as postings

  lemma ReserveTxPosts(t: Table, user: string, quota: Quota, now: u64, budget: u64, id: string)
    ensures
      var tx := ReserveTx(user, quota, now, budget, id);
      && (AllHold(t, tx) <==> Holds(t, tx[0]) && Holds(t, tx[1]) && Key(user, ReservationWindow(id)) !in t)
      && AllWritten(t, tx) ==
        Posted(t, user, DailyWindow(now), WeeklyWindow(now), Add(Some(budget), Some(budget), None))
                                [Key(user, ReservationWindow(id)) := ReservationRow(budget, now)]
  {
    KeyFamiliesAreDisjoint(now, now, id, "");
    var tx := ReserveTx(user, quota, now, budget, id);
    ThreeWrites(t, tx[0], tx[1], tx[2]);
    assert tx == [tx[0], tx[1], tx[2]];
  }

  lemma ReconcileTxPosts(t: Table, job: Job)
    requires job.ReservationJob? && OneInstant(job.daily, job.weekly) && !IsUsageWindow(job.reservationWindow)
    ensures
      var tx, k := ReconcileTx(job), JobKey(job);
      && (AllHold(t, tx) <==> RowOf(t, k).status == Some(Reserved))
      && AllWritten(t, tx) == Posted(t, job.user, job.daily, job.weekly,
                                     Add(Some(Charge(job) as int - job.budget), Some(-(job.budget as int)),
                                         Some(Charge(job))))
                                [k := RowOf(t, k).(status := Some(Completed), actual := Some(Charge(job)))]
  {
    InstantWindows(job.daily, job.weekly);
    var tx := ReconcileTx(job);
    ThreeWrites(t, tx[0], tx[1], tx[2]);
    assert tx == [tx[0], tx[1], tx[2]];
  }

  lemma UsageTxPosts(t: Table, job: Job)
    requires job.UsageJob?
    ensures
      var tx, k := UsageTx(job), JobKey(job);
      && (AllHold(t, tx) <==> k !in t)
      && AllWritten(t, tx) == Posted(t, job.user, DailyWindow(job.occurredAt), WeeklyWindow(job.occurredAt),
                                     Add(Some(job.tokens), None, Some(job.tokens)))[k := NO_ATTRIBUTES]
  {
    KeyFamiliesAreDisjoint(job.occurredAt, job.occurredAt, "", job.jobId);
    var tx := UsageTx(job);
    ThreeWrites(t, tx[0], tx[1], tx[2]);
    assert tx == [tx[0], tx[1], tx[2]];
  }

  lemma UsageWritesPost(t: Table, user: string, quota: Quota, now: u64, tokens: u64)
    ensures
      var tx := UsageWrites(user, quota, now, tokens);
      && (AllHold(t, tx) <==> Holds(t, tx[0]) && Holds(t, tx[1]))
      && AllWritten(t, tx) ==
        Posted(t, user, DailyWindow(now), WeeklyWindow(now), Add(Some(tokens), None, Some(tokens)))
  {
    KeyFamiliesAreDisjoint(now, now, "", "");
    var tx := UsageWrites(user, quota, now, tokens);
    TwoWrites(t, tx[0], tx[1]);
    assert tx == [tx[0], tx[1]];
  }

  // Linking every copy of a reservation or job to its row

  ghost predicate AgreesWithRow(t: Table, user: string, window: string, budget: u64, daily: string, weekly: string) {
    var row := RowOf(t, Key(user, window));
    && IsReservationWindow(window)
    && row.status.Some? && row.reserved == Some(budget) && row.daily == Some(daily) && row.weekly == Some(weekly)
  }

  ghost predicate HeldLinked(t: Table, held: map<Key, TokenReservation>, issued: map<Key, Job>) {
    forall key :: key in held ==>
      var r := held[key];
      && SettlementKey(r) == key && key !in issued && r.budget > 0
      && match r.reservationWindow
         case Some(window) =>
           AgreesWithRow(t, r.user, window, r.budget, r.daily, r.weekly) && RowOf(t, key).status == Some(Reserved)
         case None => key !in t
  }

  ghost predicate JobLinked(t: Table, job: Job) {
    job.ReservationJob? ==>
      && AgreesWithRow(t, job.user, job.reservationWindow, job.budget, job.daily, job.weekly)
      && (RowOf(t, JobKey(job)).status == Some(Completed) ==> RowOf(t, JobKey(job)).actual == Some(Charge(job)))
  }

  ghost predicate IssuedLinked(t: Table, issued: map<Key, Job>) {
    forall key :: key in issued ==> JobKey(issued[key]) == key && JobLinked(t, issued[key])
  }

  ghost predicate CompletionsIssued(t: Table, issued: map<Key, Job>) {
    forall k :: k in t && t[k].status == Some(Completed) ==> k in issued
  }

  /** The log entries that a usage job produced. */
  function EntriesFrom(log: seq<Usage>, key: Key): seq<Usage> {
    if log == [] then []
    else
      var rest := EntriesFrom(log[..|log| - 1], key);
      if log[|log| - 1].source == Some(key) then rest + [log[|log| - 1]] else rest
  }

  /** A usage job is recorded once exactly when its marker exists, and never without one. */
  ghost predicate MarkersMatchLog(t: Table, issued: map<Key, Job>, log: seq<Usage>) {
    forall key: Key :: IsMarkerWindow(key.sort) ==>
      if key in t
      then key in issued && issued[key].UsageJob? &&
           EntriesFrom(log, key) == [Usage(key.user, issued[key].occurredAt, issued[key].tokens, false, Some(key))]
      else EntriesFrom(log, key) == []
  }

  /** What the table owes the reservations in hand and the jobs they became. */
  ghost predicate LedgerSound(t: Table, log: seq<Usage>, held: map<Key, TokenReservation>, issued: map<Key, Job>) {
    && WellShapedTable(t)
    && BooksBalance(t, log)
    && HeldLinked(t, held, issued)
    && IssuedLinked(t, issued)
    && CompletionsIssued(t, issued)
    && MarkersMatchLog(t, issued, log)
  }

  // Control: tasks, messages and acknowledgements

  /** There is one job per reservation: every copy anywhere equals the one that was issued. */
  predicate Known(issued: map<Key, Job>, job: Job) {
    JobKey(job) in issued && issued[JobKey(job)] == job
  }

  /** The job's effect is in the table, with the job's own charge. */
  predicate Settled(t: Table, job: Job) {
    || IsVacuous(job)
    || (job.ReservationJob? && RowOf(t, JobKey(job)).status == Some(Completed) &&
        RowOf(t, JobKey(job)).actual == Some(Charge(job)))
    || (job.UsageJob? && JobKey(job) in t)
  }

  ghost predicate TasksSound(t: Table, issued: map<Key, Job>, tasks: map<nat, Task>, messages: map<nat, Message>) {
    forall id :: id in tasks ==>
      && Known(issued, tasks[id].job)
      && (tasks[id].phase.Succeeded? ==> Settled(t, tasks[id].job))
      && (tasks[id].owner.Worker? ==>
          tasks[id].owner.mid in messages && messages[tasks[id].owner.mid].job == tasks[id].job)
  }

  /** A message is deleted only after its effect is in the table. */
  ghost predicate MessagesSound(t: Table, issued: map<Key, Job>, messages: map<nat, Message>) {
    forall mid :: mid in messages ==>
      && Known(issued, messages[mid].job)
      && (messages[mid].place.Deleted? ==> Settled(t, messages[mid].job))
  }

  ghost predicate InQueue(messages: map<nat, Message>, job: Job) {
    exists mid :: mid in messages && messages[mid].job == job && !messages[mid].place.Deleted?
  }

  ghost predicate Survives(t: Table, messages: map<nat, Message>, job: Job) {
    Settled(t, job) || InQueue(messages, job)
  }

  ghost predicate AcknowledgedSurvive(t: Table, issued: map<Key, Job>, messages: map<nat, Message>,
                                      acknowledged: set<Job>) {
    forall job :: job in acknowledged ==> Known(issued, job) && Survives(t, messages, job)
  }

  ghost predicate Inv(s: State) {
    && LedgerSound(s.table, s.usage, s.held, s.issued)
    && TasksSound(s.table, s.issued, s.tasks, s.messages)
    && MessagesSound(s.table, s.issued, s.messages)
    && AcknowledgedSurvive(s.table, s.issued, s.messages, s.acknowledged)
  }

  // Table-changing steps

  lemma AppendedUsage(log: seq<Usage>, u: Usage, user: string, windows: set<string>, limited: set<bool>)
    ensures UsageIn(log + [u], user, windows, limited) ==
            UsageIn(log, user, windows, limited) +
            (if u.user == user && u.limited in limited &&
             (DailyWindow(u.occurredAt) in windows || WeeklyWindow(u.occurredAt) in windows)
             then u.tokens else 0)
  {
    assert (log + [u])[..|log|] == log;
  }

  lemma AppendedEntries(log: seq<Usage>, u: Usage, key: Key)
    ensures EntriesFrom(log + [u], key) == EntriesFrom(log, key) + (if u.source == Some(key) then [u] else [])
  {
    assert (log + [u])[..|log|] == log;
  }

  lemma ReserveBalance(t: Table, log: seq<Usage>, quota: Quota, user: string, now: u64, budget: u64, id: string,
                       u: string, window: string)
    requires WellShapedTable(t) && budget > 0 && Key(user, ReservationWindow(id)) !in t
    requires IsUsageWindow(window) && Balanced(t, log, u, window)
    ensures
      Balanced(Posted(t, user, DailyWindow(now), WeeklyWindow(now), Add(Some(budget), Some(budget), None))
                 [Key(user, ReservationWindow(id)) := ReservationRow(budget, now)], log, u, window)
  {
    KeyFamiliesAreDisjoint(now, now, id, "");
    PostingKeepsBalance(t, log, user, DailyWindow(now), WeeklyWindow(now), Add(Some(budget), Some(budget), None),
                        Key(user, ReservationWindow(id)), ReservationRow(budget, now), log, u, window);
  }

  lemma ReserveBooks(t: Table, log: seq<Usage>, quota: Quota, user: string, now: u64, budget: u64, id: string)
    requires WellShapedTable(t) && BooksBalance(t, log) && budget > 0
    requires AllHold(t, ReserveTx(user, quota, now, budget, id))
    ensures
      var k, t' := Key(user, ReservationWindow(id)), AllWritten(t, ReserveTx(user, quota, now, budget, id));
      && k !in t && k in t' && t'[k] == ReservationRow(budget, now) && OnlyTouches(t, t', k)
      && WellShapedTable(t') && BooksBalance(t', log)
  {
    hide Balanced, WellShapedTable, OnlyTouches, Posted;
    ReserveTxPosts(t, user, quota, now, budget, id);
    KeyFamiliesAreDisjoint(now, now, id, "");
    PostedRowShape(t, user, DailyWindow(now), WeeklyWindow(now), Add(Some(budget), Some(budget), None),
                   Key(user, ReservationWindow(id)), ReservationRow(budget, now));
    forall u, window | IsUsageWindow(window)
      ensures Balanced(AllWritten(t, ReserveTx(user, quota, now, budget, id)), log, u, window)
    {
      ReserveBalance(t, log, quota, user, now, budget, id, u, window);
    }
  }

  lemma ReconcileShape(t: Table, job: Job)
    requires WellShapedTable(t) && job.ReservationJob? && JobLinked(t, job)
    requires AllHold(t, ReconcileTx(job))
    ensures
      var k := JobKey(job);
      && k in t && !IsUsageWindow(k.sort) && OneInstant(job.daily, job.weekly)
      && t[k].status == Some(Reserved) && t[k].reserved == Some(job.budget) && IsReservationRow(t[k])
      && t[k].daily == Some(job.daily) && t[k].weekly == Some(job.weekly)
      && AllWritten(t, ReconcileTx(job)) ==
         Posted(t, job.user, job.daily, job.weekly,
                Add(Some(Charge(job) as int - job.budget), Some(-(job.budget as int)), Some(Charge(job))))
           [k := t[k].(status := Some(Completed), actual := Some(Charge(job)))]
  {
    FamiliesExclude(job.reservationWindow);
    assert IsReservationRow(RowOf(t, JobKey(job)));
    ReconcileTxPosts(t, job);
  }

  lemma ReconcileBalance(t: Table, log: seq<Usage>, job: Job, user: string, window: string)
    requires WellShapedTable(t) && job.ReservationJob? && JobLinked(t, job)
    requires AllHold(t, ReconcileTx(job))
    requires IsUsageWindow(window) && Balanced(t, log, user, window)
    ensures Balanced(AllWritten(t, ReconcileTx(job)), log, user, window)
  {
    ReconcileShape(t, job);
    InstantWindows(job.daily, job.weekly);
    var amounts := Add(Some(Charge(job) as int - job.budget), Some(-(job.budget as int)), Some(Charge(job)));
    var k := JobKey(job);
    PostingKeepsBalance(t, log, job.user, job.daily, job.weekly, amounts, k,
                        t[k].(status := Some(Completed), actual := Some(Charge(job))), log, user, window);
  }

  lemma ReconcileBooks(t: Table, log: seq<Usage>, job: Job)
    requires WellShapedTable(t) && BooksBalance(t, log)
    requires job.ReservationJob? && JobLinked(t, job)
    requires AllHold(t, ReconcileTx(job))
    ensures
      var k, t' := JobKey(job), AllWritten(t, ReconcileTx(job));
      && k in t && k in t' && t[k].status == Some(Reserved)
      && t'[k] == t[k].(status := Some(Completed), actual := Some(Charge(job))) && OnlyTouches(t, t', k)
      && WellShapedTable(t') && BooksBalance(t', log)
  {
    hide Balanced, WellShapedTable, OnlyTouches, Posted;
    ReconcileShape(t, job);
    InstantWindows(job.daily, job.weekly);
    var amounts := Add(Some(Charge(job) as int - job.budget), Some(-(job.budget as int)), Some(Charge(job)));
    var row := t[JobKey(job)].(status := Some(Completed), actual := Some(Charge(job)));
    PostedRowShape(t, job.user, job.daily, job.weekly, amounts, JobKey(job), row);
    forall u, window | IsUsageWindow(window)
      ensures Balanced(AllWritten(t, ReconcileTx(job)), log, u, window)
    {
      ReconcileBalance(t, log, job, u, window);
    }
  }

  lemma UsageBalance(t: Table, log: seq<Usage>, job: Job, u: string, window: string)
    requires WellShapedTable(t) && job.UsageJob? && JobKey(job) !in t
    requires IsUsageWindow(window) && Balanced(t, log, u, window)
    ensures
      Balanced(Posted(t, job.user, DailyWindow(job.occurredAt), WeeklyWindow(job.occurredAt),
                      Add(Some(job.tokens), None, Some(job.tokens)))
                 [JobKey(job) := NO_ATTRIBUTES],
               log + [Usage(job.user, job.occurredAt, job.tokens, false, Some(JobKey(job)))], u, window)
  {
    var entry := Usage(job.user, job.occurredAt, job.tokens, false, Some(JobKey(job)));
    AppendedUsage(log, entry, u, {window}, {true, false});
    KeyFamiliesAreDisjoint(job.occurredAt, job.occurredAt, "", job.jobId);
    PostingKeepsBalance(t, log, job.user, DailyWindow(job.occurredAt), WeeklyWindow(job.occurredAt),
                        Add(Some(job.tokens), None, Some(job.tokens)), JobKey(job), NO_ATTRIBUTES,
                        log + [entry], u, window);
  }

  lemma UsageBooks(t: Table, log: seq<Usage>, job: Job)
    requires WellShapedTable(t) && BooksBalance(t, log)
    requires job.UsageJob? && AllHold(t, UsageTx(job))
    ensures
      var k, t' := JobKey(job), AllWritten(t, UsageTx(job));
      && k !in t && k in t' && OnlyTouches(t, t', k)
      && WellShapedTable(t')
      && BooksBalance(t', log + [Usage(job.user, job.occurredAt, job.tokens, false, Some(k))])
  {
    hide Balanced, WellShapedTable, OnlyTouches, Posted;
    UsageTxPosts(t, job);
    KeyFamiliesAreDisjoint(job.occurredAt, job.occurredAt, "", job.jobId);
    PostedRowShape(t, job.user, DailyWindow(job.occurredAt), WeeklyWindow(job.occurredAt),
                   Add(Some(job.tokens), None, Some(job.tokens)),
                   JobKey(job), NO_ATTRIBUTES);
    forall u, window | IsUsageWindow(window)
      ensures Balanced(AllWritten(t, UsageTx(job)),
                       log + [Usage(job.user, job.occurredAt, job.tokens, false, Some(JobKey(job)))], u, window)
    {
      UsageBalance(t, log, job, u, window);
    }
  }

  lemma RecordBalance(t: Table, log: seq<Usage>, user: string, now: u64, tokens: u64, limited: bool, u: string,
                      window: string)
    requires WellShapedTable(t) && IsUsageWindow(window) && Balanced(t, log, u, window)
    ensures
      var amounts := Add(Some(tokens), None, Some(tokens));
      Balanced(Posted(t, user, DailyWindow(now), WeeklyWindow(now), amounts),
               log + [Usage(user, now, tokens, limited, None)], u, window)
  {
    AppendedUsage(log, Usage(user, now, tokens, limited, None), u, {window}, {true, false});
    PostingKeepsShape(t, user, DailyWindow(now), WeeklyWindow(now), Add(Some(tokens), None, Some(tokens)));
  }

  lemma RecordBooks(t: Table, log: seq<Usage>, user: string, quota: Quota, now: u64, tokens: u64, limited: bool)
    requires WellShapedTable(t) && BooksBalance(t, log)
    requires AllHold(t, UsageWrites(user, quota, now, tokens))
    ensures
      var t' := AllWritten(t, UsageWrites(user, quota, now, tokens));
      && Key(user, DailyWindow(now)) in t' && OnlyTouches(t, t', Key(user, DailyWindow(now)))
      && WellShapedTable(t')
      && BooksBalance(t', log + [Usage(user, now, tokens, limited, None)])
  {
    hide Balanced;
    UsageWritesPost(t, user, quota, now, tokens);
    KeyFamiliesAreDisjoint(now, now, "", "");
    PostingKeepsShape(t, user, DailyWindow(now), WeeklyWindow(now), Add(Some(tokens), None, Some(tokens)));
    forall u, window | IsUsageWindow(window)
      ensures Balanced(AllWritten(t, UsageWrites(user, quota, now, tokens)),
                       log + [Usage(user, now, tokens, limited, None)], u, window)
    {
      RecordBalance(t, log, user, now, tokens, limited, u, window);
    }
  }

  // What links copies to rows reads only the rows that are not counters

  lemma RowsUntouched(t: Table, t': Table, k: Key, user: string, window: string)
    requires OnlyTouches(t, t', k) && Key(user, window) != k && (IsReservationWindow(window) || IsMarkerWindow(window))
    ensures RowOf(t', Key(user, window)) == RowOf(t, Key(user, window))
    ensures Key(user, window) in t' <==> Key(user, window) in t
  {
    FamiliesExclude(window);
    var j := Key(user, window);
    assert !IsUsageWindow(j.sort) && j != k;
  }

  lemma MarkerFamily(id: string)
    ensures IsMarkerWindow(MarkerWindow(id))
  {
    KeyFamiliesAreDisjoint(0, 0, "", id);
  }

  lemma HeldAfter(t: Table, t': Table, k: Key, held: map<Key, TokenReservation>, issued: map<Key, Job>)
    requires HeldLinked(t, held, issued) && OnlyTouches(t, t', k) && k !in held
    ensures HeldLinked(t', held, issued)
  {
    forall key | key in held
      ensures RowOf(t', key) == RowOf(t, key) && (key in t' <==> key in t)
    {
      MarkerFamily(held[key].completionToken);
      RowsUntouched(t, t', k, key.user, key.sort);
    }
  }

  lemma IssuedAfter(t: Table, t': Table, k: Key, issued: map<Key, Job>)
    requires IssuedLinked(t, issued) && OnlyTouches(t, t', k)
    requires k in issued ==> JobLinked(t', issued[k])
    ensures IssuedLinked(t', issued)
  {
    forall key | key in issued
      ensures JobKey(issued[key]) == key && JobLinked(t', issued[key])
    {
      var job := issued[key];
      if job.ReservationJob? && key != k {
        RowsUntouched(t, t', k, job.user, job.reservationWindow);
      }
    }
  }

  lemma CompletionsAfter(t: Table, t': Table, k: Key, issued: map<Key, Job>)
    requires CompletionsIssued(t, issued) && WellShapedTable(t') && OnlyTouches(t, t', k)
    requires RowOf(t', k).status == Some(Completed) ==> k in issued
    ensures CompletionsIssued(t', issued)
  {
    forall j | j in t' && t'[j].status == Some(Completed) ensures j in issued {
      if j != k {
        assert !IsUsageWindow(j.sort) by {
          assert WellShaped(j, t'[j]);
        }
        assert RowOf(t', j) == RowOf(t, j);
      }
    }
  }

  /** A row that is completed or exists as a marker stays that way. */
  ghost predicate KeepsOutcome(t: Table, t': Table, k: Key) {
    && (k in t ==> k in t')
    && (RowOf(t, k).status == Some(Completed) ==> RowOf(t', k) == RowOf(t, k))
  }

  lemma SettledStays(t: Table, t': Table, k: Key, job: Job)
    requires Settled(t, job) && OnlyTouches(t, t', k) && KeepsOutcome(t, t', k) && JobLinked(t, job)
    ensures Settled(t', job)
  {
    if JobKey(job) != k {
      if job.ReservationJob? {
        RowsUntouched(t, t', k, job.user, job.reservationWindow);
      } else {
        MarkerFamily(job.jobId);
        RowsUntouched(t, t', k, job.user, MarkerWindow(job.jobId));
      }
    }
  }

  lemma ControlAfter(s: State, t': Table, k: Key)
    requires Inv(s) && OnlyTouches(s.table, t', k) && KeepsOutcome(s.table, t', k)
    ensures TasksSound(t', s.issued, s.tasks, s.messages)
    ensures MessagesSound(t', s.issued, s.messages)
    ensures AcknowledgedSurvive(t', s.issued, s.messages, s.acknowledged)
  {
    forall job | Known(s.issued, job) && Settled(s.table, job) ensures Settled(t', job) {
      assert JobLinked(s.table, s.issued[JobKey(job)]);
      SettledStays(s.table, t', k, job);
    }
  }

  /** The table part of a step: what it owes the invariant is about the one row at `k`. */
  lemma TableStep(s: State, t': Table, k: Key, log': seq<Usage>)
    requires Inv(s)
    requires WellShapedTable(t') && BooksBalance(t', log')
    requires OnlyTouches(s.table, t', k) && KeepsOutcome(s.table, t', k) && k !in s.held
    requires k in s.issued ==> JobLinked(t', s.issued[k])
    requires RowOf(t', k).status == Some(Completed) ==> k in s.issued
    requires MarkersMatchLog(t', s.issued, log')
    ensures Inv(s.(table := t', usage := log'))
  {
    HeldAfter(s.table, t', k, s.held, s.issued);
    IssuedAfter(s.table, t', k, s.issued);
    CompletionsAfter(s.table, t', k, s.issued);
    ControlAfter(s, t', k);
  }

  lemma MarkersAfterRow(t: Table, t': Table, k: Key, issued: map<Key, Job>, log: seq<Usage>)
    requires MarkersMatchLog(t, issued, log) && OnlyTouches(t, t', k) && !IsMarkerWindow(k.sort)
    ensures MarkersMatchLog(t', issued, log)
  {
    forall key: Key | IsMarkerWindow(key.sort) ensures key in t' <==> key in t {
      RowsUntouched(t, t', k, key.user, key.sort);
    }
  }

  lemma MarkersAfterUsage(t: Table, t': Table, job: Job, issued: map<Key, Job>, log: seq<Usage>)
    requires MarkersMatchLog(t, issued, log) && OnlyTouches(t, t', JobKey(job)) && job.UsageJob? && Known(issued, job)
    requires JobKey(job) !in t && JobKey(job) in t'
    ensures MarkersMatchLog(t', issued, log + [Usage(job.user, job.occurredAt, job.tokens, false, Some(JobKey(job)))])
  {
    var entry := Usage(job.user, job.occurredAt, job.tokens, false, Some(JobKey(job)));
    forall key: Key | IsMarkerWindow(key.sort)
      ensures key != JobKey(job) ==> (key in t' <==> key in t)
      ensures EntriesFrom(log + [entry], key) == EntriesFrom(log, key) + (if key == JobKey(job) then [entry] else [])
    {
      AppendedEntries(log, entry, key);
      if key != JobKey(job) {
        RowsUntouched(t, t', JobKey(job), key.user, key.sort);
      }
    }
    MarkerFamily(job.jobId);
  }

  lemma MarkersAfterRecord(t: Table, t': Table, k: Key, issued: map<Key, Job>, log: seq<Usage>, entry: Usage)
    requires MarkersMatchLog(t, issued, log) && OnlyTouches(t, t', k) && IsUsageWindow(k.sort) && entry.source.None?
    ensures MarkersMatchLog(t', issued, log + [entry])
  {
    forall key: Key | IsMarkerWindow(key.sort)
      ensures key in t' <==> key in t
      ensures EntriesFrom(log + [entry], key) == EntriesFrom(log, key)
    {
      AppendedEntries(log, entry, key);
      FamiliesExclude(key.sort);
      RowsUntouched(t, t', k, key.user, key.sort);
    }
  }

  /** Only the table and the messages matter to what was acknowledged. */
  lemma AcknowledgedAfter(t: Table, issued: map<Key, Job>, issued': map<Key, Job>, messages: map<nat, Message>,
                          messages': map<nat, Message>,
                          acknowledged: set<Job>)
    requires AcknowledgedSurvive(t, issued, messages, acknowledged)
    requires forall job :: Known(issued, job) ==> Known(issued', job)
    requires forall mid :: mid in messages && !messages[mid].place.Deleted? ==>
      mid in messages' && messages'[mid].job == messages[mid].job
      && (messages'[mid].place.Deleted? ==> Settled(t, messages[mid].job))
    ensures AcknowledgedSurvive(t, issued', messages', acknowledged)
  {
    forall job | job in acknowledged ensures Survives(t, messages', job) {
      assert Survives(t, messages, job);
      if !Settled(t, job) {
        var mid :| mid in messages && messages[mid].job == job && !messages[mid].place.Deleted?;
        assert mid in messages';
      }
    }
  }

  // Steps

  /** A row that is not in the table belongs to nobody. */
  lemma FreshReservationKey(s: State, user: string, id: string)
    requires Inv(s) && Key(user, ReservationWindow(id)) !in s.table
    ensures Key(user, ReservationWindow(id)) !in s.held && Key(user, ReservationWindow(id)) !in s.issued
  {
    var k := Key(user, ReservationWindow(id));
    KeyFamiliesAreDisjoint(0, 0, id, "");
    if k in s.held {
      MarkerFamily(s.held[k].completionToken);
    }
    if k in s.issued {
      var job := s.issued[k];
      assert JobLinked(s.table, job);
      if job.UsageJob? {
        MarkerFamily(job.jobId);
      }
    }
  }

  /** Reservations and jobs are never settled through a counter row. */
  lemma CountersBelongToNobody(s: State, k: Key)
    requires Inv(s) && IsUsageWindow(k.sort)
    ensures k !in s.held && k !in s.issued
  {
    FamiliesExclude(k.sort);
    if k in s.held {
      MarkerFamily(s.held[k].completionToken);
    }
    if k in s.issued && s.issued[k].UsageJob? {
      MarkerFamily(s.issued[k].jobId);
    }
  }

  lemma ReserveKeepsInv(s: State, quota: Quota, user: string, now: u64, budget: u64, id: string,
                        completionToken: string, outcome: Outcome)
    requires Inv(s) && budget > 0
    ensures Inv(AfterReserve(s, quota, user, now, budget, id, completionToken, outcome))
  {
    var tx := ReserveTx(user, quota, now, budget, id);
    if Commits(s.table, tx, outcome) {
      var k, t' := Key(user, ReservationWindow(id)), AllWritten(s.table, tx);
      ReserveBooks(s.table, s.usage, quota, user, now, budget, id);
      FreshReservationKey(s, user, id);
      KeyFamiliesAreDisjoint(now, now, id, "");
      MarkersAfterRow(s.table, t', k, s.issued, s.usage);
      TableStep(s, t', k, s.usage);
    }
  }

  lemma RecordKeepsInv(s: State, quota: Quota, user: string, now: u64, tokens: u64, enforced: bool, outcome: Outcome)
    requires Inv(s)
    ensures Inv(AfterRecord(s, quota, user, now, tokens, enforced, outcome))
  {
    hide Balanced;
    var q := EnforcedQuota(quota, enforced);
    var tx := UsageWrites(user, q, now, tokens);
    if Commits(s.table, tx, outcome) {
      var k, t' := Key(user, DailyWindow(now)), AllWritten(s.table, tx);
      var entry := Usage(user, now, tokens, enforced, None);
      RecordBooks(s.table, s.usage, user, q, now, tokens, enforced);
      KeyFamiliesAreDisjoint(now, now, "", "");
      CountersBelongToNobody(s, k);
      MarkersAfterRecord(s.table, t', k, s.issued, s.usage, entry);
      assert WellShaped(k, t'[k]);
      assert k in s.table ==> WellShaped(k, s.table[k]);
      TableStep(s, t', k, s.usage + [entry]);
    }
  }

  lemma IssuingKeepsLedger(t: Table, log: seq<Usage>, held: map<Key, TokenReservation>, issued: map<Key, Job>,
                           key: Key, job: Job)
    requires LedgerSound(t, log, held, issued) && key in held && JobKey(job) == key && JobLinked(t, job)
    requires IsMarkerWindow(key.sort) ==> key !in t
    ensures LedgerSound(t, log, held - {key}, issued[key := job])
  {
    LinksAfterIssue(t, held, issued, key, job);
    MarkersAfterIssue(t, log, issued, key, job);
  }

  lemma LinksAfterIssue(t: Table, held: map<Key, TokenReservation>, issued: map<Key, Job>, key: Key, job: Job)
    requires HeldLinked(t, held, issued) && IssuedLinked(t, issued) && CompletionsIssued(t, issued)
    requires JobKey(job) == key && JobLinked(t, job)
    ensures HeldLinked(t, held - {key}, issued[key := job])
    ensures IssuedLinked(t, issued[key := job]) && CompletionsIssued(t, issued[key := job])
  {
  }

  lemma MarkersAfterIssue(t: Table, log: seq<Usage>, issued: map<Key, Job>, key: Key, job: Job)
    requires MarkersMatchLog(t, issued, log) && (IsMarkerWindow(key.sort) ==> key !in t)
    ensures MarkersMatchLog(t, issued[key := job], log)
  {
  }

  /** The job a reservation turns into agrees with the row the reservation made, and charges what was
      used, or the budget when that is not known; a reservation without a row needs no job then. */
  lemma JobOfHeldReservation(s: State, key: Key, actual: Option<u64>)
    requires Inv(s) && key in s.held
    ensures key !in s.issued
    ensures JobFor(s.held[key], actual).Some? ==>
              var job := JobFor(s.held[key], actual).value;
              && JobKey(job) == key && JobLinked(s.table, job) && (IsMarkerWindow(key.sort) ==> key !in s.table)
              && Charge(job) == actual.GetOr(s.held[key].budget)
              && (job.UsageJob? ==> job.user == s.held[key].user && job.occurredAt == s.held[key].occurredAt)
    ensures JobFor(s.held[key], actual).None? <==> s.held[key].reservationWindow.None? && actual.None?
  {
    var r := s.held[key];
    if r.reservationWindow.Some? {
      FamiliesExclude(r.reservationWindow.value);
    }
  }

  lemma ReconcileKeepsInv(s: State, key: Key, actual: Option<u64>, task: nat)
    requires Inv(s) && key in s.held && task !in s.tasks
    ensures Inv(AfterReconcile(s, key, actual, task))
  {
    hide LedgerSound, TasksSound, MessagesSound, AcknowledgedSurvive;
    ForgetKeepsInv(s, key);
    JobOfHeldReservation(s, key, actual);
    if JobFor(s.held[key], actual).Some? {
      var job := JobFor(s.held[key], actual).value;
      IssuingKeepsLedger(s.table, s.usage, s.held, s.issued, key, job);
      AcknowledgedAfterIssue(s, key, job);
      TasksAfterIssue(s, key, job);
      TaskStep(s.(held := s.held - {key}, issued := s.issued[key := job]), task, job, Caller, Submitting(0));
    }
  }

  lemma AcknowledgedAfterIssue(s: State, key: Key, job: Job)
    requires Inv(s) && key !in s.issued
    ensures AcknowledgedSurvive(s.table, s.issued[key := job], s.messages, s.acknowledged)
  {
    AcknowledgedAfter(s.table, s.issued, s.issued[key := job], s.messages, s.messages, s.acknowledged);
  }

  lemma TasksAfterIssue(s: State, key: Key, job: Job)
    requires Inv(s) && key !in s.issued
    ensures TasksSound(s.table, s.issued[key := job], s.tasks, s.messages)
    ensures MessagesSound(s.table, s.issued[key := job], s.messages)
  {
  }

  lemma TaskStep(s: State, task: nat, job: Job, owner: Owner, phase: Phase)
    requires Inv(s) && Known(s.issued, job) && (phase.Succeeded? ==> Settled(s.table, job))
    requires owner.Worker? ==> owner.mid in s.messages && s.messages[owner.mid].job == job
    ensures Inv(s.(tasks := s.tasks[task := Task(job, owner, phase)]))
  {
    hide LedgerSound, MessagesSound, AcknowledgedSurvive, Settled;
  }

  lemma ReservationSubmitKeepsInv(s: State, job: Job, outcome: Outcome)
    requires Inv(s) && Known(s.issued, job) && job.ReservationJob?
    ensures
      var t' := TableAfter(s.table, ReconcileTx(job), outcome);
      && Inv(s.(table := t'))
      && (Commits(s.table, ReconcileTx(job), outcome) ==> Settled(t', job))
  {
    if Commits(s.table, ReconcileTx(job), outcome) {
      var k, t' := JobKey(job), AllWritten(s.table, ReconcileTx(job));
      assert JobLinked(s.table, s.issued[k]);
      ReconcileBooks(s.table, s.usage, job);
      FamiliesExclude(job.reservationWindow);
      MarkersAfterRow(s.table, t', k, s.issued, s.usage);
      TableStep(s, t', k, s.usage);
    }
  }

  lemma UsageSubmitKeepsInv(s: State, job: Job, outcome: Outcome)
    requires Inv(s) && Known(s.issued, job) && job.UsageJob?
    ensures
      var t' := TableAfter(s.table, UsageTx(job), outcome);
      var committed := Commits(s.table, UsageTx(job), outcome);
      && Inv(s.(table := t',
                usage := Logged(s, committed, job.user, job.occurredAt, job.tokens, false, Some(JobKey(job)))))
      && (committed ==> Settled(t', job))
  {
    if Commits(s.table, UsageTx(job), outcome) {
      var k, t' := JobKey(job), AllWritten(s.table, UsageTx(job));
      UsageBooks(s.table, s.usage, job);
      MarkerFamily(job.jobId);
      FamiliesExclude(k.sort);
      MarkersAfterUsage(s.table, t', job, s.issued, s.usage);
      assert WellShaped(k, t'[k]);
      TableStep(s, t', k, s.usage + [Usage(job.user, job.occurredAt, job.tokens, false, Some(k))]);
    }
  }

  /** A submission is a change of the table and log followed by a change of its task. */
  function SubmittedTable(s: State, job: Job, outcome: Outcome): State {
    if job.ReservationJob? then s.(table := TableAfter(s.table, ReconcileTx(job), outcome))
    else
      s.(table := TableAfter(s.table, UsageTx(job), outcome),
         usage := Logged(s, Commits(s.table, UsageTx(job), outcome), job.user, job.occurredAt, job.tokens, false,
                         Some(JobKey(job))))
  }

  lemma SubmittedTableKeepsInv(s: State, job: Job, attempt: nat, outcome: Outcome)
    requires Inv(s) && Known(s.issued, job)
    ensures Inv(SubmittedTable(s, job, outcome))
    ensures PhaseAfter(job, attempt, ReplyTo(s.table, JobTx(job), outcome)).Succeeded? ==>
              Settled(SubmittedTable(s, job, outcome).table, job)
  {
    hide Inv;
    if job.ReservationJob? {
      ReservationSubmitKeepsInv(s, job, outcome);
    } else {
      UsageSubmitKeepsInv(s, job, outcome);
    }
  }

  lemma TaskIsKnown(s: State, task: nat)
    requires Inv(s) && task in s.tasks
    ensures
      var Task(job, owner, _) := s.tasks[task];
      && Known(s.issued, job)
      && (owner.Worker? ==> owner.mid in s.messages && s.messages[owner.mid].job == job)
  {
  }

  lemma SubmitKeepsInv(s: State, task: nat, outcome: Outcome)
    requires Inv(s) && task in s.tasks && s.tasks[task].phase.Submitting?
    ensures Inv(AfterSubmit(s, task, outcome))
  {
    hide Inv;
    var Task(job, owner, phase) := s.tasks[task];
    TaskIsKnown(s, task);
    if IsVacuous(job) {
      TaskStep(s, task, job, owner, Succeeded);
    } else {
      var next := PhaseAfter(job, phase.attempt, ReplyTo(s.table, JobTx(job), outcome));
      SubmittedTableKeepsInv(s, job, phase.attempt, outcome);
      TaskStep(SubmittedTable(s, job, outcome), task, job, owner, next);
    }
  }

  lemma CheckKeepsInv(s: State, task: nat, readable: bool)
    requires Inv(s) && task in s.tasks
    ensures Inv(AfterCheck(s, task, readable))
  {
    assert JobLinked(s.table, s.issued[JobKey(s.tasks[task].job)]);
  }

  lemma EnqueueKeepsInv(s: State, task: nat, mid: nat, delivery: Delivery)
    requires Inv(s) && task in s.tasks && mid !in s.messages
    ensures Inv(AfterEnqueue(s, task, mid, delivery))
  {
    hide LedgerSound, Settled;
    var s' := AfterEnqueue(s, task, mid, delivery);
    AcknowledgedAfter(s.table, s.issued, s.issued, s.messages, s'.messages, s.acknowledged);
    if delivery.Sent? {
      assert s'.messages[mid].job == s.tasks[task].job;
      assert InQueue(s'.messages, s.tasks[task].job);
    }
  }

  lemma DeleteKeepsInv(s: State, task: nat, confirmed: bool)
    requires Inv(s) && HasPhase(s, task, Succeeded) && s.tasks[task].owner.Worker?
    ensures Inv(AfterDelete(s, task, s.tasks[task].owner.mid, confirmed))
  {
    hide LedgerSound, Settled;
    var s' := AfterDelete(s, task, s.tasks[task].owner.mid, confirmed);
    AcknowledgedAfter(s.table, s.issued, s.issued, s.messages, s'.messages, s.acknowledged);
  }

  lemma RedriveKeepsInv(s: State, mid: nat, place: Place)
    requires Inv(s) && mid in s.messages && !s.messages[mid].place.Deleted? && !place.Deleted?
    ensures Inv(s.(messages := s.messages[mid := s.messages[mid].(place := place)]))
  {
    hide LedgerSound, Settled;
    AcknowledgedAfter(s.table, s.issued, s.issued, s.messages, s.messages[mid := s.messages[mid].(place := place)],
                      s.acknowledged);
  }

  lemma AcknowledgeKeepsInv(s: State, task: nat)
    requires Inv(s) && HasPhase(s, task, Succeeded)
    ensures Inv(s.(tasks := s.tasks - {task}, acknowledged := s.acknowledged + {s.tasks[task].job}))
  {
    hide LedgerSound, Settled;
  }

  lemma DeliverKeepsInv(s: State, mid: nat, task: nat)
    requires Inv(s) && mid in s.messages
    ensures Inv(s.(tasks := s.tasks[task := Task(s.messages[mid].job, Worker(mid), Submitting(0))]))
  {
    hide LedgerSound, Settled;
  }

  lemma AbandonKeepsInv(s: State, task: nat)
    requires Inv(s)
    ensures Inv(s.(tasks := s.tasks - {task}))
  {
    hide LedgerSound, Settled;
  }

  lemma ForgetKeepsInv(s: State, key: Key)
    requires Inv(s)
    ensures Inv(s.(held := s.held - {key}))
  {
    hide BooksBalance, WellShapedTable, MarkersMatchLog, TasksSound, MessagesSound, AcknowledgedSurvive;
  }

  /** Every step of every actor keeps the invariant. */
  lemma StepKeepsInv(quotas: Quotas, s: State, a: Action)
    requires Inv(s)
    ensures Inv(Next(quotas, s, a))
  {
    hide Inv;
    match a
    case Reserve(user, now, budget, id, completionToken, outcome) =>
      if budget > 0 {
        ReserveKeepsInv(s, quotas(user), user, now, budget, id, completionToken, outcome);
      }
    case ReserveUntracked(user, now, budget, completionToken) =>
      UntrackedKeepsInv(quotas, s, user, now, budget, completionToken);
    case Record(user, now, tokens, enforced, outcome) =>
      RecordKeepsInv(s, quotas(user), user, now, tokens, enforced, outcome);
    case Reconcile(key, actual, task) =>
      if key in s.held && task !in s.tasks {
        ReconcileKeepsInv(s, key, actual, task);
      }
    case Submit(task, outcome) =>
      if task in s.tasks && s.tasks[task].phase.Submitting? {
        SubmitKeepsInv(s, task, outcome);
      }
    case Check(task, readable) =>
      if task in s.tasks {
        CheckKeepsInv(s, task, readable);
      }
    case Acknowledge(task) =>
      if HasPhase(s, task, Succeeded) {
        AcknowledgeKeepsInv(s, task);
      }
    case Enqueue(task, mid, delivery) =>
      if HasPhase(s, task, Failed) && mid !in s.messages {
        EnqueueKeepsInv(s, task, mid, delivery);
      }
    case Deliver(mid, task) =>
      if mid in s.messages {
        DeliverKeepsInv(s, mid, task);
      }
    case Delete(task, confirmed) =>
      if HasPhase(s, task, Succeeded) && s.tasks[task].owner.Worker? {
        DeleteKeepsInv(s, task, confirmed);
      }
    case Redrive(mid, place) =>
      if mid in s.messages && !s.messages[mid].place.Deleted? && !place.Deleted? {
        RedriveKeepsInv(s, mid, place);
      }
    case Abandon(task) => AbandonKeepsInv(s, task);
    case Forget(key) => ForgetKeepsInv(s, key);
  }

  lemma UntrackedKeepsInv(quotas: Quotas, s: State, user: string, now: u64, budget: u64, completionToken: string)
    requires Inv(s)
    ensures Inv(Next(quotas, s, ReserveUntracked(user, now, budget, completionToken)))
  {
    hide BooksBalance, MessagesSound, AcknowledgedSurvive, TasksSound, WellShapedTable;
    var k := Key(user, MarkerWindow(completionToken));
    MarkerFamily(completionToken);
    assert k in s.table ==> k in s.issued;
  }

  lemma {:induction false} RunKeepsInv(quotas: Quotas, s: State, actions: seq<Action>)
    requires Inv(s)
    ensures Inv(Run(quotas, s, actions))
    decreases |actions|
  {
    if actions != [] {
      var n := |actions| - 1;
      RunKeepsInv(quotas, s, actions[..n]);
      StepKeepsInv(quotas, Run(quotas, s, actions[..n]), actions[n]);
    }
  }

  lemma InitialInv()
    ensures Inv(INITIAL)
  {
  }
}
