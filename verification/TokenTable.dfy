/** The token usage table and the small contract assumed of its store: a transaction is atomic,
    its conditions are evaluated on the current rows, and a cancelled one changes nothing.
    A reply may be lost after the commit. Idempotency tokens play no part. */
module TokenTable {
  import opened Prelude

  datatype Key = Key(user: string, sort: string)

  datatype Status = Reserved | Completed

  /** One item with the attributes the ledger reads or writes; an absent attribute is None. */
  datatype Item = Item(
    tokens: Option<int>,
    reserved: Option<int>,
    consumed: Option<int>,
    status: Option<Status>,
    actual: Option<int>,
    daily: Option<string>,
    weekly: Option<string>)

  const NO_ATTRIBUTES := Item(None, None, None, None, None, None, None)

  type Table = map<Key, Item>

  datatype Condition = Always | TokensAtMost(remaining: int) | Absent | StatusIs(status: Status)

  datatype Effect =
    | Add(tokens: Option<int>, reserved: Option<int>, consumed: Option<int>)
    | SetOutcome(status: Status, actual: int)
    | Insert(item: Item)

  datatype Write = Write(key: Key, condition: Condition, effect: Effect)

  function RowOf(t: Table, k: Key): Item {
    if k in t then t[k] else NO_ATTRIBUTES
  }

  predicate Holds(t: Table, w: Write) {
    match w.condition
    case Always => true
    case TokensAtMost(remaining) =>
      RowOf(t, w.key).tokens.None? || RowOf(t, w.key).tokens.value <= remaining
    case Absent => w.key !in t
    case StatusIs(status) => RowOf(t, w.key).status == Some(status)
  }

  predicate AllHold(t: Table, tx: seq<Write>) {
    forall i :: 0 <= i < |tx| ==> Holds(t, tx[i])
  }

  /** `ADD` starts from zero when the attribute is missing. */
  function Added(attribute: Option<int>, delta: Option<int>): Option<int> {
    if delta.None? then attribute else Some(attribute.GetOr(0) + delta.value)
  }

  function Changed(row: Item, effect: Effect): Item {
    match effect
    case Add(tokens, reserved, consumed) =>
      row.(tokens := Added(row.tokens, tokens),
           reserved := Added(row.reserved, reserved),
           consumed := Added(row.consumed, consumed))
    case SetOutcome(status, actual) => row.(status := Some(status), actual := Some(actual))
    case Insert(item) => item
  }

  function Written(t: Table, w: Write): Table {
    t[w.key := Changed(RowOf(t, w.key), w.effect)]
  }

  function AllWritten(t: Table, tx: seq<Write>): Table
    decreases |tx|
  {
    if tx == [] then t else AllWritten(Written(t, tx[0]), tx[1..])
  }

  // What may happen to one submission

  datatype Code = ConditionalCheckFailed | TransactionConflict | ProvisionedThroughputExceeded | ThrottlingError | Other

  /** The adversary's choice: evaluate and answer; refuse with codes of its own; or fail to
      answer, before or after the evaluation. */
  datatype Outcome = Evaluate | Refuse(codes: seq<Option<Code>>) | LostBefore | LostAfter

  datatype Reply = Committed | Canceled(reasons: seq<Option<Code>>) | NoAnswer

  predicate Commits(t: Table, tx: seq<Write>, outcome: Outcome) {
    (outcome.Evaluate? || outcome.LostAfter?) && AllHold(t, tx)
  }

  function TableAfter(t: Table, tx: seq<Write>, outcome: Outcome): Table {
    if Commits(t, tx, outcome) then AllWritten(t, tx) else t
  }

  /** A refusal may name any codes, except that it never blames a condition that holds. */
  function HonestCode(t: Table, w: Write, code: Option<Code>): Option<Code> {
    if code == Some(ConditionalCheckFailed) && Holds(t, w) then None else code
  }

  function ReplyTo(t: Table, tx: seq<Write>, outcome: Outcome): Reply {
    match outcome
    case Evaluate =>
      if AllHold(t, tx) then Committed
      else Canceled(seq(|tx|, i requires 0 <= i < |tx| => if Holds(t, tx[i]) then None
                        else Some(ConditionalCheckFailed)))
    case Refuse(codes) =>
      Canceled(seq(|codes|, i requires 0 <= i < |codes| => if i < |tx| then HonestCode(t, tx[i], codes[i])
                   else codes[i]))
    case LostBefore => NoAnswer
    case LostAfter => NoAnswer
  }

  lemma ThreeWrites(t: Table, a: Write, b: Write, c: Write)
    requires a.key != b.key && b.key != c.key && a.key != c.key
    ensures AllHold(t, [a, b, c]) <==> Holds(t, a) && Holds(t, b) && Holds(t, c)
    ensures AllWritten(t, [a, b, c]) ==
            t[a.key := Changed(RowOf(t, a.key), a.effect)]
             [b.key := Changed(RowOf(t, b.key), b.effect)]
             [c.key := Changed(RowOf(t, c.key), c.effect)]
  {
    var tx := [a, b, c];
    assert AllHold(t, tx) ==> Holds(t, tx[0]) && Holds(t, tx[1]) && Holds(t, tx[2]);
    assert tx[1..] == [b, c] && [b, c][1..] == [c] && [c][1..] == [];
    calc {
      AllWritten(t, tx);
      AllWritten(Written(t, a), [b, c]);
      AllWritten(Written(Written(t, a), b), [c]);
      AllWritten(Written(Written(Written(t, a), b), c), []);
      Written(Written(Written(t, a), b), c);
    }
  }

  lemma TwoWrites(t: Table, a: Write, b: Write)
    requires a.key != b.key
    ensures AllHold(t, [a, b]) <==> Holds(t, a) && Holds(t, b)
    ensures AllWritten(t, [a, b]) ==
            t[a.key := Changed(RowOf(t, a.key), a.effect)][b.key := Changed(RowOf(t, b.key), b.effect)]
  {
    var tx := [a, b];
    assert AllHold(t, tx) ==> Holds(t, tx[0]) && Holds(t, tx[1]);
    assert tx[1..] == [b] && [b][1..] == [];
    calc {
      AllWritten(t, tx);
      AllWritten(Written(t, a), [b]);
      AllWritten(Written(Written(t, a), b), []);
    }
  }

  // Sums over the reservation rows of a user that name one of some windows

  datatype Tally =
    | Outstanding(user: string, windows: set<string>)
    | Charges(user: string, windows: set<string>)
    | Overage(user: string, windows: set<string>)

  predicate Names(row: Item, windows: set<string>) {
    (row.daily.Some? && row.daily.value in windows) || (row.weekly.Some? && row.weekly.value in windows)
  }

  function Share(m: Tally, k: Key, row: Item): int {
    if k.user != m.user || !Names(row, m.windows) then 0
    else
      match m
      case Outstanding(_, _) => if row.status == Some(Reserved) then row.reserved.GetOr(0) else 0
      case Charges(_, _) => if row.status == Some(Completed) then row.actual.GetOr(0) else 0
      case Overage(_, _) =>
        if row.status == Some(Completed) then Max(row.actual.GetOr(0) - row.reserved.GetOr(0), 0) else 0
  }

  ghost function Total(m: Tally, t: Table): int {
    if t == map[] then 0
    else
      var k :| k in t;
      Share(m, k, t[k]) + Total(m, t - {k})
  }

  lemma {:induction false} TotalWithout(m: Tally, t: Table, k: Key)
    requires k in t
    ensures Total(m, t) == Share(m, k, t[k]) + Total(m, t - {k})
    decreases |t|
  {
    var first :| first in t && Total(m, t) == Share(m, first, t[first]) + Total(m, t - {first});
    if first != k {
      TotalWithout(m, t - {first}, k);
      TotalWithout(m, t - {k}, first);
      assert t - {first} - {k} == t - {k} - {first};
    }
  }

  lemma TotalAfter(m: Tally, t: Table, k: Key, row: Item)
    ensures Total(m, t[k := row]) ==
            Total(m, t) + Share(m, k, row) - (if k in t then Share(m, k, t[k]) else 0)
  {
    var updated := t[k := row];
    TotalWithout(m, updated, k);
    assert updated - {k} == t - {k};
    if k in t {
      TotalWithout(m, t, k);
    } else {
      assert t - {k} == t;
    }
  }

  /** Totals add up whenever the shares of every row do. */
  lemma {:induction false} TotalsAdd(a: Tally, b: Tally, sum: Tally, t: Table)
    requires forall k :: k in t ==> Share(a, k, t[k]) + Share(b, k, t[k]) == Share(sum, k, t[k])
    ensures Total(a, t) + Total(b, t) == Total(sum, t)
    decreases |t|
  {
    if t != map[] {
      var k :| k in t;
      TotalWithout(a, t, k);
      TotalWithout(b, t, k);
      TotalWithout(sum, t, k);
      TotalsAdd(a, b, sum, t - {k});
    }
  }

  lemma {:induction false} TotalsAgree(a: Tally, b: Tally, t: Table)
    requires forall k :: k in t ==> Share(a, k, t[k]) == Share(b, k, t[k])
    ensures Total(a, t) == Total(b, t)
    decreases |t|
  {
    if t != map[] {
      var k :| k in t;
      TotalWithout(a, t, k);
      TotalWithout(b, t, k);
      TotalsAgree(a, b, t - {k});
    }
  }

  lemma {:induction false} TotalIsNonNegative(m: Tally, t: Table)
    requires forall k :: k in t ==> Share(m, k, t[k]) >= 0
    ensures Total(m, t) >= 0
    decreases |t|
  {
    if t != map[] {
      var k :| k in t;
      TotalWithout(m, t, k);
      TotalIsNonNegative(m, t - {k});
    }
  }
}
