/** The fixed-window request limit (`rate_limit.rs`): one conditional increment of a stored row per
    request, by any number of callers whose updates are retried, delayed and answered or not. */
module RateLimit {
  import opened Prelude

  datatype RateLimiter = RateLimiter(limit: nat, window: nat) {
    predicate Valid() {
      1 <= limit <= U64_MAX && 1 <= window <= U64_MAX
    }

    /** `window_start_epoch_seconds` */
    function WindowStart(now: u64): (start: u64)
      requires Valid()
      ensures start <= now < start + window
    {
      now - now % window
    }

    /** `rate_limit_ttl_epoch_seconds`: a row outlives its window unless the clock runs out. */
    function Ttl(windowStart: u64): (ttl: u64)
      requires Valid()
      ensures ttl == if windowStart + 2 * window <= U64_MAX then windowStart + 2 * window else U64_MAX
    {
      SaturatingAdd(windowStart, if window * 2 <= U64_MAX then window * 2 else U64_MAX)
    }
  }

  /** How many whole windows of length `w` have passed. */
  lemma Windows(n: nat, w: nat) returns (q: nat)
    requires w >= 1
    ensures w * q <= n < w * q + w && w * (q + 1) == w * q + w
  {
    q := n / w;
    assert n == w * q + n % w;
  }

  lemma QuotientIs(n: nat, w: nat, q: nat, r: nat)
    requires w >= 1 && n == w * q + r && r < w
    ensures n / w == q && n % w == r
  {
    SmallMultiple(w, n / w - q);
  }

  lemma SmallMultiple(w: nat, d: int)
    requires w >= 1 && -(w as int) < w * d < w
    ensures d == 0
  {
    Monotone(w, 1, d);
    Monotone(w, d, -1);
  }

  lemma Monotone(w: nat, a: int, b: int)
    ensures a <= b ==> w * a <= w * b
  {
  }

  /** `RateLimiter::new` */
  function NewLimiter(requestsPerWindow: u64, windowSeconds: u64): (r: RateLimiter)
    ensures r.Valid()
    ensures if requestsPerWindow == 0 then r.limit == 1 else r.limit == requestsPerWindow
    ensures if windowSeconds == 0 then r.window == 1 else r.window == windowSeconds
  {
    RateLimiter(Max(requestsPerWindow, 1), Max(windowSeconds, 1))
  }

  datatype Request = Request(user: string, now: u64)

  type Key = (string, u64)

  function KeyOf(l: RateLimiter, r: Request): Key
    requires l.Valid()
  {
    (r.user, l.WindowStart(r.now))
  }

  datatype Outcome = Answered | LostBefore | LostAfter

  datatype Row = Row(count: nat, ttl: u64)

  datatype Reply = Accepted(limit: nat, windowStart: u64) | RateLimitExceeded | UpdateFailed

  type Table = map<Key, Row>

  function CountOf(t: Table, k: Key): nat {
    if k in t then t[k].count else 0
  }

  /** The stored row after one conditional update. */
  function Updated(t: Table, l: RateLimiter, k: Key): Table
    requires l.Valid()
  {
    if k !in t || t[k].count < l.limit then t[k := Row(CountOf(t, k) + 1, l.Ttl(k.1))] else t
  }

  class RateLimitStore {
    const limiter: RateLimiter
    var rows: Table

    constructor (limiter: RateLimiter)
      ensures this.limiter == limiter && rows == map[]
    {
      this.limiter := limiter;
      rows := map[];
    }

    /** `check_and_record` for a clock reading and the fate of its one update. */
    method CheckAndRecord(user: string, now: u64, outcome: Outcome) returns (r: Reply)
      requires limiter.Valid()
      modifies this
      ensures var k := KeyOf(limiter, Request(user, now));
              && rows == (if outcome == LostBefore then old(rows) else Updated(old(rows), limiter, k))
              && r == (if outcome != Answered then UpdateFailed
                       else if CountOf(old(rows), k) < limiter.limit then Accepted(limiter.limit, k.1)
                         else RateLimitExceeded)
    {
      var windowStart := limiter.WindowStart(now);
      if outcome == LostBefore {
        return UpdateFailed;
      }
      var key := (user, windowStart);
      var ttl := limiter.Ttl(windowStart);
      if key in rows && rows[key].count >= limiter.limit {
        return if outcome == LostAfter then UpdateFailed else RateLimitExceeded;
      }
      rows := rows[key := Row(CountOf(rows, key) + 1, ttl)];
      return if outcome == LostAfter then UpdateFailed else Accepted(limiter.limit, windowStart);
    }
  }

  // Many callers

  /** A request is waiting from its clock reading until it is answered; an update whose answer is
      lost may be sent again. */
  datatype State = State(rows: Table, waiting: map<nat, Request>, counted: seq<Request>, accepted: seq<Request>,
                         refused: seq<Request>)

  datatype Action = Arrive(id: nat, user: string, now: u64) | Update(id: nat, outcome: Outcome) | GiveUp(id: nat)

  const START := State(map[], map[], [], [], [])

  function Next(s: State, a: Action, l: RateLimiter): State
    requires l.Valid()
  {
    match a
    case Arrive(id, user, now) => if id in s.waiting then s else s.(waiting := s.waiting[id := Request(user, now)])
    case Update(id, outcome) =>
      if id !in s.waiting || outcome == LostBefore then s
      else
        var request := s.waiting[id];
        var room := CountOf(s.rows, KeyOf(l, request)) < l.limit;
        var applied := s.(rows := Updated(s.rows, l, KeyOf(l, request)), counted := s.counted + if room
                          then [request] else []);
        if outcome == LostAfter then applied
        else if room then applied.(waiting := s.waiting - {id}, accepted := s.accepted + [request])
        else applied.(waiting := s.waiting - {id}, refused := s.refused + [request])
    case GiveUp(id) => s.(waiting := s.waiting - {id})
  }

  function Run(trace: seq<Action>, l: RateLimiter): State
    requires l.Valid()
  {
    if trace == [] then START else Next(Run(trace[..|trace| - 1], l), trace[|trace| - 1], l)
  }

  function InWindow(requests: seq<Request>, k: Key, l: RateLimiter): nat
    requires l.Valid()
  {
    if requests == [] then 0
    else InWindow(requests[..|requests| - 1], k, l) + (if KeyOf(l, requests[|requests| - 1]) == k then 1 else 0)
  }

  /** The requests of a user whose clock reading lies in [from, from + length). */
  function InSpan(requests: seq<Request>, user: string, from: nat, length: nat): nat {
    if requests == [] then 0
    else
      var last := requests[|requests| - 1];
      InSpan(requests[..|requests| - 1], user, from, length) +
        (if last.user == user && from <= last.now < from + length then 1 else 0)
  }

  ghost predicate Inv(s: State, l: RateLimiter)
    requires l.Valid()
  {
    && (forall k :: InWindow(s.accepted, k, l) <= InWindow(s.counted, k, l) == CountOf(s.rows, k) <= l.limit)
    && (forall r :: r in s.refused ==> InWindow(s.counted, KeyOf(l, r), l) == l.limit)
    && (forall k :: k in s.rows ==> s.rows[k].ttl == l.Ttl(k.1))
  }

  lemma InWindowGrows(requests: seq<Request>, r: Request, k: Key, l: RateLimiter)
    requires l.Valid()
    ensures InWindow(requests + [r], k, l) == InWindow(requests, k, l) + (if KeyOf(l, r) == k then 1 else 0)
  {
    assert (requests + [r])[..|requests|] == requests;
  }

  lemma StepKeepsInv(s: State, a: Action, l: RateLimiter)
    requires l.Valid() && Inv(s, l)
    ensures Inv(Next(s, a, l), l)
  {
    hide InWindow, KeyOf, RateLimiter.Ttl;
    if a.Update? && a.id in s.waiting {
      var request := s.waiting[a.id];
      assert CountOf(s.rows, KeyOf(l, request)) <= l.limit;
      forall k
        ensures InWindow(s.counted + [request], k, l) ==
                InWindow(s.counted, k, l) + (if KeyOf(l, request) == k then 1 else 0)
        ensures InWindow(s.accepted + [request], k, l) ==
                InWindow(s.accepted, k, l) + (if KeyOf(l, request) == k then 1 else 0)
      {
        InWindowGrows(s.counted, request, k, l);
        InWindowGrows(s.accepted, request, k, l);
      }
      assert s.counted + [] == s.counted;
    }
  }

  lemma {:induction false} RunKeepsInv(trace: seq<Action>, l: RateLimiter)
    requires l.Valid()
    ensures Inv(Run(trace, l), l)
    decreases |trace|
  {
    hide Next, Inv;
    if trace == [] {
      StartInv(l);
    } else {
      RunKeepsInv(trace[..|trace| - 1], l);
      StepKeepsInv(Run(trace[..|trace| - 1], l), trace[|trace| - 1], l);
    }
  }

  lemma StartInv(l: RateLimiter)
    requires l.Valid()
    ensures Inv(START, l)
  {
  }

  /** In every run a user's accepted requests of one window never exceed the limit, and a refusal
      means that the window is full. */
  lemma WindowsAreLimited(trace: seq<Action>, l: RateLimiter, k: Key, r: Request)
    requires l.Valid()
    ensures InWindow(Run(trace, l).accepted, k, l) <= l.limit
    ensures r in Run(trace, l).refused ==> InWindow(Run(trace, l).counted, KeyOf(l, r), l) == l.limit
  {
    RunKeepsInv(trace, l);
  }

  /** In every run a stored row stays for exactly a whole window after its own has ended, or for as
      long as the clock can count where that is beyond it. */
  lemma RowsOutliveTheirWindow(trace: seq<Action>, l: RateLimiter, r: Request)
    requires l.Valid() && KeyOf(l, r) in Run(trace, l).rows
    ensures
      var ttl, end := Run(trace, l).rows[KeyOf(l, r)].ttl, l.WindowStart(r.now) + l.window;
      if end + l.window <= U64_MAX then ttl == end + l.window && r.now + l.window < ttl else ttl == U64_MAX
  {
    RunKeepsInv(trace, l);
  }

  /** A span no longer than the window meets at most two windows. */
  lemma SpanMeetsTwoWindows(l: RateLimiter, from: u64, now: u64)
    requires l.Valid() && from <= now < from + l.window
    ensures l.WindowStart(now) == l.WindowStart(from) || l.WindowStart(now) == l.WindowStart(from) + l.window
  {
    hide RateLimiter.WindowStart;
    var q := Windows(from, l.window);
    SpanEdges(l, from, now, q);
  }

  lemma SpanEdges(l: RateLimiter, from: u64, now: u64, q: nat)
    requires l.Valid() && from <= now < from + l.window
    requires l.window * q <= from < l.window * q + l.window && l.window * (q + 1) == l.window * q + l.window
    ensures l.WindowStart(now) == l.WindowStart(from) || l.WindowStart(now) == l.WindowStart(from) + l.window
  {
    hide RateLimiter.WindowStart;
    WindowStartIs(l, from, q);
    WindowStartIs(l, now, if now < l.window * q + l.window then q else q + 1);
  }

  lemma WindowStartIs(l: RateLimiter, now: u64, q: nat)
    requires l.Valid() && l.window * q <= now < l.window * q + l.window
    ensures l.WindowStart(now) == l.window * q
  {
    QuotientIs(now, l.window, q, now - l.window * q);
  }

  lemma {:induction false} SpanIsCovered(requests: seq<Request>, user: string, from: u64, length: nat, l: RateLimiter)
    requires l.Valid() && length <= l.window
    ensures
      var start := l.WindowStart(from);
      InSpan(requests, user, from, length) <=
        InWindow(requests, (user, start), l) + if start + l.window <= U64_MAX
          then InWindow(requests, (user, start + l.window), l) else 0
    decreases |requests|
  {
    if requests != [] {
      var last := requests[|requests| - 1];
      SpanIsCovered(requests[..|requests| - 1], user, from, length, l);
      if from <= last.now < from + length {
        SpanMeetsTwoWindows(l, from, last.now);
      }
    }
  }

  /** In every run, over any span no longer than the window, a user's accepted requests never exceed
      twice the limit. */
  lemma SpansAreLimited(trace: seq<Action>, l: RateLimiter, user: string, from: u64, length: nat)
    requires l.Valid() && length <= l.window
    ensures InSpan(Run(trace, l).accepted, user, from, length) <= 2 * l.limit
  {
    hide InSpan, InWindow;
    RunKeepsInv(trace, l);
    SpanIsCovered(Run(trace, l).accepted, user, from, length, l);
  }

  lemma {:induction false} InstantIsCovered(requests: seq<Request>, user: string, now: u64, l: RateLimiter)
    requires l.Valid()
    ensures InSpan(requests, user, now, 1) <= InWindow(requests, (user, l.WindowStart(now)), l)
    decreases |requests|
  {
    if requests != [] {
      InstantIsCovered(requests[..|requests| - 1], user, now, l);
    }
  }

  /** A single second, and so a window of one second, takes the limit once. */
  lemma SecondsAreLimited(trace: seq<Action>, l: RateLimiter, user: string, now: u64)
    requires l.Valid()
    ensures InSpan(Run(trace, l).accepted, user, now, 1) <= l.limit
  {
    hide InSpan, InWindow;
    RunKeepsInv(trace, l);
    InstantIsCovered(Run(trace, l).accepted, user, now, l);
  }

  /** A request whose window has room, answered at once, is accepted. */
  lemma RoomIsUsed(s: State, id: nat, r: Request, l: RateLimiter)
    requires l.Valid() && id !in s.waiting && CountOf(s.rows, KeyOf(l, r)) < l.limit
    ensures
      var after := Next(Next(s, Arrive(id, r.user, r.now), l), Update(id, Answered), l);
      && after.accepted == s.accepted + [r] && after.waiting == s.waiting
      && CountOf(after.rows, KeyOf(l, r)) == CountOf(s.rows, KeyOf(l, r)) + 1
      && forall k :: k != KeyOf(l, r) ==> CountOf(after.rows, k) == CountOf(s.rows, k)
  {
    hide KeyOf;
    assert s.waiting[id := r] - {id} == s.waiting;
  }

  lemma RunTwoMore(trace: seq<Action>, a: Action, b: Action, l: RateLimiter)
    requires l.Valid()
    ensures Run(trace + [a, b], l) == Next(Next(Run(trace, l), a, l), b, l)
  {
    hide Next;
    assert (trace + [a, b])[..|trace| + 1] == trace + [a] && (trace + [a])[..|trace|] == trace;
  }

  /** `n` requests of a user at one instant, each answered at once. */
  function Burst(user: string, now: u64, n: nat): seq<Action> {
    if n == 0 then [] else Burst(user, now, n - 1) + [Arrive(0, user, now), Update(0, Answered)]
  }

  function Repeated(r: Request, n: nat): seq<Request> {
    if n == 0 then [] else Repeated(r, n - 1) + [r]
  }

  /** A burst within the limit on an empty window is accepted whole. */
  lemma {:induction false} BurstIsAccepted(trace: seq<Action>, l: RateLimiter, r: Request, n: nat)
    requires l.Valid() && n <= l.limit
    requires Run(trace, l).waiting == map[] && CountOf(Run(trace, l).rows, KeyOf(l, r)) == 0
    ensures
      var s, after := Run(trace, l), Run(trace + Burst(r.user, r.now, n), l);
      && after.accepted == s.accepted + Repeated(r, n) && after.waiting == map[]
      && CountOf(after.rows, KeyOf(l, r)) == n
      && forall k :: k != KeyOf(l, r) ==> CountOf(after.rows, k) == CountOf(s.rows, k)
    decreases n
  {
    hide Next, Run, KeyOf;
    if n == 0 {
      assert trace + [] == trace;
    } else {
      BurstIsAccepted(trace, l, r, n - 1);
      var before := trace + Burst(r.user, r.now, n - 1);
      var a, b := Arrive(0, r.user, r.now), Update(0, Answered);
      assert trace + Burst(r.user, r.now, n) == before + [a, b];
      RunTwoMore(before, a, b, l);
      RoomIsUsed(Run(before, l), 0, r, l);
    }
  }

  lemma {:induction false} RepeatedInSpan(requests: seq<Request>, r: Request, n: nat, from: nat, length: nat)
    requires from <= r.now < from + length
    ensures InSpan(requests + Repeated(r, n), r.user, from, length) == InSpan(requests, r.user, from, length) + n
    decreases n
  {
    var all := requests + Repeated(r, n);
    if n == 0 {
      assert all == requests;
    } else {
      RepeatedInSpan(requests, r, n - 1, from, length);
      assert all[..|all| - 1] == requests + Repeated(r, n - 1);
    }
  }

  /** The bound is tight for every limit and every window of at least two seconds: two seconds around
      a window's edge can take twice the limit. */
  lemma TwiceTheLimitIsReached(l: RateLimiter, user: string)
    requires l.Valid() && l.window >= 2
    ensures
      var trace := Burst(user, l.window - 1, l.limit) + Burst(user, l.window, l.limit);
      InSpan(Run(trace, l).accepted, user, l.window - 1, 2) == 2 * l.limit
  {
    hide Next, Run, InSpan, CountOf, KeyOf, Burst, Repeated;
    var first, second := Request(user, l.window - 1), Request(user, l.window);
    EdgeOfWindow(l, first, second);
    NothingYet(l, first);
    var early := Burst(user, l.window - 1, l.limit);
    BurstIsAccepted([], l, first, l.limit);
    assert [] + early == early;
    NothingYet(l, second);
    BurstIsAccepted(early, l, second, l.limit);
    RepeatedInSpan([], first, l.limit, l.window - 1, 2);
    RepeatedInSpan([] + Repeated(first, l.limit), second, l.limit, l.window - 1, 2);
  }

  lemma EdgeOfWindow(l: RateLimiter, first: Request, second: Request)
    requires l.Valid() && l.window >= 2 && first.now == l.window - 1 && second.now == l.window
    ensures KeyOf(l, first) != KeyOf(l, second)
  {
    hide RateLimiter.WindowStart;
    WindowStartIs(l, first.now, 0);
    WindowStartIs(l, second.now, 1);
  }

  lemma NothingYet(l: RateLimiter, r: Request)
    requires l.Valid()
    ensures Run([], l) == START && START.waiting == map[] && START.accepted == [] &&
            CountOf(START.rows, KeyOf(l, r)) == 0
    ensures InSpan([], r.user, l.window - 1, 2) == 0
  {
  }
}
