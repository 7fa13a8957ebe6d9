/** `JsonKeyLimitReader` (`openai_request.rs`): a byte-level scanner in front of the JSON parser that
    stops on deep nesting and long keys. */
module JsonGuard {
  import opened Prelude
  import opened JsonGrammar

  const MAX_KEY_BYTES: nat := 8 * 1024
  const MAX_NESTING_DEPTH: nat := 128

  datatype Container = InArray | InObject(expectingKey: bool)

  datatype Scan = Scan(containers: seq<Container>, escaped: bool, inKey: bool, inString: bool, keyBytes: nat)

  const START := Scan([], false, false, false, 0)

  /** The scanner either goes on or has stopped with an error; either way its fields are `scan`. */
  datatype Verdict = Going(scan: Scan) | Stopped(scan: Scan)

  predicate ExpectsKey(containers: seq<Container>) {
    containers != [] && containers[|containers| - 1] == InObject(true)
  }

  function WithTop(containers: seq<Container>, expectingKey: bool): seq<Container> {
    if containers != [] && containers[|containers| - 1].InObject?
    then containers[..|containers| - 1] + [InObject(expectingKey)]
    else containers
  }

  function Pushed(s: Scan, c: Container): Verdict {
    if |s.containers| >= MAX_NESTING_DEPTH then Stopped(s) else Going(s.(containers := s.containers + [c]))
  }

  function Counted(s: Scan): Verdict {
    if !s.inKey then Going(s)
    else if s.keyBytes + 1 > MAX_KEY_BYTES then Stopped(s.(keyBytes := s.keyBytes + 1))
    else Going(s.(keyBytes := s.keyBytes + 1))
  }

  function InStringStep(s: Scan, b: byte): Verdict {
    if s.escaped then Counted(s.(escaped := false))
    else if b == BACKSLASH then Counted(s.(escaped := true))
    else if b == QUOTE then Going(s.(inString := false, inKey := false))
    else Counted(s)
  }

  function Step(s: Scan, b: byte): Verdict {
    if s.inString then InStringStep(s, b)
    else if b == QUOTE then Going(s.(inString := true, inKey := ExpectsKey(s.containers), keyBytes := 0))
    else if b == OPEN_BRACE then Pushed(s, InObject(true))
    else if b == OPEN_BRACKET then Pushed(s, InArray)
    else if b == CLOSE_BRACE || b == CLOSE_BRACKET then
      Going(if s.containers == [] then s else s.(containers := s.containers[..|s.containers| - 1]))
    else if b == COLON then Going(s.(containers := WithTop(s.containers, false)))
    else if b == COMMA then Going(s.(containers := WithTop(s.containers, true)))
    else Going(s)
  }

  function ScanBytes(s: Scan, bytes: Bytes): Verdict
    decreases |bytes|
  {
    if bytes == [] then Going(s)
    else
      match Step(s, bytes[0])
      case Going(next) => ScanBytes(next, bytes[1..])
      case Stopped(at) => Stopped(at)
  }

  function Then(v: Verdict, bytes: Bytes): Verdict {
    match v
    case Going(s) => ScanBytes(s, bytes)
    case Stopped(_) => v
  }

  /** Where the input is cut does not matter. */
  lemma {:induction false} ScanSplits(s: Scan, a: Bytes, b: Bytes)
    ensures ScanBytes(s, a + b) == Then(ScanBytes(s, a), b)
    decreases |a|
  {
    if a == [] {
      assert a + b == b;
    } else {
      assert (a + b)[0] == a[0] && (a + b)[1..] == a[1..] + b;
      match Step(s, a[0])
      case Going(next) => ScanSplits(next, a[1..], b);
      case Stopped(_) =>
    }
  }

  lemma ScanOne(s: Scan, b: byte)
    ensures ScanBytes(s, [b]) == Step(s, b)
  {
    assert [b][1..] == [];
  }

  lemma {:induction false} StoppedStays(s: Scan, a: Bytes, b: Bytes)
    requires ScanBytes(s, a).Stopped?
    ensures ScanBytes(s, a + b).Stopped?
  {
    ScanSplits(s, a, b);
  }

  // The scanner on well-formed pieces

  predicate Idle(s: Scan) {
    !s.inString && !s.escaped && !s.inKey
  }

  /** The bytes the scanner reacts to outside strings. */
  predicate IsPlain(b: byte) {
    b !in {QUOTE, OPEN_BRACE, CLOSE_BRACE, OPEN_BRACKET, CLOSE_BRACKET, COLON, COMMA}
  }

  predicate ArePlain(bytes: Bytes) {
    forall i :: 0 <= i < |bytes| ==> IsPlain(bytes[i])
  }

  lemma PlainAppend(a: Bytes, b: Bytes)
    requires ArePlain(a) && ArePlain(b)
    ensures ArePlain(a + b)
  {
  }

  lemma FractionsArePlain(frac: Bytes)
    requires IsFraction(frac)
    ensures ArePlain(frac)
  {
    if frac != [] {
      assert frac == [frac[0]] + frac[1..];
    }
  }

  lemma ExponentsArePlain(exp: Bytes)
    requires IsExponent(exp)
    ensures ArePlain(exp)
  {
    if exp != [] {
      assert exp == exp[..1] + (if exp[1] in {PLUS, MINUS} then [exp[1]] + exp[2..] else exp[1..]);
    }
  }

  lemma NumbersArePlain(text: Bytes)
    requires IsNumber(text)
    ensures ArePlain(text)
  {
    hide ArePlain, IsFraction, IsExponent;
    var sign: Bytes, whole: Bytes, frac: Bytes, exp: Bytes :|
      text == sign + whole + frac + exp && sign in {[], [MINUS]} && IsInteger(whole) && IsFraction(frac) &&
        IsExponent(exp);
    IntegersArePlain(sign, whole);
    FractionsArePlain(frac);
    ExponentsArePlain(exp);
    PlainAppend(sign, whole);
    PlainAppend(sign + whole, frac);
    PlainAppend(sign + whole + frac, exp);
  }

  lemma IntegersArePlain(sign: Bytes, whole: Bytes)
    requires sign in {[], [MINUS]} && IsInteger(whole)
    ensures ArePlain(sign) && ArePlain(whole)
  {
  }

  lemma ScalarsArePlain(text: Bytes)
    requires IsScalar(text)
    ensures ArePlain(text)
  {
    hide IsNumber;
    if IsNumber(text) {
      NumbersArePlain(text);
    }
  }

  lemma {:induction false} ScanPlain(s: Scan, bytes: Bytes)
    requires Idle(s) && ArePlain(bytes)
    ensures ScanBytes(s, bytes) == Going(s)
    decreases |bytes|
  {
    if bytes != [] {
      ScanPlain(s, bytes[1..]);
    }
  }

  function Counting(s: Scan, n: nat): Scan {
    s.(keyBytes := if s.inKey then s.keyBytes + n else s.keyBytes)
  }

  predicate WithinKeyLimit(s: Scan, n: nat) {
    s.inKey ==> s.keyBytes + n <= MAX_KEY_BYTES
  }

  /** Inside a string only the raw length matters, escapes included. */
  lemma {:induction false} ScanText(s: Scan, raw: Bytes)
    requires s.inString && !s.escaped && IsText(raw) && WithinKeyLimit(s, 0)
    ensures WithinKeyLimit(s, |raw|) ==> ScanBytes(s, raw) == Going(Counting(s, |raw|))
    ensures !WithinKeyLimit(s, |raw|) ==> ScanBytes(s, raw).Stopped?
    decreases |raw|
  {
    if raw != [] {
      var n := if raw[0] != BACKSLASH then 1 else if raw[1] == LOWER_U then 6 else 2;
      var head, tail := raw[..n], raw[n..];
      assert raw == head + tail;
      ScanSplits(s, head, tail);
      ScanPiece(s, head);
      if WithinKeyLimit(s, n) {
        ScanText(Counting(s, n), tail);
      }
    }
  }

  /** One character of a string, escaped or not. */
  lemma ScanPiece(s: Scan, piece: Bytes)
    requires s.inString && !s.escaped && WithinKeyLimit(s, 0) && piece != []
    requires if piece[0] == BACKSLASH
             then |piece| >= 2 && forall i :: 2 <= i < |piece| ==> IsHex(piece[i])
             else |piece| == 1 && piece[0] != QUOTE
    requires |piece| <= 6
    ensures WithinKeyLimit(s, |piece|) ==> ScanBytes(s, piece) == Going(Counting(s, |piece|))
    ensures !WithinKeyLimit(s, |piece|) ==> ScanBytes(s, piece).Stopped?
  {
    hide ScanBytes;
    if |piece| == 1 {
      ScanOne(s, piece[0]);
      assert piece == [piece[0]];
    } else {
      var open, rest := piece[..1], piece[1..];
      assert piece == open + rest && open == [BACKSLASH] && rest == [piece[1]] + piece[2..];
      ScanSplits(s, open, rest);
      ScanOne(s, BACKSLASH);
      if WithinKeyLimit(s, 1) {
        var escaped := Counting(s, 1).(escaped := true);
        ScanSplits(escaped, [piece[1]], piece[2..]);
        ScanOne(escaped, piece[1]);
        if WithinKeyLimit(s, 2) {
          ScanHex(Counting(s, 2), piece[2..]);
        }
      }
    }
  }

  lemma {:induction false} ScanHex(s: Scan, hex: Bytes)
    requires s.inString && !s.escaped && WithinKeyLimit(s, 0) && forall i :: 0 <= i < |hex| ==> IsHex(hex[i])
    ensures WithinKeyLimit(s, |hex|) ==> ScanBytes(s, hex) == Going(Counting(s, |hex|))
    ensures !WithinKeyLimit(s, |hex|) ==> ScanBytes(s, hex).Stopped?
    decreases |hex|
  {
    if hex != [] && WithinKeyLimit(s, 1) {
      ScanHex(Counting(s, 1), hex[1..]);
    }
  }

  /** A whole string: in key position it is accepted exactly within the key limit. */
  lemma ScanQuoted(s: Scan, raw: Bytes)
    requires Idle(s) && IsText(raw)
    ensures ExpectsKey(s.containers) && |raw| > MAX_KEY_BYTES ==> ScanBytes(s, Quoted(raw)).Stopped?
    ensures !(ExpectsKey(s.containers) && |raw| > MAX_KEY_BYTES) ==>
              var v := ScanBytes(s, Quoted(raw));
              v.Going? && Idle(v.scan) && v.scan.containers == s.containers
  {
    var inside := s.(inString := true, inKey := ExpectsKey(s.containers), keyBytes := 0);
    assert Quoted(raw) == [QUOTE] + (raw + [QUOTE]);
    ScanSplits(s, [QUOTE], raw + [QUOTE]);
    ScanOne(s, QUOTE);
    ScanSplits(inside, raw, [QUOTE]);
    ScanText(inside, raw);
    if WithinKeyLimit(inside, |raw|) {
      ScanOne(Counting(inside, |raw|), QUOTE);
    }
  }

  // Values, by induction on the text

  predicate FitsIn(depth: nat, longestKey: nat, s: Scan) {
    |s.containers| + depth <= MAX_NESTING_DEPTH && longestKey <= MAX_KEY_BYTES
  }

  predicate EndsIdle(v: Verdict, containers: seq<Container>) {
    v.Going? && Idle(v.scan) && v.scan.containers == containers
  }

  lemma {:induction false} ScanValue(s: Scan, v: Json)
    requires IsJson(v) && Idle(s) && !ExpectsKey(s.containers) && |s.containers| <= MAX_NESTING_DEPTH
    ensures FitsIn(Depth(v), LongestKey(v), s) ==> EndsIdle(ScanBytes(s, Render(v)), s.containers)
    ensures !FitsIn(Depth(v), LongestKey(v), s) ==> ScanBytes(s, Render(v)).Stopped?
    decreases v
  {
    match v
    case Scalar(text) =>
      ScalarsArePlain(text);
      ScanPlain(s, text);
    case Text(raw) => ScanQuoted(s, raw);
    case Array(gap, items) =>
      var inner := if items.NoItems? then gap else RenderItems(items);
      OpenAndClose(s, OPEN_BRACKET, inner, CLOSE_BRACKET);
      if |s.containers| < MAX_NESTING_DEPTH {
        var inside := s.(containers := s.containers + [InArray]);
        if items.NoItems? {
          assert ItemsDepth(items) == 0 && ItemsLongestKey(items) == 0;
          ScanPlain(inside, gap);
        } else {
          ScanItems(inside, items);
        }
      }
    case Object(gap, members) =>
      var inner := if members.NoMembers? then gap else RenderMembers(members);
      OpenAndClose(s, OPEN_BRACE, inner, CLOSE_BRACE);
      if |s.containers| < MAX_NESTING_DEPTH {
        var inside := s.(containers := s.containers + [InObject(true)]);
        if members.NoMembers? {
          assert MembersDepth(members) == 0 && MembersLongestKey(members) == 0;
          ScanPlain(inside, gap);
        } else {
          ScanMembers(inside, s.containers, members);
        }
      }
  }

  /** A container: a push, what is inside, and a pop. */
  lemma OpenAndClose(s: Scan, open: byte, inner: Bytes, close: byte)
    requires Idle(s) && open in {OPEN_BRACE, OPEN_BRACKET} && close in {CLOSE_BRACE, CLOSE_BRACKET}
    ensures
      var text := [open] + inner + [close];
      var inside := s.(containers := s.containers + [if open == OPEN_BRACE then InObject(true) else InArray]);
      && (|s.containers| >= MAX_NESTING_DEPTH ==> ScanBytes(s, text).Stopped?)
      && (|s.containers| < MAX_NESTING_DEPTH ==>
            && (ScanBytes(inside, inner).Stopped? ==> ScanBytes(s, text).Stopped?)
            && (forall top :: EndsIdle(ScanBytes(inside, inner), s.containers + [top]) ==>
                EndsIdle(ScanBytes(s, text), s.containers)))
  {
    hide ScanBytes;
    assert [open] + inner + [close] == [open] + (inner + [close]);
    ScanSplits(s, [open], inner + [close]);
    ScanOne(s, open);
    if |s.containers| < MAX_NESTING_DEPTH {
      var inside := s.(containers := s.containers + [if open == OPEN_BRACE then InObject(true) else InArray]);
      ScanSplits(inside, inner, [close]);
      var v := ScanBytes(inside, inner);
      ScanOne(v.scan, close);
      forall top | EndsIdle(v, s.containers + [top])
        ensures EndsIdle(ScanBytes(s, [open] + inner + [close]), s.containers)
      {
        assert (s.containers + [top])[..|s.containers|] == s.containers;
      }
    }
  }

  lemma {:induction false} ScanItems(s: Scan, items: Items)
    requires AreItems(items) && items.Item? && Idle(s) && |s.containers| <= MAX_NESTING_DEPTH
    requires s.containers != [] && s.containers[|s.containers| - 1] == InArray
    ensures FitsIn(ItemsDepth(items), ItemsLongestKey(items), s) ==>
            EndsIdle(ScanBytes(s, RenderItems(items)), s.containers)
    ensures !FitsIn(ItemsDepth(items), ItemsLongestKey(items), s) ==> ScanBytes(s, RenderItems(items)).Stopped?
    decreases items
  {
    hide ScanBytes;
    var Item(before, value, after, rest) := items;
    var tail := if rest.NoItems? then [] else [COMMA] + RenderItems(rest);
    ScanSplits(s, before, Render(value) + (after + tail));
    ScanPlain(s, before);
    ScanSplits(s, Render(value), after + tail);
    ScanValue(s, value);
    if FitsIn(Depth(value), LongestKey(value), s) {
      var s1 := ScanBytes(s, Render(value)).scan;
      ScanSplits(s1, after, tail);
      ScanPlain(s1, after);
      if rest.Item? {
        ScanSplits(s1, [COMMA], RenderItems(rest));
        ScanOne(s1, COMMA);
        ScanItems(s1, rest);
      } else {
        assert ItemsDepth(rest) == 0 && ItemsLongestKey(rest) == 0;
        assert after + tail == after;
      }
    }
  }

  /** The members of an object whose enclosing containers are `outer`. */
  lemma {:induction false} ScanMembers(s: Scan, outer: seq<Container>, members: Members)
    requires AreMembers(members) && members.Member? && Idle(s) && |s.containers| <= MAX_NESTING_DEPTH
    requires s.containers == outer + [InObject(true)]
    ensures FitsIn(MembersDepth(members), MembersLongestKey(members), s) ==>
              EndsIdle(ScanBytes(s, RenderMembers(members)), outer + [InObject(false)])
    ensures !FitsIn(MembersDepth(members), MembersLongestKey(members), s) ==>
            ScanBytes(s, RenderMembers(members)).Stopped?
    decreases members
  {
    hide ScanBytes;
    var Member(before, key, afterKey, beforeValue, value, after, rest) := members;
    var tail := if rest.NoMembers? then [] else [COMMA] + RenderMembers(rest);
    ScanKey(s, outer, before, key, afterKey, beforeValue + (Render(value) + (after + tail)));
    if |key| <= MAX_KEY_BYTES {
      var s1 := AfterKey(s, outer, before, key, afterKey);
      ScanSplits(s1, beforeValue, Render(value) + (after + tail));
      ScanPlain(s1, beforeValue);
      ScanSplits(s1, Render(value), after + tail);
      ScanValue(s1, value);
      if FitsIn(Depth(value), LongestKey(value), s1) {
        var s2 := ScanBytes(s1, Render(value)).scan;
        ScanSplits(s2, after, tail);
        ScanPlain(s2, after);
        if rest.Member? {
          var s3 := s2.(containers := outer + [InObject(true)]);
          ScanSplits(s2, [COMMA], RenderMembers(rest));
          ScanOne(s2, COMMA);
          assert WithTop(s2.containers, true) == s3.containers;
          ScanMembers(s3, outer, rest);
        } else {
          assert MembersDepth(rest) == 0 && MembersLongestKey(rest) == 0;
          assert after + tail == after;
        }
      }
    }
  }

  function AfterKey(s: Scan, outer: seq<Container>, before: Bytes, key: Bytes, afterKey: Bytes): Scan {
    ScanBytes(s, before + Quoted(key) + afterKey + [COLON]).scan
  }

  /** A key and its colon leave the object expecting a value, or the key is too long. */
  lemma ScanKey(s: Scan, outer: seq<Container>, before: Bytes, key: Bytes, afterKey: Bytes, tail: Bytes)
    requires Idle(s) && s.containers == outer + [InObject(true)]
    requires IsWhitespace(before) && IsText(key) && IsWhitespace(afterKey)
    ensures
      var text := before + (Quoted(key) + (afterKey + ([COLON] + tail)));
      var next := AfterKey(s, outer, before, key, afterKey);
      if |key| <= MAX_KEY_BYTES
      then ScanBytes(s, text) == ScanBytes(next, tail) && Idle(next) && next.containers == outer + [InObject(false)]
      else ScanBytes(s, text).Stopped?
  {
    hide ScanBytes;
    var head := before + Quoted(key) + afterKey + [COLON];
    assert before + (Quoted(key) + (afterKey + ([COLON] + tail))) == head + tail;
    assert head == before + (Quoted(key) + (afterKey + [COLON]));
    ScanSplits(s, head, tail);
    ScanSplits(s, before, Quoted(key) + (afterKey + [COLON]));
    ScanPlain(s, before);
    ScanSplits(s, Quoted(key), afterKey + [COLON]);
    ScanQuoted(s, key);
    if |key| <= MAX_KEY_BYTES {
      var s1 := ScanBytes(s, Quoted(key)).scan;
      ScanSplits(s1, afterKey, [COLON]);
      ScanPlain(s1, afterKey);
      ScanOne(s1, COLON);
      assert WithTop(s1.containers, false) == outer + [InObject(false)];
    }
  }

  /** On every well-formed text the scanner accepts exactly when nesting is at most 128 and every key
      is at most 8192 raw bytes, and then it ends outside any string with nothing open. */
  lemma AcceptsWithinLimits(d: Document)
    requires IsDocument(d)
    ensures
      var v := ScanBytes(START, RenderDocument(d));
      if Depth(d.value) <= MAX_NESTING_DEPTH && LongestKey(d.value) <= MAX_KEY_BYTES
      then v.Going? && Idle(v.scan) && v.scan.containers == []
      else v.Stopped?
  {
    ScanSplits(START, d.before, Render(d.value) + d.after);
    ScanPlain(START, d.before);
    ScanSplits(START, Render(d.value), d.after);
    ScanValue(START, d.value);
    if FitsIn(Depth(d.value), LongestKey(d.value), START) {
      ScanPlain(ScanBytes(START, Render(d.value)).scan, d.after);
    }
  }

  // The reader

  class JsonKeyLimitReader {
    var containers: seq<Container>
    var escaped: bool
    var inKey: bool
    var inString: bool
    var keyBytes: nat

    constructor ()
      ensures State() == START
    {
      containers, escaped, inKey, inString, keyBytes := [], false, false, false, 0;
    }

    function State(): Scan
      reads this
    {
      Scan(containers, escaped, inKey, inString, keyBytes)
    }

    /** `push_container` */
    method PushContainer(container: Container) returns (ok: bool)
      modifies this`containers
      ensures Pushed(old(State()), container) == if ok then Going(State()) else Stopped(State())
    {
      if |containers| >= MAX_NESTING_DEPTH {
        return false;
      }
      containers := containers + [container];
      return true;
    }

    /** `inspect` */
    method Inspect(bytes: Bytes) returns (ok: bool)
      modifies this
      ensures ScanBytes(old(State()), bytes) == if ok then Going(State()) else Stopped(State())
    {
      for i := 0 to |bytes|
        invariant ScanBytes(old(State()), bytes) == ScanBytes(State(), bytes[i..])
      {
        label step:
        var b := bytes[i];
        assert bytes[i..][0] == b && bytes[i..][1..] == bytes[i + 1..];
        if inString {
          var closed := false;
          if escaped {
            escaped := false;
          } else if b == BACKSLASH {
            escaped := true;
          } else if b == QUOTE {
            inString := false;
            inKey := false;
            closed := true;
          }
          if !closed && inKey {
            keyBytes := keyBytes + 1;
            if keyBytes > MAX_KEY_BYTES {
              return false;
            }
          }
        } else if b == QUOTE {
          inString := true;
          inKey := ExpectsKey(containers);
          keyBytes := 0;
        } else if b == OPEN_BRACE {
          ok := PushContainer(InObject(true));
          if !ok {
            return false;
          }
        } else if b == OPEN_BRACKET {
          ok := PushContainer(InArray);
          if !ok {
            return false;
          }
        } else if b == CLOSE_BRACE || b == CLOSE_BRACKET {
          if containers != [] {
            containers := containers[..|containers| - 1];
          }
        } else if b == COLON {
          containers := WithTop(containers, false);
        } else if b == COMMA {
          containers := WithTop(containers, true);
        }
        assert Step(old@step(State()), b) == Going(State());
      }
      assert bytes[|bytes|..] == [];
      return true;
    }

    /** A document read in any chunks: accepted exactly within the limits. */
    method ReadDocument(chunks: seq<Bytes>, ghost d: Document) returns (ok: bool)
      requires State() == START && IsDocument(d) && Flatten(chunks) == RenderDocument(d)
      modifies this
      ensures ok <==> Depth(d.value) <= MAX_NESTING_DEPTH && LongestKey(d.value) <= MAX_KEY_BYTES
      ensures ok ==> containers == [] && !inString && !escaped && !inKey
    {
      AcceptsWithinLimits(d);
      assert chunks[..|chunks|] == chunks;
      for i := 0 to |chunks|
        invariant ScanBytes(START, Flatten(chunks[..i])) == Going(State())
      {
        ghost var before := State();
        var accepted := Inspect(chunks[i]);
        assert chunks[..i + 1][..i] == chunks[..i];
        ScanSplits(START, Flatten(chunks[..i]), chunks[i]);
        if !accepted {
          FlattenAppend(chunks[..i + 1], chunks[i + 1..]);
          assert chunks == chunks[..i + 1] + chunks[i + 1..];
          StoppedStays(START, Flatten(chunks[..i + 1]), Flatten(chunks[i + 1..]));
          return false;
        }
      }
      return true;
    }
  }
}
