/** Pieces, pacing and limits of the mock servers' streams (`mock_stream.rs`, `mock_control.rs`). */
module MockStreams {
  import opened Prelude

  // Splitting a text

  /** Where piece `i` of `n` begins: the first `length % n` pieces are one longer than the others. */
  function PieceStart(length: nat, n: nat, i: nat): nat
    requires n >= 1
  {
    i * (length / n) + Min(i, length % n)
  }

  lemma PieceBounds(length: nat, n: nat, i: nat)
    requires n >= 1 && i < n
    ensures PieceStart(length, n, i + 1) == PieceStart(length, n, i) + length / n + (if i < length % n then 1 else 0)
    ensures PieceStart(length, n, i) <= PieceStart(length, n, i + 1) <= length
    ensures PieceStart(length, n, n) == length && PieceStart(length, n, 0) == 0
  {
    var base, larger := length / n, length % n;
    assert length == n * base + larger;
    Distribute(i, base);
    Scale(i + 1, n, base);
  }

  lemma Distribute(i: nat, base: nat)
    ensures (i + 1) * base == i * base + base
  {
  }

  lemma Scale(i: nat, n: nat, base: nat)
    requires i <= n
    ensures i * base <= n * base
  {
  }

  /** `split_text`: `n` pieces that are the text again when put together, none more than one
      character longer than another. */
  method SplitText(text: string, chunkCount: nat) returns (chunks: seq<string>)
    requires chunkCount >= 1
    ensures |chunks| == chunkCount && Flatten(chunks) == text
    ensures forall i, j :: 0 <= i < j < chunkCount ==> |chunks[j]| <= |chunks[i]| <= |chunks[j]| + 1
  {
    hide PieceStart;
    var baseChunkSize := |text| / chunkCount;
    var largerChunkCount := |text| % chunkCount;
    var offset := 0;
    chunks := [];
    PieceBounds(|text|, chunkCount, 0);
    for index := 0 to chunkCount
      invariant |chunks| == index && offset == PieceStart(|text|, chunkCount, index) <= |text|
      invariant Flatten(chunks) == text[..offset]
      invariant forall i :: 0 <= i < index ==> |chunks[i]| == baseChunkSize + (if i < largerChunkCount then 1 else 0)
    {
      PieceBounds(|text|, chunkCount, index);
      var chunkSize := baseChunkSize + (if index < largerChunkCount then 1 else 0);
      var chunk := text[offset..offset + chunkSize];
      assert text[..offset + chunkSize] == text[..offset] + chunk;
      assert (chunks + [chunk])[..index] == chunks;
      chunks := chunks + [chunk];
      offset := offset + chunkSize;
    }
    PieceBounds(|text|, chunkCount, 0);
  }

  // Splitting the tool input

  function CeilingDiv(a: nat, b: nat): nat
    requires b >= 1
  {
    (a + b - 1) / b
  }

  /** `ceil(len / ceil(len / n)) <= n`: chunks of the rounded-up size never outnumber `n`. */
  lemma ChunksFit(length: nat, n: nat)
    requires length >= 1 && n >= 1
    ensures CeilingDiv(length, n) >= 1 && CeilingDiv(length, CeilingDiv(length, n)) <= n
    ensures n * CeilingDiv(length, n) >= length
  {
    CeilingBounds(length, n);
    var size := CeilingDiv(length, n);
    assert n * 0 == 0;
    CeilingBounds(length, size);
    AtMost(CeilingDiv(length, size), n, size);
  }

  lemma AtMost(count: nat, n: nat, size: nat)
    requires size * count < n * size + size
    ensures count <= n
  {
    if count > n {
      Distribute(n, size);
      Scale(n + 1, count, size);
    }
  }

  lemma CeilingBounds(a: nat, b: nat)
    requires b >= 1
    ensures a <= b * CeilingDiv(a, b) < a + b
  {
    var x := a + b - 1;
    assert x == b * (x / b) + x % b;
  }

  /** `Vec::resize` */
  function Resized<T>(s: seq<T>, n: nat, fill: T): seq<T> {
    if |s| >= n then s[..n] else s + seq(n - |s|, i => fill)
  }

  lemma {:induction false} FlattenPadding(s: seq<string>, k: nat)
    ensures Flatten(s + seq(k, i => "")) == Flatten(s)
    decreases k
  {
    var padded := s + seq(k, i => "");
    if k == 0 {
      assert padded == s;
    } else {
      assert padded[..|padded| - 1] == s + seq(k - 1, i => "");
      FlattenPadding(s, k - 1);
    }
  }

  /** `split_tool_input`: the resizing never drops a piece. */
  method SplitToolInput(text: string, chunkCount: nat) returns (chunks: seq<string>)
    requires text != [] && chunkCount >= 1
    ensures |chunks| == chunkCount && Flatten(chunks) == text
    ensures forall c :: c in chunks ==> |c| <= CeilingDiv(|text|, chunkCount)
  {
    ChunksFit(|text|, chunkCount);
    hide CeilingDiv;
    var chunkSize := CeilingDiv(|text|, chunkCount);
    var offset := 0;
    chunks := [];
    while offset < |text|
      invariant offset == Min(|chunks| * chunkSize, |text|)
      invariant Flatten(chunks) == text[..offset]
      invariant forall c :: c in chunks ==> |c| <= chunkSize
      invariant |chunks| <= chunkCount
      decreases |text| - offset
    {
      Scale(|chunks| + 1, chunkCount + 1, chunkSize);
      Distribute(|chunks|, chunkSize);
      assert |chunks| < chunkCount by {
        if |chunks| == chunkCount {
          assert false;
        }
      }
      var end := Min(offset + chunkSize, |text|);
      var chunk := text[offset..end];
      assert text[..end] == text[..offset] + chunk;
      assert (chunks + [chunk])[..|chunks|] == chunks;
      chunks := chunks + [chunk];
      offset := end;
    }
    FlattenPadding(chunks, chunkCount - |chunks|);
    assert text[..|text|] == text;
    assert Resized(chunks, chunkCount, "") == chunks + seq(chunkCount - |chunks|, i => "");
    chunks := Resized(chunks, chunkCount, "");
  }

  // Control headers

  /** A header as read: absent, not a number, or a number that fits. */
  datatype Header = Absent | Malformed | Number(n: u64)

  datatype ResponseType = Text | ToolUse

  datatype Control = Control(chunkCount: nat, chunkDelayMs: nat, responseType: ResponseType, errorAfter: Option<nat>)

  const DEFAULT_CHUNK_COUNT: nat := 2
  const MAX_CHUNK_COUNT: nat := 10_000
  const MAX_CHUNK_DELAY_MS: nat := 60_000
  const MAX_STREAM_DURATION_MS: nat := 60 * 60 * 1_000
  const MAX_TOKEN_COUNT: nat := 1_000_000_000

  function Bounded(h: Header, default: u64, minimum: u64, maximum: u64): Option<u64> {
    match h
    case Absent => Some(default)
    case Malformed => None
    case Number(n) => if minimum <= n <= maximum then Some(n) else None
  }

  /** `validate_stream_duration`, in checked arithmetic */
  function DurationIsValid(chunkCount: u64, delayMs: u64, overhead: u64): (ok: bool)
    ensures ok <==> (chunkCount + overhead) * delayMs <= MAX_STREAM_DURATION_MS && chunkCount + overhead <= U64_MAX
  {
    match CheckedAdd(chunkCount, overhead)
    case None => false
    case Some(events) =>
      match CheckedMul(events, delayMs)
      case None => false
      case Some(duration) => duration <= MAX_STREAM_DURATION_MS
  }

  function Given(h: Header, default: u64): u64 {
    if h.Number? then h.n else default
  }

  /** `MockControl::from_headers` */
  function FromHeaders(count: Header, errorAfter: Header, delay: Header, responseType: Option<ResponseType>,
                       overhead: u64):
    (r: Option<Control>)
    ensures
      var n, ms := Given(count, DEFAULT_CHUNK_COUNT), Given(delay, 0);
      r.Some? <==>
        && !count.Malformed? && !errorAfter.Malformed? && !delay.Malformed? && responseType.Some?
        && 1 <= n <= MAX_CHUNK_COUNT && ms <= MAX_CHUNK_DELAY_MS && Given(errorAfter, 0) <= n
        && n + overhead <= U64_MAX && (n + overhead) * ms <= MAX_STREAM_DURATION_MS
    ensures r.Some? ==>
              r.value == Control(Given(count, DEFAULT_CHUNK_COUNT), Given(delay, 0), responseType.value,
                                 if errorAfter.Number? then Some(errorAfter.n) else None)
  {
    var n := Bounded(count, DEFAULT_CHUNK_COUNT, 1, MAX_CHUNK_COUNT);
    if n.None? then None
    else
      var error := if errorAfter.Absent? then Some(0) else Bounded(errorAfter, 0, 0, n.value);
      var ms := Bounded(delay, 0, 0, MAX_CHUNK_DELAY_MS);
      if error.None? || ms.None? || !DurationIsValid(n.value, ms.value, overhead) || responseType.None? then None
      else Some(Control(n.value, ms.value, responseType.value, if errorAfter.Absent? then None else Some(error.value)))
  }

  // Pacing

  datatype Poll<T> = Pending | Ready(item: Option<T>)

  /** `DelayedByteStream`: one sleep before every event. */
  class DelayedByteStream {
    const delayMs: nat
    const all: seq<seq<byte>>
    var next: nat
    var sleeping: bool
    ghost var sleeps: nat

    ghost predicate Valid()
      reads this
    {
      && next <= |all|
      && (sleeping ==> next < |all|)
      && (if delayMs == 0 then sleeps == 0 && !sleeping else sleeps == next + (if sleeping then 1 else 0))
    }

    constructor (events: seq<seq<byte>>, delayMs: nat)
      ensures Valid() && all == events && this.delayMs == delayMs && next == 0
    {
      all := events;
      this.delayMs := delayMs;
      next := 0;
      sleeping := false;
      sleeps := 0;
    }

    /** `poll_next`; `elapsed` says whether the current sleep is over. Events come out in order, one
        sleep each, and never more sleeping than one delay for each event. */
    method PollNext(elapsed: bool) returns (r: Poll<seq<byte>>)
      requires Valid()
      modifies this
      ensures Valid() && sleeps * delayMs <= |all| * delayMs
      ensures r == Ready(None) <==> old(next) == |all|
      ensures r.Ready? && r.item.Some? ==> r.item == Some(all[old(next)]) && next == old(next) + 1
      ensures !(r.Ready? && r.item.Some?) ==> next == old(next)
      ensures r.Pending? <==> !elapsed && delayMs > 0 && old(next) < |all|
      ensures r.Pending? ==> sleeping
    {
      if next == |all| {
        Scale(sleeps, |all|, delayMs);
        return Ready(None);
      }
      Scale(if delayMs == 0 then 0 else next + 1, |all|, delayMs);
      if delayMs == 0 {
        next := next + 1;
        return Ready(Some(all[next - 1]));
      }
      if !sleeping {
        sleeps := sleeps + 1;
        sleeping := true;
      }
      if !elapsed {
        return Pending;
      }
      sleeping := false;
      next := next + 1;
      return Ready(Some(all[next - 1]));
    }
  }
}
