/** Server-sent event framing (`sse.rs`), as coded: five separators, and all leading whitespace of a
    data line is trimmed. */
module Sse {
  import opened Prelude

  const CR: byte := 13
  const LF: byte := 10

  const EVENT_SEPARATORS: seq<seq<byte>> := [[CR, LF, CR, LF], [CR, LF, LF], [LF, CR, LF], [LF, LF], [CR, CR]]

  predicate IsAt(separator: seq<byte>, b: seq<byte>, p: nat) {
    p + |separator| <= |b| && forall i :: 0 <= i < |separator| ==> b[p + i] == separator[i]
  }

  /** The length of the separator that starts at `p`, or 0. */
  function SeparatorLength(b: seq<byte>, p: nat): nat {
    if IsAt(EVENT_SEPARATORS[0], b, p) then 4
    else if IsAt(EVENT_SEPARATORS[1], b, p) then 3
    else if IsAt(EVENT_SEPARATORS[2], b, p) then 3
    else if IsAt(EVENT_SEPARATORS[3], b, p) then 2
    else if IsAt(EVENT_SEPARATORS[4], b, p) then 2
    else 0
  }

  /** No two separators start at the same place. */
  lemma SeparatorsAreUnambiguous(b: seq<byte>, p: nat, k: nat)
    requires k < 5 && IsAt(EVENT_SEPARATORS[k], b, p)
    ensures SeparatorLength(b, p) == |EVENT_SEPARATORS[k]|
    ensures forall j :: 0 <= j < 5 && IsAt(EVENT_SEPARATORS[j], b, p) ==> j == k
  {
    SeparatorBytes(b, p);
  }

  /** The separators spelled out. */
  lemma SeparatorBytes(b: seq<byte>, p: nat)
    ensures IsAt(EVENT_SEPARATORS[0], b, p) <==>
            p + 4 <= |b| && b[p] == CR && b[p + 1] == LF && b[p + 2] == CR && b[p + 3] == LF
    ensures IsAt(EVENT_SEPARATORS[1], b, p) <==> p + 3 <= |b| && b[p] == CR && b[p + 1] == LF && b[p + 2] == LF
    ensures IsAt(EVENT_SEPARATORS[2], b, p) <==> p + 3 <= |b| && b[p] == LF && b[p + 1] == CR && b[p + 2] == LF
    ensures IsAt(EVENT_SEPARATORS[3], b, p) <==> p + 2 <= |b| && b[p] == LF && b[p + 1] == LF
    ensures IsAt(EVENT_SEPARATORS[4], b, p) <==> p + 2 <= |b| && b[p] == CR && b[p + 1] == CR
  {
    SpelledOut(EVENT_SEPARATORS[0], b, p);
    SpelledOut(EVENT_SEPARATORS[1], b, p);
    SpelledOut(EVENT_SEPARATORS[2], b, p);
    SpelledOut(EVENT_SEPARATORS[3], b, p);
    SpelledOut(EVENT_SEPARATORS[4], b, p);
  }

  lemma SpelledOut(s: seq<byte>, b: seq<byte>, p: nat)
    ensures IsAt(s, b, p) ==> p + |s| <= |b|
    ensures |s| == 2 && p + 2 <= |b| ==> (IsAt(s, b, p) <==> b[p] == s[0] && b[p + 1] == s[1])
    ensures |s| == 3 && p + 3 <= |b| ==> (IsAt(s, b, p) <==> b[p] == s[0] && b[p + 1] == s[1] && b[p + 2] == s[2])
    ensures |s| == 4 && p + 4 <= |b| ==>
              (IsAt(s, b, p) <==> b[p] == s[0] && b[p + 1] == s[1] && b[p + 2] == s[2] && b[p + 3] == s[3])
  {
    if p + |s| <= |b| && IsAt(s, b, p) && 2 <= |s| <= 4 {
      assert b[p + 0] == s[0] && b[p + 1] == s[1];
    }
  }

  datatype Cut = Cut(event: seq<byte>, rest: seq<byte>)

  /** The cut at the first separator that starts at `p` or later. */
  function CutFrom(b: seq<byte>, p: nat): (r: Option<Cut>)
    requires p <= |b|
    ensures r.Some? ==> |r.value.rest| < |b|
    decreases |b| - p
  {
    if p == |b| then None
    else
      var n := SeparatorLength(b, p);
      if n > 0 then Some(Cut(b[..p], b[p + n..])) else CutFrom(b, p + 1)
  }

  function NextEvent(b: seq<byte>): (r: Option<Cut>)
    ensures r.Some? ==> |r.value.rest| < |b|
  {
    CutFrom(b, 0)
  }

  lemma {:induction false} CutAt(b: seq<byte>, from: nat, p: nat)
    requires from <= p < |b| && SeparatorLength(b, p) > 0
    requires forall q :: from <= q < p ==> SeparatorLength(b, q) == 0
    ensures CutFrom(b, from) == Some(Cut(b[..p], b[p + SeparatorLength(b, p)..]))
    decreases p - from
  {
    hide SeparatorLength;
    if from < p {
      CutAt(b, from + 1, p);
    }
  }

  lemma {:induction false} NoCut(b: seq<byte>, from: nat)
    requires from <= |b| && forall q :: from <= q < |b| ==> SeparatorLength(b, q) == 0
    ensures CutFrom(b, from) == None
    decreases |b| - from
  {
    hide SeparatorLength;
    if from < |b| {
      NoCut(b, from + 1);
    }
  }

  lemma IsAtMeansEqual(separator: seq<byte>, b: seq<byte>, p: nat)
    requires p + |separator| <= |b|
    ensures IsAt(separator, b, p) <==> b[p..p + |separator|] == separator
  {
    var window := b[p..p + |separator|];
    forall i | 0 <= i < |separator| ensures window[i] == b[p + i] {
    }
  }

  /** `windows(..).position(..)` */
  method Position(separator: seq<byte>, b: seq<byte>) returns (r: Option<nat>)
    requires separator != []
    ensures r.Some? ==> IsAt(separator, b, r.value) && forall q :: 0 <= q < r.value ==> !IsAt(separator, b, q)
    ensures r.None? ==> forall q :: 0 <= q < |b| ==> !IsAt(separator, b, q)
  {
    var p := 0;
    while p + |separator| <= |b|
      invariant forall q :: 0 <= q < p ==> !IsAt(separator, b, q)
    {
      IsAtMeansEqual(separator, b, p);
      if b[p..p + |separator|] == separator {
        return Some(p);
      }
      p := p + 1;
    }
    return None;
  }

  /** The receive buffer of a usage recorder. */
  class EventBuffer {
    var bytes: seq<byte>

    constructor ()
      ensures bytes == []
    {
      bytes := [];
    }

    method Extend(chunk: seq<byte>)
      modifies this
      ensures bytes == old(bytes) + chunk
    {
      bytes := bytes + chunk;
    }

    /** `take_next_event`: search for every separator, keep the earliest match, drain through it. */
    method TakeNextEvent() returns (event: Option<seq<byte>>)
      modifies this
      ensures
        match NextEvent(old(bytes))
        case None => event == None && bytes == old(bytes)
        case Some(cut) => event == Some(cut.event) && bytes == cut.rest
    {
      hide IsAt, SeparatorLength, NextEvent;
      var best: Option<nat> := None;
      var length := 0;
      for k := 0 to 5
        invariant bytes == old(bytes) && (best.Some? ==> best.value < |bytes|)
        invariant best.None? ==> forall j, q :: 0 <= j < k && 0 <= q < |bytes| ==> !IsAt(EVENT_SEPARATORS[j], bytes, q)
        invariant best.Some? ==>
                    && (exists j ::
                          0 <= j < k && |EVENT_SEPARATORS[j]| == length && IsAt(EVENT_SEPARATORS[j], bytes, best.value))
                    && forall j, q :: 0 <= j < k && 0 <= q < best.value ==> !IsAt(EVENT_SEPARATORS[j], bytes, q)
      {
        var found := Position(EVENT_SEPARATORS[k], bytes);
        if found.Some? {
          SeparatorFits(bytes, found.value, k);
          if best.None? || found.value < best.value {
            best, length := found, |EVENT_SEPARATORS[k]|;
          }
        }
      }
      if best.None? {
        NothingFound(bytes);
        return None;
      }
      FoundFirst(bytes, best.value, length);
      event := Some(bytes[..best.value]);
      bytes := bytes[best.value..];
      bytes := bytes[length..];
    }
  }

  lemma SeparatorFits(b: seq<byte>, p: nat, k: nat)
    requires k < 5 && IsAt(EVENT_SEPARATORS[k], b, p)
    ensures p + |EVENT_SEPARATORS[k]| <= |b| && |EVENT_SEPARATORS[k]| >= 2
  {
  }

  lemma NothingFound(b: seq<byte>)
    requires forall j, q :: 0 <= j < 5 && 0 <= q < |b| ==> !IsAt(EVENT_SEPARATORS[j], b, q)
    ensures NextEvent(b) == None
  {
    hide IsAt;
    NoCut(b, 0);
  }

  lemma FoundFirst(b: seq<byte>, p: nat, length: nat)
    requires exists j :: 0 <= j < 5 && |EVENT_SEPARATORS[j]| == length && IsAt(EVENT_SEPARATORS[j], b, p)
    requires forall j, q :: 0 <= j < 5 && 0 <= q < p ==> !IsAt(EVENT_SEPARATORS[j], b, q)
    ensures p + length <= |b|
    ensures NextEvent(b) == Some(Cut(b[..p], b[p..][length..]))
  {
    hide IsAt;
    var j :| 0 <= j < 5 && |EVENT_SEPARATORS[j]| == length && IsAt(EVENT_SEPARATORS[j], b, p);
    SeparatorsAreUnambiguous(b, p, j);
    SeparatorFits(b, p, j);
    CutAt(b, 0, p);
    assert b[p..][length..] == b[p + length..];
  }

  // Chunk boundaries do not matter

  /** A first match stays the first match, with the same separator, when more bytes arrive. */
  lemma FirstMatchStays(b: seq<byte>, more: seq<byte>, p: nat)
    requires p < |b| && SeparatorLength(b, p) > 0 && forall q :: 0 <= q < p ==> SeparatorLength(b, q) == 0
    ensures SeparatorLength(b + more, p) == SeparatorLength(b, p)
    ensures forall q :: 0 <= q < p ==> SeparatorLength(b + more, q) == 0
    ensures p + SeparatorLength(b, p) <= |b|
  {
    hide IsAt;
    var c := b + more;
    SeparatorBytes(b, p);
    SeparatorBytes(c, p);
    forall q | 0 <= q < p ensures SeparatorLength(c, q) == 0 {
      SeparatorBytes(b, q);
      SeparatorBytes(c, q);
      assert SeparatorLength(b, q) == 0;
      if q + 4 > |b| {
        assert q == p - 1 && p + 2 == |b|;
      }
    }
  }

  lemma CutIsFirst(b: seq<byte>)
    ensures
      match NextEvent(b)
      case None => forall q :: 0 <= q < |b| ==> SeparatorLength(b, q) == 0
      case Some(cut) =>
        var p := |cut.event|;
        && p < |b| && SeparatorLength(b, p) > 0 && (forall q :: 0 <= q < p ==> SeparatorLength(b, q) == 0)
        && p + SeparatorLength(b, p) <= |b|
        && cut == Cut(b[..p], b[p + SeparatorLength(b, p)..])
  {
    hide SeparatorLength;
    CutFromIsFirst(b, 0);
  }

  lemma {:induction false} CutFromIsFirst(b: seq<byte>, from: nat)
    requires from <= |b|
    ensures
      match CutFrom(b, from)
      case None => forall q :: from <= q < |b| ==> SeparatorLength(b, q) == 0
      case Some(cut) =>
        var p := |cut.event|;
        && from <= p < |b| && SeparatorLength(b, p) > 0 && (forall q :: from <= q < p ==> SeparatorLength(b, q) == 0)
        && p + SeparatorLength(b, p) <= |b|
        && cut == Cut(b[..p], b[p + SeparatorLength(b, p)..])
    decreases |b| - from
  {
    SeparatorFitsAt(b, from);
    hide SeparatorLength;
    if from < |b| && SeparatorLength(b, from) == 0 {
      CutFromIsFirst(b, from + 1);
    }
  }

  lemma SeparatorFitsAt(b: seq<byte>, p: nat)
    ensures SeparatorLength(b, p) > 0 ==> p + SeparatorLength(b, p) <= |b|
  {
    SeparatorBytes(b, p);
  }

  lemma NextEventStays(b: seq<byte>, more: seq<byte>)
    requires NextEvent(b).Some?
    ensures NextEvent(b + more) == Some(Cut(NextEvent(b).value.event, NextEvent(b).value.rest + more))
  {
    hide SeparatorLength, CutFrom;
    CutIsFirst(b);
    var p := |NextEvent(b).value.event|;
    FirstMatchStays(b, more, p);
    CutAt(b + more, 0, p);
    var n := SeparatorLength(b, p);
    assert (b + more)[..p] == b[..p];
    assert (b + more)[p + n..] == b[p + n..] + more;
  }

  /** Every event a buffer holds, and what is left in it: the draining loop of the recorders. */
  function Events(b: seq<byte>): seq<seq<byte>>
    decreases |b|
  {
    match NextEvent(b)
    case None => []
    case Some(cut) => [cut.event] + Events(cut.rest)
  }

  function Leftover(b: seq<byte>): seq<byte>
    decreases |b|
  {
    match NextEvent(b)
    case None => b
    case Some(cut) => Leftover(cut.rest)
  }

  lemma {:induction false} EventsSplit(b: seq<byte>, more: seq<byte>)
    ensures Events(b + more) == Events(b) + Events(Leftover(b) + more)
    ensures Leftover(b + more) == Leftover(Leftover(b) + more)
    decreases |b|
  {
    hide NextEvent;
    if NextEvent(b).Some? {
      NextEventStays(b, more);
      EventsSplit(NextEvent(b).value.rest, more);
    }
  }

  /** What a recorder has seen after some chunks: the events taken out, in order, and its buffer. */
  datatype Received = Received(events: seq<seq<byte>>, buffer: seq<byte>)

  function Receive(chunks: seq<seq<byte>>): Received {
    if chunks == [] then Received([], [])
    else
      var before := Receive(chunks[..|chunks| - 1]);
      var bytes := before.buffer + chunks[|chunks| - 1];
      Received(before.events + Events(bytes), Leftover(bytes))
  }

  /** However a stream is cut into chunks, the events and the buffer are those of the whole. */
  lemma {:induction false} ChunkingIsInvisible(chunks: seq<seq<byte>>)
    ensures Receive(chunks) == Received(Events(Flatten(chunks)), Leftover(Flatten(chunks)))
    decreases |chunks|
  {
    if chunks == [] {
      assert NextEvent([]) == None;
    } else {
      var init, last := chunks[..|chunks| - 1], chunks[|chunks| - 1];
      ChunkingIsInvisible(init);
      EventsSplit(Flatten(init), last);
    }
  }

  // What an event carries

  predicate EndsLine(c: byte) {
    c == CR || c == LF
  }

  /** `split(['\r', '\n'])` */
  function Lines(b: seq<byte>): (lines: seq<seq<byte>>)
    ensures lines != []
  {
    if b == [] then [[]]
    else
      var rest := Lines(b[1..]);
      if EndsLine(b[0]) then [[]] + rest else [[b[0]] + rest[0]] + rest[1..]
  }

  const DATA: seq<byte> := [100, 97, 116, 97, 58]

  predicate IsSpace(c: byte) {
    9 <= c <= 13 || c == 32
  }

  function TrimStart(b: seq<byte>): seq<byte> {
    if b != [] && IsSpace(b[0]) then TrimStart(b[1..]) else b
  }

  function LineData(line: seq<byte>): Option<seq<byte>> {
    if |line| >= 5 && line[..5] == DATA then Some(TrimStart(line[5..])) else None
  }

  function DataLines(lines: seq<seq<byte>>): seq<seq<byte>> {
    if lines == [] then []
    else (if LineData(lines[0]).Some? then [LineData(lines[0]).value] else []) + DataLines(lines[1..])
  }

  function Joined(parts: seq<seq<byte>>): seq<byte> {
    if parts == [] then []
    else if |parts| == 1 then parts[0]
    else parts[0] + [LF] + Joined(parts[1..])
  }

  /** `event_data` */
  function EventData(event: seq<byte>): Option<seq<byte>> {
    var data := DataLines(Lines(event));
    if data == [] then None else Some(Joined(data))
  }

  predicate IsOneLine(b: seq<byte>) {
    forall i :: 0 <= i < |b| ==> !EndsLine(b[i])
  }

  lemma {:induction false} LinesOf(line: seq<byte>, rest: seq<byte>)
    requires IsOneLine(line) && (rest == [] || EndsLine(rest[0]))
    ensures Lines(line + rest) == if rest == [] then [line] else [line] + Lines(rest[1..])
    decreases |line|
  {
    if line == [] {
      assert line + rest == rest;
    } else {
      assert (line + rest)[1..] == line[1..] + rest;
      LinesOf(line[1..], rest);
      assert [line[0]] + line[1..] == line;
    }
  }

  datatype Ending = Lf | Cr | CrLf {
    function Bytes(): seq<byte> {
      match this
      case Lf => [LF]
      case Cr => [CR]
      case CrLf => [CR, LF]
    }
  }

  /** Lines written with any mixture of line endings between them. */
  function Written(lines: seq<seq<byte>>, endings: nat -> Ending): seq<byte> {
    if lines == [] then []
    else if |lines| == 1 then lines[0]
    else lines[0] + endings(|lines|).Bytes() + Written(lines[1..], endings)
  }

  lemma {:induction false} DataLinesWritten(lines: seq<seq<byte>>, endings: nat -> Ending)
    requires lines != [] && forall l :: l in lines ==> IsOneLine(l)
    ensures DataLines(Lines(Written(lines, endings))) == DataLines(lines)
    decreases |lines|
  {
    hide LineData, IsOneLine;
    if |lines| == 1 {
      LinesOf(lines[0], []);
      assert lines[0] + [] == lines[0] && lines == [lines[0]];
    } else {
      var rest := Written(lines[1..], endings);
      var bytes := endings(|lines|).Bytes() + rest;
      assert Written(lines, endings) == lines[0] + bytes;
      LinesOf(lines[0], bytes);
      assert forall l :: l in lines[1..] ==> l in lines;
      DataLinesWritten(lines[1..], endings);
      if endings(|lines|).CrLf? {
        assert bytes[1..] == [LF] + rest;
        assert ([LF] + rest)[1..] == rest;
        BlankLineHasNoData(Lines(rest));
      } else {
        assert bytes[1..] == rest;
      }
    }
  }

  lemma BlankLineHasNoData(lines: seq<seq<byte>>)
    ensures DataLines([[]] + lines) == DataLines(lines)
  {
    assert ([[]] + lines)[1..] == lines;
  }

  /** An event's data is that of its lines, whichever line ending separates them. */
  lemma EndingsDoNotMatter(lines: seq<seq<byte>>, endings: nat -> Ending)
    requires lines != [] && forall l :: l in lines ==> IsOneLine(l)
    ensures EventData(Written(lines, endings)) == if DataLines(lines) == [] then None
            else Some(Joined(DataLines(lines)))
  {
    DataLinesWritten(lines, endings);
  }

  /** A text of several lines as an event carries it: each on a `data: ` line of its own. */
  function DataLinesFor(parts: seq<seq<byte>>): seq<seq<byte>> {
    seq(|parts|, i requires 0 <= i < |parts| => DATA + [32] + parts[i])
  }

  lemma {:induction false} JoinedLines(parts: seq<seq<byte>>)
    requires parts != [] && forall part :: part in parts ==> IsOneLine(part)
    ensures Lines(Joined(parts)) == parts
    decreases |parts|
  {
    hide IsOneLine;
    if |parts| == 1 {
      LinesOf(parts[0], []);
      assert parts[0] + [] == parts[0] && parts == [parts[0]];
    } else {
      var rest := [LF] + Joined(parts[1..]);
      assert parts[0] + [LF] + Joined(parts[1..]) == parts[0] + rest && rest[1..] == Joined(parts[1..]);
      LinesOf(parts[0], rest);
      assert forall part :: part in parts[1..] ==> part in parts;
      JoinedLines(parts[1..]);
    }
  }

  lemma {:induction false} DataLinesAreRead(parts: seq<seq<byte>>)
    requires forall part :: part in parts ==> part == [] || !IsSpace(part[0])
    ensures DataLines(DataLinesFor(parts)) == parts
    decreases |parts|
  {
    if parts != [] {
      var line := DATA + [32] + parts[0];
      assert line[..5] == DATA && line[5..] == [32] + parts[0] && ([32] + parts[0])[1..] == parts[0];
      assert TrimStart([32] + parts[0]) == TrimStart(parts[0]) == parts[0];
      assert DataLinesFor(parts)[1..] == DataLinesFor(parts[1..]);
      DataLinesAreRead(parts[1..]);
    }
  }

  /** An event's data is the text it carries, line for line, whichever endings separate its lines. */
  lemma ManyLinesAreRead(parts: seq<seq<byte>>, endings: nat -> Ending)
    requires parts != []
    requires forall part :: part in parts ==> IsOneLine(part) && (part == [] || !IsSpace(part[0]))
    ensures
      var data := EventData(Written(DataLinesFor(parts), endings));
      data.Some? && Lines(data.value) == parts
  {
    var lines := DataLinesFor(parts);
    forall i, j | 0 <= i < |lines| && 0 <= j < |lines[i]| ensures !EndsLine(lines[i][j]) {
      assert j >= 6 ==> lines[i][j] == parts[i][j - 6];
      assert parts[i] in parts;
    }
    hide Lines, Joined, IsSpace, IsOneLine, DataLines, Written;
    assert forall l :: l in lines ==> IsOneLine(l) by {
      forall i | 0 <= i < |lines| ensures IsOneLine(lines[i]) {
        DataLineIsOneLine(lines[i]);
      }
    }
    EndingsDoNotMatter(lines, endings);
    DataLinesAreRead(parts);
    JoinedLines(parts);
  }

  lemma DataLineIsOneLine(line: seq<byte>)
    requires forall j :: 0 <= j < |line| ==> !EndsLine(line[j])
    ensures IsOneLine(line)
  {
  }

  // Reading back what was printed

  /** A body that holds no separator and cannot form one with the blank line after it. */
  predicate IsFramable(body: seq<byte>) {
    && (forall i :: 0 <= i < |body| ==> body[i] != CR)
    && (forall i :: 0 <= i < |body| && body[i] == LF ==> i + 1 < |body| && body[i + 1] != LF)
  }

  function Framed(bodies: seq<seq<byte>>): seq<seq<byte>> {
    seq(|bodies|, i requires 0 <= i < |bodies| => bodies[i] + [LF, LF])
  }

  lemma FramedBody(body: seq<byte>)
    requires IsFramable(body)
    ensures Events(body + [LF, LF]) == [body] && Leftover(body + [LF, LF]) == []
  {
    var b := body + [LF, LF];
    forall q | 0 <= q < |body| ensures SeparatorLength(b, q) == 0 {
      SeparatorBytes(b, q);
    }
    SeparatorBytes(b, |body|);
    assert SeparatorLength(b, |body|) == 2;
    hide SeparatorLength, IsFramable;
    CutAt(b, 0, |body|);
    assert b[..|body|] == body && b[|body| + 2..] == [];
    assert NextEvent([]) == None;
    assert Events([]) == [] && Leftover([]) == [];
  }

  /** Framable bodies, each followed by a blank line, are the events read back, in order and with
      nothing left over. */
  lemma {:induction false} FramedBodiesAreRead(bodies: seq<seq<byte>>)
    requires forall body :: body in bodies ==> IsFramable(body)
    ensures Events(Flatten(Framed(bodies))) == bodies && Leftover(Flatten(Framed(bodies))) == []
    decreases |bodies|
  {
    if bodies == [] {
      assert NextEvent([]) == None;
    } else {
      var n := |bodies| - 1;
      assert forall body :: body in bodies[..n] ==> body in bodies;
      FramedBodiesAreRead(bodies[..n]);
      FramedBody(bodies[n]);
      assert Framed(bodies)[..n] == Framed(bodies[..n]);
      EventsSplit(Flatten(Framed(bodies[..n])), bodies[n] + [LF, LF]);
      assert [] + (bodies[n] + [LF, LF]) == bodies[n] + [LF, LF];
      assert bodies == bodies[..n] + [bodies[n]];
    }
  }
}
