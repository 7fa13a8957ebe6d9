/** The request body pump and the blocking reader at the other end of its channel
    (`request_body.rs`), as a state machine whose scheduler chooses every step. */
module RequestBody {
  import opened Prelude

  const BODY_CHANNEL_CAPACITY: nat := 4
  const BODY_CHUNK_BYTES: nat := 16 * 1024

  datatype Failure = TimedOut | InvalidData

  /** How a read ends: with bytes, with an error, or not yet. Zero bytes from a read that asked for
      some mean the end of the input. */
  datatype ReadResult = Bytes(bytes: seq<byte>) | Failed(failure: Failure) | Blocked

  predicate AreSections(sections: seq<seq<byte>>) {
    forall s :: s in sections ==> 0 < |s| <= BODY_CHUNK_BYTES
  }

  lemma FirstSection(sections: seq<seq<byte>>)
    requires AreSections(sections) && sections != []
    ensures 0 < |sections[0]| <= BODY_CHUNK_BYTES && AreSections(sections[1..])
    ensures Flatten(sections) == sections[0] + Flatten(sections[1..])
  {
    assert sections == [sections[0]] + sections[1..];
    FlattenAppend([sections[0]], sections[1..]);
    FlattenOne(sections[0]);
  }

  lemma FlattenOne(section: seq<byte>)
    ensures Flatten([section]) == section
  {
    assert [section][..0] == [];
  }

  // The reader

  /** Where the reader stands and what it shares with the pump. */
  datatype Reader = Reader(current: seq<byte>, offset: nat, channel: seq<seq<byte>>, closed: bool,
                           terminalError: Option<Failure>) {
    predicate Valid() {
      offset <= |current| && AreSections(channel)
    }

    function Received(): Reader {
      if channel == [] then this else this.(current := channel[0], offset := 0, channel := channel[1..])
    }

    /** What it can still read without the pump's help. */
    function Ahead(): seq<byte>
      requires offset <= |current|
    {
      current[offset..] + Flatten(channel)
    }
  }

  datatype Reading = Reading(reader: Reader, result: ReadResult)

  /** What one call of `read` does. */
  function ReadStep(r: Reader, capacity: nat): (reading: Reading)
    requires r.Valid()
    ensures reading.reader.Valid()
  {
    if capacity == 0 then Reading(r, Bytes([]))
    else if r.offset < |r.current| then
      var n := Min(capacity, |r.current| - r.offset);
      Reading(r.(offset := r.offset + n), Bytes(r.current[r.offset..r.offset + n]))
    else if r.channel != [] then
      var n := Min(capacity, |r.channel[0]|);
      Reading(r.(current := r.channel[0], offset := n, channel := r.channel[1..]), Bytes(r.channel[0][..n]))
    else if !r.closed then Reading(r, Blocked)
    else Reading(r.(terminalError := None), if r.terminalError.Some? then Failed(r.terminalError.value) else Bytes([]))
  }

  /** `output[..n].copy_from_slice(bytes)` */
  method CopyFront(output: array<byte>, bytes: seq<byte>)
    requires |bytes| <= output.Length
    modifies output
    ensures output[..] == bytes + old(output[|bytes|..])
  {
    forall i | 0 <= i < |bytes| {
      output[i] := bytes[i];
    }
  }

  class ChannelReader {
    var current: seq<byte>
    var offset: nat
    var channel: seq<seq<byte>>
    var closed: bool
    var terminalError: Option<Failure>

    function State(): Reader
      reads this
    {
      Reader(current, offset, channel, closed, terminalError)
    }

    constructor ()
      ensures State() == Reader([], 0, [], false, None)
    {
      current, offset, channel, closed, terminalError := [], 0, [], false, None;
    }

    /** `ChannelReader::read`; a receive that would wait ends the call with `Blocked`. */
    method Read(output: array<byte>) returns (r: ReadResult)
      requires State().Valid()
      modifies this, output
      ensures Reading(State(), r) == ReadStep(old(State()), output.Length)
      ensures output[..] == if r.Bytes? then r.bytes + old(output[|r.bytes|..]) else old(output[..])
    {
      hide AreSections;
      if output.Length == 0 {
        return Bytes([]);
      }
      while offset == |current|
        invariant State().Valid() && output[..] == old(output[..])
        invariant State() == old(State()) ||
                  (offset < |current| && old(CanReceive()) && State() == old(State().Received()))
        decreases |channel|
      {
        if channel != [] {
          FirstSection(channel);
          current := channel[0];
          channel := channel[1..];
          offset := 0;
        } else if !closed {
          return Blocked;
        } else {
          r := if terminalError.Some? then Failed(terminalError.value) else Bytes([]);
          terminalError := None;
          return;
        }
      }
      var bytesToCopy := Min(output.Length, |current| - offset);
      r := Bytes(current[offset..offset + bytesToCopy]);
      CopyFront(output, r.bytes);
      offset := offset + bytesToCopy;
    }

    predicate CanReceive()
      reads this
    {
      offset == |current| && channel != []
    }
  }

  /** A read takes what it returns from the front of what lies ahead, as much as the section at hand has
      and the caller has room for, ... */
  lemma ReadTakesFromAhead(r: Reader, capacity: nat)
    requires r.Valid()
    ensures
      var Reading(after, result) := ReadStep(r, capacity);
      && after.Valid() && after.closed == r.closed && |after.channel| <= |r.channel|
      && (if result.Bytes? then result.bytes else []) + after.Ahead() == r.Ahead()
      && (result.Bytes? && capacity > 0 ==>
          |result.bytes| == Min(capacity, if r.offset < |r.current| then |r.current| - r.offset
                                          else if r.channel != [] then |r.channel[0]| else 0))
  {
    hide Flatten, AreSections;
    if capacity > 0 && r.offset < |r.current| {
      Split(r.current[r.offset..], Min(capacity, |r.current| - r.offset), Flatten(r.channel));
    } else if capacity > 0 && r.channel != [] {
      FirstSection(r.channel);
      assert r.current[r.offset..] + Flatten(r.channel) == Flatten(r.channel);
      Split(r.channel[0], Min(capacity, |r.channel[0]|), Flatten(r.channel[1..]));
    }
  }

  lemma Split(s: seq<byte>, n: nat, rest: seq<byte>)
    requires n <= |s|
    ensures s + rest == s[..n] + (s[n..] + rest)
  {
  }

  /** ... and it meets the end of the input exactly when nothing lies ahead and the pump is gone. */
  lemma ReadMeetsTheEnd(r: Reader, capacity: nat)
    requires r.Valid() && capacity > 0
    ensures
      var Reading(after, result) := ReadStep(r, capacity);
      if result == Bytes([]) || result.Failed?
      then r.Ahead() == [] && r.closed && after == r.(terminalError := None) &&
           result == if r.terminalError.Some? then Failed(r.terminalError.value) else Bytes([])
      else after.terminalError == r.terminalError && !(r.Ahead() == [] && r.closed)
  {
    if r.offset == |r.current| && r.channel != [] {
      FirstSection(r.channel);
    }
  }

  // The pump

  /** Where the last section of a chunk begins. */
  function LastSection(length: nat): (n: nat)
    requires length > 0
    ensures n < length <= n + BODY_CHUNK_BYTES
  {
    (length - 1) / BODY_CHUNK_BYTES * BODY_CHUNK_BYTES
  }

  /** `chunk.chunks(BODY_CHUNK_BYTES)` */
  function Sections(chunk: seq<byte>): (sections: seq<seq<byte>>)
    ensures Flatten(sections) == chunk
    ensures AreSections(sections)
  {
    if chunk == [] then []
    else
      var n := LastSection(|chunk|);
      var rest := Sections(chunk[..n]);
      assert chunk == chunk[..n] + chunk[n..] && (rest + [chunk[n..]])[..|rest|] == rest;
      rest + [chunk[n..]]
  }

  /** All sections but the last are full. */
  lemma {:induction false} SectionsAreFull(chunk: seq<byte>)
    ensures
      var sections := Sections(chunk);
      && (forall i :: 0 <= i < |sections| - 1 ==> |sections[i]| == BODY_CHUNK_BYTES)
      && (chunk != [] ==> sections != [] && |sections[|sections| - 1]| == |chunk| - LastSection(|chunk|))
    decreases |chunk|
  {
    hide AreSections, Flatten;
    if chunk != [] {
      var n := LastSection(|chunk|);
      SectionsAreFull(chunk[..n]);
      FullBefore(|chunk|);
    }
  }

  lemma FullBefore(length: nat)
    requires length > 0
    ensures var n := LastSection(length); n > 0 ==> n - LastSection(n) == BODY_CHUNK_BYTES
  {
    var q := (length - 1) / BODY_CHUNK_BYTES;
    if q > 0 {
      assert (q * BODY_CHUNK_BYTES - 1) / BODY_CHUNK_BYTES == q - 1;
    }
  }

  datatype Pump = Running | Failing | Finished

  /** `taken` chunks have been taken from the body and `pending` sections of them not yet sent; an
      error is set before the sender is dropped. What the reader has returned is kept: `read`, and
      how each read at the end of the input ended. */
  datatype State = State(
    now: nat,
    pump: Pump,
    taken: nat,
    pending: seq<seq<byte>>,
    failure: Option<Failure>,
    reader: Reader,
    readerDropped: bool,
    pumpAborted: bool,
    read: seq<byte>,
    ends: seq<ReadResult>)

  datatype Action =
    | Tick
    | TakeChunk
    | SendSection
    | BodyEnds
    | BodyFails
    | DeadlinePasses
    | DropSender
    | AbortPump
    | ReadUpTo(capacity: nat)
    | DropReader

  const START := State(0, Running, 0, [], None, Reader([], 0, [], false, None), false, false, [], [])

  /** The body and the deadline are given; a step that is not possible changes nothing. */
  function Next(s: State, a: Action, body: seq<seq<byte>>, deadline: nat): (after: State)
    requires s.reader.Valid() && AreSections(s.pending)
    ensures after.reader.Valid() && AreSections(after.pending)
  {
    match a
    case Tick => s.(now := s.now + 1)
    case TakeChunk =>
      if s.pump.Running? && s.pending == [] && s.taken < |body| && s.now < deadline
      then s.(taken := s.taken + 1, pending := Sections(body[s.taken])) else s
    case SendSection =>
      if !s.pump.Running? || s.pending == [] then s
      else if s.readerDropped then s.(pump := Finished, reader := s.reader.(closed := true))
      else if |s.reader.channel| < BODY_CHANNEL_CAPACITY
      then s.(pending := s.pending[1..], reader := s.reader.(channel := s.reader.channel + [s.pending[0]])) else s
    case BodyEnds =>
      if s.pump.Running? && s.pending == [] && s.taken == |body|
      then s.(pump := Finished, reader := s.reader.(closed := true)) else s
    case BodyFails =>
      if s.pump.Running? && s.pending == [] && s.now < deadline then Fail(s, InvalidData) else s
    case DeadlinePasses =>
      if s.pump.Running? && s.now >= deadline then Fail(s, TimedOut) else s
    case DropSender =>
      if s.pump.Failing? then s.(pump := Finished, reader := s.reader.(closed := true)) else s
    case AbortPump =>
      if s.pump.Running? then s.(pump := Finished, pumpAborted := true, reader := s.reader.(closed := true)) else s
    case ReadUpTo(capacity) =>
      if s.readerDropped then s
      else
        var Reading(reader, result) := ReadStep(s.reader, capacity);
        s.(reader := reader,
           read := s.read + (if result.Bytes? then result.bytes else []),
           ends := s.ends + (if capacity > 0 && (result == Bytes([]) || result.Failed?) then [result] else []))
    case DropReader => s.(readerDropped := true)
  }

  /** `set_terminal_error` */
  function Fail(s: State, f: Failure): State {
    s.(pump := Failing, failure := Some(f), reader := s.reader.(terminalError := Some(f)))
  }

  /** The books of the pipe: what was read, what is ahead of the reader and what the pump still
      holds make up the chunks taken from the body. */
  predicate Books(s: State, body: seq<seq<byte>>) {
    && s.reader.Valid() && s.taken <= |body| && AreSections(s.pending)
    && s.read + s.reader.Ahead() + Flatten(s.pending) == Flatten(body[..s.taken])
    && |s.reader.channel| <= BODY_CHANNEL_CAPACITY
  }

  /** The pump's end: clean only after the whole body or when it was aborted, and late only after the deadline. */
  predicate Ending(s: State, body: seq<seq<byte>>, deadline: nat) {
    && (s.reader.closed <==> s.pump.Finished?)
    && (s.pump.Running? ==> s.failure.None?) && (s.pump.Failing? ==> s.failure.Some?)
    && (s.pump.Finished? && s.failure.None? && (s.ends != [] || !s.readerDropped) && !s.pumpAborted ==>
        s.taken == |body| && s.pending == [])
    && (s.failure == Some(TimedOut) ==> s.now >= deadline)
  }

  /** What the reader was told at the end of the input. */
  predicate Told(s: State)
    requires s.reader.Valid()
  {
    && (s.ends == [] ==> s.reader.terminalError == s.failure)
    && (s.ends != [] ==>
          && s.pump.Finished? && s.reader.Ahead() == [] && s.reader.terminalError.None?
          && s.ends[0] == if s.failure.Some? then Failed(s.failure.value) else Bytes([]))
    && (forall i :: 1 <= i < |s.ends| ==> s.ends[i] == Bytes([]))
  }

  predicate Inv(s: State, body: seq<seq<byte>>, deadline: nat) {
    Books(s, body) && Ending(s, body, deadline) && Told(s)
  }

  lemma TakeChunkKeepsInv(s: State, body: seq<seq<byte>>, deadline: nat)
    requires Inv(s, body, deadline)
    ensures Inv(Next(s, TakeChunk, body, deadline), body, deadline)
  {
    hide Sections;
    if s.pump.Running? && s.pending == [] && s.taken < |body| && s.now < deadline {
      assert body[..s.taken + 1][..s.taken] == body[..s.taken];
      assert s.read + s.reader.Ahead() + [] == s.read + s.reader.Ahead();
    }
  }

  lemma SendKeepsInv(s: State, body: seq<seq<byte>>, deadline: nat)
    requires Inv(s, body, deadline)
    ensures Inv(Next(s, SendSection, body, deadline), body, deadline)
  {
    hide Flatten, AreSections;
    if s.pump.Running? && s.pending != [] && !s.readerDropped && |s.reader.channel| < BODY_CHANNEL_CAPACITY {
      FirstSection(s.pending);
      SectionSent(s.reader, s.pending[0]);
      var ahead, section, rest := s.reader.Ahead(), s.pending[0], Flatten(s.pending[1..]);
      assert s.read + ahead + (section + rest) == s.read + (ahead + section) + rest;
    }
  }

  lemma SectionSent(r: Reader, section: seq<byte>)
    requires r.Valid() && 0 < |section| <= BODY_CHUNK_BYTES
    ensures var after := r.(channel := r.channel + [section]); after.Valid() && after.Ahead() == r.Ahead() + section
  {
    OneMoreSection(r.channel, section);
    hide Flatten, AreSections;
    FlattenAppend(r.channel, [section]);
    FlattenOne(section);
    var ahead, queued := r.current[r.offset..], Flatten(r.channel);
    assert ahead + (queued + section) == (ahead + queued) + section;
  }

  lemma OneMoreSection(sections: seq<seq<byte>>, section: seq<byte>)
    requires AreSections(sections) && 0 < |section| <= BODY_CHUNK_BYTES
    ensures AreSections(sections + [section])
  {
  }

  lemma NothingAsked(r: Reader)
    requires r.Valid()
    ensures ReadStep(r, 0) == Reading(r, Bytes([]))
  {
  }

  lemma ReadKeepsInv(s: State, capacity: nat, body: seq<seq<byte>>, deadline: nat)
    requires Inv(s, body, deadline)
    ensures Inv(Next(s, ReadUpTo(capacity), body, deadline), body, deadline)
  {
    hide Flatten, AreSections, ReadStep, Reader.Ahead;
    if !s.readerDropped {
      ReadTakesFromAhead(s.reader, capacity);
      if capacity > 0 {
        ReadMeetsTheEnd(s.reader, capacity);
      } else {
        NothingAsked(s.reader);
      }
      var Reading(reader, result) := ReadStep(s.reader, capacity);
      var bytes := if result.Bytes? then result.bytes else [];
      assert s.read + (bytes + reader.Ahead()) == (s.read + bytes) + reader.Ahead();
    }
  }

  lemma StepKeepsInv(s: State, a: Action, body: seq<seq<byte>>, deadline: nat)
    requires Inv(s, body, deadline)
    ensures Inv(Next(s, a, body, deadline), body, deadline)
  {
    hide ReadStep, Sections, Flatten, AreSections;
    match a
    case TakeChunk => TakeChunkKeepsInv(s, body, deadline);
    case SendSection => SendKeepsInv(s, body, deadline);
    case ReadUpTo(capacity) => ReadKeepsInv(s, capacity, body, deadline);
    case _ =>
  }

  function Run(trace: seq<Action>, body: seq<seq<byte>>, deadline: nat): (s: State)
    ensures s.reader.Valid() && AreSections(s.pending)
    decreases |trace|
  {
    if trace == [] then START
    else Next(Run(trace[..|trace| - 1], body, deadline), trace[|trace| - 1], body, deadline)
  }

  lemma {:induction false} RunKeepsInv(trace: seq<Action>, body: seq<seq<byte>>, deadline: nat)
    ensures Inv(Run(trace, body, deadline), body, deadline)
    decreases |trace|
  {
    hide Next, Inv;
    if trace == [] {
      StartInv(body, deadline);
    } else {
      RunKeepsInv(trace[..|trace| - 1], body, deadline);
      StepKeepsInv(Run(trace[..|trace| - 1], body, deadline), trace[|trace| - 1], body, deadline);
    }
  }

  lemma StartInv(body: seq<seq<byte>>, deadline: nat)
    ensures Inv(START, body, deadline)
  {
    assert body[..0] == [];
  }

  lemma {:induction false} AbortsAreSteps(trace: seq<Action>, body: seq<seq<byte>>, deadline: nat)
    ensures Run(trace, body, deadline).pumpAborted ==> AbortPump in trace
    decreases |trace|
  {
    hide ReadStep, Sections;
    if trace != [] {
      AbortsAreSteps(trace[..|trace| - 1], body, deadline);
    }
  }

  /** In every run, whatever sizes are read and whenever: the bytes read are a prefix of the body; a
      clean first end means all of it, unless the runtime dropped the pump; a failure of the pump is
      told before any clean end, and once; little is buffered; and only a passed deadline times out. */
  lemma BodyIsReadFaithfully(trace: seq<Action>, body: seq<seq<byte>>, deadline: nat)
    ensures
      var s := Run(trace, body, deadline);
      && s.read <= Flatten(body)
      && (s.ends != [] && s.ends[0] == Bytes([]) ==> s.read == Flatten(body) || (s.pumpAborted && AbortPump in trace))
      && (s.ends != [] && s.failure.Some? ==> s.ends[0] == Failed(s.failure.value))
      && (forall i :: 1 <= i < |s.ends| ==> s.ends[i] == Bytes([]))
      && |s.reader.channel| <= BODY_CHANNEL_CAPACITY && AreSections(s.reader.channel)
      && (s.failure == Some(TimedOut) ==> DeadlinePasses in trace && s.now >= deadline)
      && (s.failure == Some(InvalidData) ==> BodyFails in trace)
  {
    hide AreSections, Run;
    RunKeepsInv(trace, body, deadline);
    FailuresHaveCauses(trace, body, deadline);
    AbortsAreSteps(trace, body, deadline);
    var s := Run(trace, body, deadline);
    FlattenGrows(body, s.taken);
    assert s.read <= Flatten(body[..s.taken]);
    assert body[..|body|] == body;
  }

  /** The deadline has passed with a chunk still to come. */
  predicate IsLate(s: State, body: seq<seq<byte>>, deadline: nat) {
    s.now >= deadline && s.taken < |body| && s.failure in {None, Some(TimedOut)}
  }

  lemma LateStaysLate(s: State, a: Action, body: seq<seq<byte>>, deadline: nat)
    requires s.reader.Valid() && AreSections(s.pending) && IsLate(s, body, deadline)
    ensures IsLate(Next(s, a, body, deadline), body, deadline)
  {
    hide ReadStep, Sections;
  }

  lemma {:induction false} LateBodies(trace: seq<Action>, more: seq<Action>, body: seq<seq<byte>>, deadline: nat)
    requires IsLate(Run(trace, body, deadline), body, deadline)
    ensures IsLate(Run(trace + more, body, deadline), body, deadline)
    decreases |more|
  {
    hide Next, IsLate;
    if more == [] {
      assert trace + more == trace;
    } else {
      var before := more[..|more| - 1];
      LateBodies(trace, before, body, deadline);
      assert trace + more == (trace + before) + [more[|more| - 1]];
      RunOneMore(trace + before, more[|more| - 1], body, deadline);
      LateStaysLate(Run(trace + before, body, deadline), more[|more| - 1], body, deadline);
    }
  }

  /** A body that is late, with no failure of its own before the deadline, is told as timed out: however
      the run goes on, what the reader meets first at the end is that, unless the runtime drops the pump. */
  lemma LateBodyTimesOut(trace: seq<Action>, more: seq<Action>, body: seq<seq<byte>>, deadline: nat)
    requires
      var s := Run(trace, body, deadline);
      s.pump.Running? && s.now >= deadline && s.taken < |body|
    ensures
      var after := Run(trace + more, body, deadline);
      after.ends != [] && !after.pumpAborted ==> after.ends[0] == Failed(TimedOut)
  {
    hide Run;
    RunKeepsInv(trace, body, deadline);
    LateBodies(trace, more, body, deadline);
    RunKeepsInv(trace + more, body, deadline);
  }

  lemma StepFails(s: State, a: Action, body: seq<seq<byte>>, deadline: nat)
    requires s.reader.Valid() && AreSections(s.pending)
    ensures
      var after := Next(s, a, body, deadline);
      && s.now <= after.now
      && (after.failure == s.failure || (a == BodyFails && after.failure == Some(InvalidData)) ||
          (a == DeadlinePasses && after.failure == Some(TimedOut) && s.now >= deadline))
  {
    hide ReadStep, Sections;
  }

  /** Each kind of failure has its cause: bad data is told only of a body that failed, and in time. */
  lemma {:induction false} FailuresHaveCauses(trace: seq<Action>, body: seq<seq<byte>>, deadline: nat)
    ensures
      var s := Run(trace, body, deadline);
      && (s.failure == Some(InvalidData) ==> BodyFails in trace)
      && (s.failure == Some(TimedOut) ==> DeadlinePasses in trace && s.now >= deadline)
    decreases |trace|
  {
    hide Next;
    if trace != [] {
      FailuresHaveCauses(trace[..|trace| - 1], body, deadline);
      StepFails(Run(trace[..|trace| - 1], body, deadline), trace[|trace| - 1], body, deadline);
    }
  }

  lemma RunOneMore(trace: seq<Action>, a: Action, body: seq<seq<byte>>, deadline: nat)
    ensures Run(trace + [a], body, deadline) == Next(Run(trace, body, deadline), a, body, deadline)
  {
    hide Next;
    assert (trace + [a])[..|trace|] == trace;
  }

  /** The pump runs, and the reader has read all that was sent to it. */
  predicate IsCaughtUp(s: State) {
    && s.pump.Running? && s.failure.None? && !s.readerDropped && s.now == 0 && s.ends == []
    && s.reader.offset == |s.reader.current| && s.reader.channel == [] && s.reader.terminalError.None?
  }

  /** A section is sent and read. */
  lemma SectionPasses(s: State, body: seq<seq<byte>>, deadline: nat)
    requires IsCaughtUp(s) && s.reader.Valid() && AreSections(s.pending) && s.pending != []
    ensures
      var after := Next(Next(s, SendSection, body, deadline), ReadUpTo(BODY_CHUNK_BYTES), body, deadline);
      IsCaughtUp(after) && after.pending == s.pending[1..] && after.read == s.read + s.pending[0] &&
        after.taken == s.taken
  {
    FirstSection(s.pending);
    var sent := Next(s, SendSection, body, deadline);
    assert sent.reader.channel == [s.pending[0]];
  }

  lemma {:induction false} PendingPasses(trace: seq<Action>, body: seq<seq<byte>>, deadline: nat)
    returns (longer: seq<Action>)
    requires IsCaughtUp(Run(trace, body, deadline))
    ensures
      var s, after := Run(trace, body, deadline), Run(longer, body, deadline);
      IsCaughtUp(after) && after.pending == [] && after.read == s.read + Flatten(s.pending) && after.taken == s.taken
    decreases |Run(trace, body, deadline).pending|
  {
    hide Next, Run, Flatten, AreSections;
    var s := Run(trace, body, deadline);
    if s.pending == [] {
      longer := trace;
      assert s.read + Flatten([]) == s.read by {
        NothingFlat();
      }
    } else {
      FirstSection(s.pending);
      SectionPasses(s, body, deadline);
      RunOneMore(trace, SendSection, body, deadline);
      RunOneMore(trace + [SendSection], ReadUpTo(BODY_CHUNK_BYTES), body, deadline);
      longer := PendingPasses(trace + [SendSection] + [ReadUpTo(BODY_CHUNK_BYTES)], body, deadline);
      assert s.read + s.pending[0] + Flatten(s.pending[1..]) == s.read + (s.pending[0] + Flatten(s.pending[1..]));
    }
  }

  lemma NothingFlat()
    ensures Flatten<byte>([]) == []
  {
  }

  /** Any number of whole chunks can have been read. */
  lemma {:induction false} ChunksPass(body: seq<seq<byte>>, deadline: nat, n: nat) returns (trace: seq<Action>)
    requires n <= |body| && deadline > 0
    ensures
      var s := Run(trace, body, deadline);
      IsCaughtUp(s) && s.pending == [] && s.taken == n && s.read == Flatten(body[..n])
    decreases n
  {
    if n == 0 {
      trace := [];
      assert body[..0] == [];
    } else {
      hide Run, Sections, AreSections;
      var before := ChunksPass(body, deadline, n - 1);
      RunOneMore(before, TakeChunk, body, deadline);
      trace := PendingPasses(before + [TakeChunk], body, deadline);
      assert body[..n][..n - 1] == body[..n - 1];
    }
  }

  /** The exception is real: when the pump is dropped after any number of chunks, the reader takes
      them for the whole body. */
  lemma AbortedPumpLooksFinished(body: seq<seq<byte>>, deadline: nat, n: nat) returns (trace: seq<Action>)
    requires n <= |body| && deadline > 0
    ensures
      var s := Run(trace, body, deadline);
      s.ends == [Bytes([])] && s.read == Flatten(body[..n])
  {
    hide Run, Flatten;
    var before := ChunksPass(body, deadline, n);
    RunOneMore(before, AbortPump, body, deadline);
    RunOneMore(before + [AbortPump], ReadUpTo(1), body, deadline);
    trace := before + [AbortPump] + [ReadUpTo(1)];
  }
}
