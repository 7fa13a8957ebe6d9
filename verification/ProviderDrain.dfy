/** The task that drains a provider's response for a client (`usage_recording_stream`, the same in
    `anthropic.rs` and `openai.rs`): the loop over a recorder, then the task among a provider, a
    client and a shutdown that act whenever they like. */
module ProviderDrain {
  import opened Prelude
  import opened UsageRecorders

  const STREAM_CHANNEL_CAPACITY: nat := 8

  datatype Item = Chunk(bytes: seq<byte>) | ProviderError

  // The task among others

  /** Where the task waits; `Reconciling` has handed its reservation over. An aborted task's locals
      are dropped, and so is the recorder. */
  datatype Phase = Receiving | Sending(item: Item) | Recording | Reconciling | Finished | Aborted

  /** `handed` are the reconciliations started, by what they charge; `providerEnd` is how the
      provider's stream was seen to end. */
  datatype State = State(
    phase: Phase,
    recorded: seq<seq<byte>>,
    connected: bool,
    clientOpen: bool,
    channel: seq<Item>,
    delivered: seq<Item>,
    cancelled: bool,
    stoppedEarly: bool,
    handed: seq<Option<nat>>,
    slotHeld: bool)

  datatype Action =
    | ProviderChunk
    | ProviderEnds
    | ProviderFails
    | Cancel
    | NoticeCancel
    | Send
    | ClientReceives
    | ClientDisconnects
    | Record
    | Finish
    | Abort(runtime: bool)

  const START := State(Receiving, [], true, true, [], [], false, false, [], true)

  type Charging = seq<byte> -> Option<nat>

  /** What the recorder would reconcile with, given what it has seen. */
  function Observed(s: State, charge: Charging): Option<nat> {
    charge(Flatten(s.recorded))
  }

  predicate IsRunning(s: State) {
    !s.phase.Finished? && !s.phase.Aborted?
  }

  /** `chunks` is what the provider would send; a step that is not possible changes nothing. */
  function Next(s: State, a: Action, chunks: seq<seq<byte>>, charge: Charging): State {
    match a
    case ProviderChunk =>
      if !s.phase.Receiving? || |s.recorded| >= |chunks| then s
      else
        var chunk := chunks[|s.recorded|];
        s.(recorded := s.recorded + [chunk], phase := if s.connected then Sending(Chunk(chunk)) else Receiving)
    case ProviderEnds => if s.phase.Receiving? && |s.recorded| >= |chunks| then s.(phase := Recording) else s
    case ProviderFails =>
      if s.phase.Receiving?
      then s.(phase := if s.connected then Sending(ProviderError) else Recording, stoppedEarly := true) else s
    case Cancel => s.(cancelled := true)
    case NoticeCancel =>
      if s.cancelled &&
        (s.phase.Receiving? || s.phase.Sending?) then s.(phase := Recording, stoppedEarly := true) else s
    case Send =>
      if !s.phase.Sending? then s
      else
        var next := if s.phase.item.Chunk? then Receiving else Recording;
        if !s.clientOpen then s.(phase := next, connected := s.connected && s.phase.item.ProviderError?)
        else if |s.channel| < STREAM_CHANNEL_CAPACITY then s.(phase := next, channel := s.channel + [s.phase.item])
        else s
    case ClientReceives =>
      if s.clientOpen &&
        s.channel != [] then s.(channel := s.channel[1..], delivered := s.delivered + [s.channel[0]]) else s
    case ClientDisconnects => s.(clientOpen := false)
    case Record =>
      if s.phase.Recording? then s.(phase := Reconciling, handed := s.handed + [Observed(s, charge)]) else s
    case Finish => if s.phase.Reconciling? then s.(phase := Finished, slotHeld := false) else s
    case Abort(runtime) =>
      if !IsRunning(s) then s
      else
        s.(phase := Aborted, slotHeld := false,
           handed := s.handed + if s.phase.Reconciling? || !runtime then [] else [Observed(s, charge)])
  }

  function Run(s: State, trace: seq<Action>, chunks: seq<seq<byte>>, charge: Charging): State
    decreases |trace|
  {
    if trace == [] then s else Next(Run(s, trace[..|trace| - 1], chunks, charge), trace[|trace| - 1], chunks, charge)
  }

  function Items(chunks: seq<seq<byte>>): seq<Item> {
    seq(|chunks|, i requires 0 <= i < |chunks| => Chunk(chunks[i]))
  }

  /** What was passed towards the client so far, the item being sent last. */
  function Forwarded(s: State): seq<Item> {
    s.delivered + s.channel + (if s.phase.Sending? then [s.phase.item] else [])
  }

  /** The loop is left, and not by an abort. */
  predicate HasStopped(s: State) {
    s.phase.Recording? || s.phase.Reconciling? || s.phase.Finished?
  }

  predicate Forwards(s: State, chunks: seq<seq<byte>>) {
    && s.recorded <= chunks && |s.channel| <= STREAM_CHANNEL_CAPACITY
    && (s.connected && !s.stoppedEarly && !s.phase.Aborted? ==> Forwarded(s) == Items(s.recorded))
    && (s.phase.Sending? ==>
        s.connected && Forwarded(s) == Items(s.recorded) + if s.phase.item.ProviderError? then [ProviderError] else [])
    && (Forwarded(s) <= Items(s.recorded) ||
        (s.stoppedEarly && Forwarded(s) == Items(s.recorded) + [ProviderError] && !s.phase.Receiving?))
    && (!s.connected ==> !s.clientOpen)
    && (HasStopped(s) && s.stoppedEarly && !s.cancelled && s.clientOpen ==>
        Forwarded(s) == Items(s.recorded) + [ProviderError])
  }

  predicate Settles(s: State, chunks: seq<seq<byte>>, charge: Charging) {
    && (s.handed == [] || s.handed == [Observed(s, charge)])
    && (s.phase.Receiving? || s.phase.Sending? || s.phase.Recording? ==> s.handed == [] && s.slotHeld)
    && (s.phase.Reconciling? ==> s.handed != [] && s.slotHeld)
    && (s.phase.Finished? ==> s.handed != [])
    && (s.slotHeld <==> IsRunning(s))
    && (s.phase.Receiving? ==> !s.stoppedEarly)
    && (s.phase.Sending? ==> s.stoppedEarly == s.phase.item.ProviderError?)
    && (HasStopped(s) && !s.stoppedEarly ==> s.recorded == chunks)
  }

  predicate Inv(s: State, chunks: seq<seq<byte>>, charge: Charging) {
    Forwards(s, chunks) && Settles(s, chunks, charge)
  }

  lemma ItemsGrow(chunks: seq<seq<byte>>, chunk: seq<byte>)
    ensures Items(chunks + [chunk]) == Items(chunks) + [Chunk(chunk)]
  {
  }

  lemma StepForwards(s: State, a: Action, chunks: seq<seq<byte>>, charge: Charging)
    requires Inv(s, chunks, charge)
    ensures Forwards(Next(s, a, chunks, charge), chunks)
  {
    hide Items, Observed;
    match a
    case ProviderChunk =>
      if s.phase.Receiving? && |s.recorded| < |chunks| {
        ItemsGrow(s.recorded, chunks[|s.recorded|]);
      }
    case Send =>
      if s.phase.Sending? {
        assert s.delivered + s.channel + [s.phase.item] == s.delivered + (s.channel + [s.phase.item]);
        assert s.delivered + s.channel <= Forwarded(s);
        SendingKeepsPrefix(s);
      }
    case NoticeCancel =>
      if s.phase.Sending? {
        SendingKeepsPrefix(s);
      }
    case Abort(_) =>
      if s.phase.Sending? {
        SendingKeepsPrefix(s);
      }
    case ClientReceives =>
      if s.channel != [] {
        assert s.channel == [s.channel[0]] + s.channel[1..];
        assert (s.delivered + [s.channel[0]]) + s.channel[1..] == s.delivered + s.channel;
      }
    case _ =>
  }

  /** Without the item being sent, what was passed on is still a prefix of what was recorded. */
  lemma SendingKeepsPrefix(s: State)
    requires s.phase.Sending?
    requires Forwarded(s) == Items(s.recorded) + (if s.phase.item.ProviderError? then [ProviderError] else [])
    ensures s.delivered + s.channel <= Items(s.recorded)
  {
    var before := s.delivered + s.channel;
    assert before == Forwarded(s)[..|Forwarded(s)| - 1];
  }

  lemma StepSettles(s: State, a: Action, chunks: seq<seq<byte>>, charge: Charging)
    requires Inv(s, chunks, charge)
    ensures Settles(Next(s, a, chunks, charge), chunks, charge)
  {
    hide Items, Forwarded;
  }

  lemma {:induction false} RunKeepsInv(trace: seq<Action>, chunks: seq<seq<byte>>, charge: Charging)
    ensures Inv(Run(START, trace, chunks, charge), chunks, charge)
    decreases |trace|
  {
    hide Next, Forwards, Settles;
    if trace == [] {
      StartInv(chunks, charge);
    } else {
      var before := Run(START, trace[..|trace| - 1], chunks, charge);
      RunKeepsInv(trace[..|trace| - 1], chunks, charge);
      StepForwards(before, trace[|trace| - 1], chunks, charge);
      StepSettles(before, trace[|trace| - 1], chunks, charge);
    }
  }

  lemma StartInv(chunks: seq<seq<byte>>, charge: Charging)
    ensures Inv(START, chunks, charge)
  {
  }

  lemma {:induction false} StopsHaveCauses(trace: seq<Action>, chunks: seq<seq<byte>>, charge: Charging)
    ensures Run(START, trace, chunks, charge).cancelled ==> Cancel in trace
    ensures Run(START, trace, chunks, charge).stoppedEarly ==> Cancel in trace || ProviderFails in trace
    decreases |trace|
  {
    hide Observed, Items;
    if trace != [] {
      StopsHaveCauses(trace[..|trace| - 1], chunks, charge);
      assert trace == trace[..|trace| - 1] + [trace[|trace| - 1]];
    }
  }

  /** In every run the client gets a prefix of the recorded chunks in order, and an error only at
      their end; the recorder sees a prefix of the provider's chunks, and all of them unless the
      provider failed, the shutdown was noticed or the task was aborted, whether or not the client
      stays; a client that stays is sent them all, and unless a shutdown cuts in it is told of a
      failure after them. Nothing else stops it early. */
  lemma RecordingIsComplete(trace: seq<Action>, chunks: seq<seq<byte>>, charge: Charging)
    ensures
      var s := Run(START, trace, chunks, charge);
      && s.recorded <= chunks
      && (s.delivered <= Items(s.recorded) || (s.stoppedEarly && s.delivered == Items(s.recorded) + [ProviderError]))
      && (s.phase.Finished? && !s.stoppedEarly ==> s.recorded == chunks)
      && (s.phase.Finished? && !s.stoppedEarly && s.clientOpen ==> s.delivered + s.channel == Items(chunks))
      && (s.phase.Finished? && s.stoppedEarly && !s.cancelled && s.clientOpen ==>
          s.delivered + s.channel == Items(s.recorded) + [ProviderError])
      && |s.channel| <= STREAM_CHANNEL_CAPACITY
      && (s.stoppedEarly ==> Cancel in trace || ProviderFails in trace)
  {
    hide Items;
    StopsHaveCauses(trace, chunks, charge);
    RunKeepsInv(trace, chunks, charge);
    var s := Run(START, trace, chunks, charge);
    assert s.delivered <= Forwarded(s);
  }

  /** In every run the reservation is handed over at most once, with the charge of all that was
      recorded; exactly once by a task that finishes; and the stream slot is held until then. */
  lemma ReservationIsHandedOverOnce(trace: seq<Action>, chunks: seq<seq<byte>>, charge: Charging)
    ensures
      var s := Run(START, trace, chunks, charge);
      && |s.handed| <= 1
      && (s.handed != [] ==> s.handed == [charge(Flatten(s.recorded))])
      && (s.phase.Finished? ==> |s.handed| == 1)
      && (s.phase.Finished? && !s.stoppedEarly ==> s.handed == [charge(Flatten(chunks))])
      && (s.slotHeld <==> IsRunning(s))
      && (!s.slotHeld && s.handed == [] ==> s.phase.Aborted?)
  {
    RunKeepsInv(trace, chunks, charge);
  }

  lemma {:induction false} RunOn(s: State, a: seq<Action>, b: seq<Action>, chunks: seq<seq<byte>>, charge: Charging)
    ensures Run(s, a + b, chunks, charge) == Run(Run(s, a, chunks, charge), b, chunks, charge)
    decreases |b|
  {
    hide Next;
    if b == [] {
      assert a + b == a;
    } else {
      RunOn(s, a, b[..|b| - 1], chunks, charge);
      assert (a + b)[..|a + b| - 1] == a + b[..|b| - 1];
    }
  }

  lemma RunOne(s: State, a: Action, chunks: seq<seq<byte>>, charge: Charging)
    ensures Run(s, [a], chunks, charge) == Next(s, a, chunks, charge)
  {
    hide Next;
    assert [a][..0] == [];
  }

  /** Steps of the task and of a provider that delivers: none of the client, none of a shutdown. */
  predicate DrainsAlone(actions: seq<Action>) {
    forall a :: a in actions ==> a in {ProviderChunk, Send, ProviderEnds, Record, Action.Finish}
  }

  /** The task has finished, with everything recorded unless it had been stopped before. */
  predicate FinishedFrom(s: State, after: State, chunks: seq<seq<byte>>, charge: Charging) {
    && after.phase.Finished? && !after.slotHeld
    && after.handed == [charge(Flatten(after.recorded))]
    && after.recorded == if s.stoppedEarly then s.recorded else chunks
  }

  lemma RunFirst(s: State, a: Action, rest: seq<Action>, chunks: seq<seq<byte>>, charge: Charging)
    ensures Run(s, [a] + rest, chunks, charge) == Run(Next(s, a, chunks, charge), rest, chunks, charge)
  {
    hide Next;
    RunOn(s, [a], rest, chunks, charge);
    RunOne(s, a, chunks, charge);
  }

  lemma RecordingFinishes(s: State, chunks: seq<seq<byte>>, charge: Charging) returns (more: seq<Action>)
    requires Settles(s, chunks, charge) && (s.phase.Recording? || s.phase.Reconciling?)
    ensures DrainsAlone(more) && FinishedFrom(s, Run(s, more, chunks, charge), chunks, charge)
  {
    var recorded := if s.phase.Recording? then Next(s, Record, chunks, charge) else s;
    more := if s.phase.Recording? then [Record] + [Action.Finish] else [Action.Finish];
    RunFirst(s, Record, [Action.Finish], chunks, charge);
    RunOne(recorded, Action.Finish, chunks, charge);
  }

  lemma {:induction false} ReceivingFinishes(s: State, chunks: seq<seq<byte>>, charge: Charging)
    returns (more: seq<Action>)
    requires s.recorded <= chunks && Settles(s, chunks, charge) && !s.clientOpen && s.phase.Receiving?
    ensures DrainsAlone(more) && FinishedFrom(s, Run(s, more, chunks, charge), chunks, charge)
    decreases |chunks| - |s.recorded|
  {
    if |s.recorded| == |chunks| {
      assert s.recorded == chunks;
      var ended := Next(s, ProviderEnds, chunks, charge);
      var rest := RecordingFinishes(ended, chunks, charge);
      more := [ProviderEnds] + rest;
      RunFirst(s, ProviderEnds, rest, chunks, charge);
    } else {
      var taken := Next(s, ProviderChunk, chunks, charge);
      var sent := Next(taken, Send, chunks, charge);
      var rest := ReceivingFinishes(sent, chunks, charge);
      more := [ProviderChunk] + ([Send] + rest);
      RunFirst(s, ProviderChunk, [Send] + rest, chunks, charge);
      RunFirst(taken, Send, rest, chunks, charge);
    }
  }

  lemma FirstSend(s: State, sent: State, rest: seq<Action>, chunks: seq<seq<byte>>, charge: Charging)
    requires DrainsAlone(rest) && FinishedFrom(sent, Run(sent, rest, chunks, charge), chunks, charge)
    requires sent.stoppedEarly == s.stoppedEarly && sent.recorded == s.recorded
    ensures DrainsAlone([Send] + rest) && FinishedFrom(s, Run(sent, rest, chunks, charge), chunks, charge)
  {
  }

  /** Once the client is gone the task needs nobody but the provider: from wherever it is running it
      can record the rest of the stream, hand the reservation over and give the slot back without
      another step of the client. */
  lemma GoneClientNeverBlocks(s: State, chunks: seq<seq<byte>>, charge: Charging) returns (more: seq<Action>)
    requires Inv(s, chunks, charge) && !s.clientOpen && IsRunning(s)
    ensures DrainsAlone(more) && FinishedFrom(s, Run(s, more, chunks, charge), chunks, charge)
  {
    hide Run, FinishedFrom, Forwarded, DrainsAlone;
    if s.phase.Sending? {
      var sent := Next(s, Send, chunks, charge);
      StepSettles(s, Send, chunks, charge);
      var rest;
      if sent.phase.Receiving? {
        rest := ReceivingFinishes(sent, chunks, charge);
      } else {
        rest := RecordingFinishes(sent, chunks, charge);
      }
      more := [Send] + rest;
      RunFirst(s, Send, rest, chunks, charge);
      FirstSend(s, sent, rest, chunks, charge);
    } else if s.phase.Receiving? {
      more := ReceivingFinishes(s, chunks, charge);
    } else {
      more := RecordingFinishes(s, chunks, charge);
    }
  }

  // The loop itself

  datatype ProviderResult = Data(bytes: seq<byte>) | Broken

  datatype SendResult = Sent | ClientGone | Interrupted

  function DataOf(results: seq<ProviderResult>): seq<seq<byte>> {
    if results == [] then []
    else DataOf(results[..|results| - 1]) + if results[|results| - 1].Data? then [results[|results| - 1].bytes] else []
  }

  lemma DataSteps(provider: seq<ProviderResult>, i: nat)
    requires i <= |provider|
    ensures DataOf(provider[..0]) == []
    ensures i < |provider| ==>
              DataOf(provider[..i + 1]) == if provider[i].Data? then DataOf(provider[..i]) + [provider[i].bytes]
                else DataOf(provider[..i])
  {
    assert i < |provider| ==> provider[..i + 1][..i] == provider[..i];
  }

  function ItemOf(result: ProviderResult): Item {
    match result
    case Data(bytes) => Chunk(bytes)
    case Broken => ProviderError
  }

  /** What a client that takes everything is sent for some results of the provider. */
  function Passed(results: seq<ProviderResult>): seq<Item> {
    seq(|results|, i requires 0 <= i < |results| => ItemOf(results[i]))
  }

  predicate AllSent(sends: nat -> SendResult, k: nat) {
    forall i :: 0 <= i < k ==> sends(i) == Sent
  }

  /** Of `n` sends the first `k` succeed, and the next does not. */
  predicate IsSentUpTo(sends: nat -> SendResult, k: nat, n: nat) {
    AllSent(sends, k) && k <= n && (k < n ==> sends(k) != Sent)
  }

  lemma SentUpToOnePoint(sends: nat -> SendResult, k: nat, n: nat)
    requires IsSentUpTo(sends, k, n)
    ensures forall other: nat :: IsSentUpTo(sends, other, n) ==> other == k
    ensures AllSent(sends, n) ==> k == n
  {
  }

  lemma OneMoreSend(sends: nat -> SendResult, n: nat)
    requires IsSentUpTo(sends, n, n)
    ensures if sends(n) == Sent then IsSentUpTo(sends, n + 1, n + 1) else IsSentUpTo(sends, n, n + 1)
  {
  }

  lemma {:induction false} DataIsPassed(results: seq<ProviderResult>)
    requires forall result :: result in results ==> result.Data?
    ensures Passed(results) == Items(DataOf(results))
    decreases |results|
  {
    if results != [] {
      var n := |results| - 1;
      DataIsPassed(results[..n]);
      PassedGrows(results, n);
      assert results[..n + 1] == results;
      ItemsGrow(DataOf(results[..n]), results[n].bytes);
    }
  }

  lemma PassedPrefix(results: seq<ProviderResult>, k: nat)
    requires k <= |results|
    ensures |Passed(results)| == |results| && Passed(results[..k]) == Passed(results)[..k]
  {
  }

  lemma FailureIsPassedLast(results: seq<ProviderResult>)
    requires results != [] && results[|results| - 1].Broken?
    requires forall i :: 0 <= i < |results| - 1 ==> results[i].Data?
    ensures Passed(results) == Items(DataOf(results)) + [ProviderError]
  {
    hide Passed, Items;
    var n := |results| - 1;
    DataIsPassed(results[..n]);
    PassedGrows(results, n);
    assert results[..n + 1] == results;
    assert Passed(results) == Passed(results[..n]) + [ProviderError];
    assert DataOf(results) == DataOf(results[..n]);
  }

  /** Of results that are data up to the last, what is passed on is a prefix of the data, or all of it
      and the failure. */
  lemma PassedIsData(results: seq<ProviderResult>, k: nat)
    requires k <= |results| && forall i :: 0 <= i < |results| - 1 ==> results[i].Data?
    ensures
      var items := Items(DataOf(results));
      if k == |results| > 0 && results[k - 1].Broken? then Passed(results[..k]) == items + [ProviderError]
      else Passed(results[..k]) <= items && (k == |results| ==> Passed(results[..k]) == items)
  {
    hide Passed, Items, DataOf;
    PassedPrefix(results, k);
    if results != [] && results[|results| - 1].Broken? {
      FailureIsPassedLast(results);
    } else {
      DataIsPassed(results);
    }
  }

  lemma SentIsData(provider: seq<ProviderResult>, sends: nat -> SendResult, sent: nat, observed: nat)
    requires observed <= |provider| && IsSentUpTo(sends, sent, observed)
    requires forall i :: 0 <= i < observed - 1 ==> provider[i].Data?
    ensures
      var passed, items := Passed(provider[..sent]), Items(DataOf(provider[..observed]));
      && (passed <= items || passed == items + [ProviderError])
      && (AllSent(sends, observed) ==>
          passed == items + if observed > 0 && provider[observed - 1].Broken? then [ProviderError] else [])
  {
    hide Passed, Items, DataOf, AllSent;
    SentUpToOnePoint(sends, sent, observed);
    assert provider[..observed][..sent] == provider[..sent];
    PassedIsData(provider[..observed], sent);
  }

  lemma NothingPassed(provider: seq<ProviderResult>, sends: nat -> SendResult)
    ensures Passed(provider[..0]) == [] && IsSentUpTo(sends, 0, 0)
  {
  }

  lemma PassedGrows(provider: seq<ProviderResult>, i: nat)
    requires i < |provider|
    ensures Passed(provider[..i + 1]) == Passed(provider[..i]) + [ItemOf(provider[i])]
  {
  }

  /** The spawned task's body in `anthropic.rs`: `stops(i)` says whether the shutdown is noticed
      instead of the provider's result `i`, and `sends(i)` how sending it ends. */
  method Drain<R(0)>(reservation: R, provider: seq<ProviderResult>, stops: nat -> bool, sends: nat -> SendResult,
                 parse: Parser)
    returns (forwarded: seq<Item>, observed: nat, r: Reconciliation<R>)
    ensures observed <= |provider|
    ensures r == Reconciliation(reservation, AnthropicStreamCharge(Flatten(DataOf(provider[..observed])), parse))
    // Every result is read until one is broken, a send is interrupted or the shutdown is noticed.
    ensures forall i :: 0 <= i < observed ==> !stops(i) && (i + 1 < observed ==> provider[i].Data?)
    ensures observed < |provider| && !stops(observed) ==>
              observed > 0 && (provider[observed - 1].Broken? || sends(observed - 1) == Interrupted)
    // The client is sent what is read up to the first send that fails, a failure of the provider last.
    ensures forall k: nat :: IsSentUpTo(sends, k, observed) ==>
              forwarded == Passed(provider[..k]) && (k + 1 < observed ==> sends(k) == ClientGone)
    ensures forwarded <= Items(DataOf(provider[..observed])) ||
            forwarded == Items(DataOf(provider[..observed])) + [ProviderError]
    ensures AllSent(sends, observed) ==>
              forwarded == Items(DataOf(provider[..observed])) +
                           if observed > 0 && provider[observed - 1].Broken? then [ProviderError] else []
  {
    hide Flatten, DataOf, Items, Passed, AllSent, AnthropicStreamCharge, AnthropicStreamUsageRecorder.Valid;
    DataSteps(provider, 0);
    NothingPassed(provider, sends);
    var usageRecorder := new AnthropicStreamUsageRecorder(reservation, parse);
    var downstreamConnected := true;
    forwarded, observed := [], 0;
    ghost var sent := 0;
    while true
      invariant observed <= |provider| && fresh(usageRecorder) && fresh(usageRecorder.bufferedEvent)
      invariant usageRecorder.Valid() && usageRecorder.parse == parse && usageRecorder.reservation == Some(reservation)
      invariant usageRecorder.seen == DataOf(provider[..observed])
      invariant forall i :: 0 <= i < observed ==> !stops(i)
      invariant forall i :: 0 <= i < observed ==> provider[i].Data?
      invariant sent <= observed && IsSentUpTo(sends, sent, observed) && forwarded == Passed(provider[..sent])
      invariant if downstreamConnected then sent == observed else sent < observed && sends(sent) == ClientGone
      decreases |provider| - observed
    {
      if stops(observed) || observed == |provider| {
        break;
      }
      var result := provider[observed];
      DataSteps(provider, observed);
      PassedGrows(provider, observed);
      observed := observed + 1;
      match result
      case Data(chunk) =>
        usageRecorder.ObserveChunk(chunk);
        if downstreamConnected {
          OneMoreSend(sends, observed - 1);
          match sends(observed - 1)
          case Interrupted => break;
          case ClientGone => downstreamConnected := false;
          case Sent =>
            forwarded := forwarded + [Chunk(chunk)];
            sent := observed;
        }
      case Broken =>
        if downstreamConnected {
          OneMoreSend(sends, observed - 1);
          if sends(observed - 1) == Sent {
            forwarded := forwarded + [ProviderError];
            sent := observed;
          }
        }
        break;
    }
    SentUpToOnePoint(sends, sent, observed);
    SentIsData(provider, sends, sent, observed);
    r := usageRecorder.RecordObservedUsage();
  }
}
