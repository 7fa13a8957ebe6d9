/** The usage recorders of `anthropic.rs` and `openai.rs`: usage read from event data as a response
    streams by. JSON parsing is a parameter; documents are the trees of `JsonValues`. */
module UsageRecorders {
  import opened Prelude
  import opened JsonValues
  import opened Sse

  type Parser = seq<byte> -> Option<Value>

  // Anthropic

  datatype AnthropicUsage = AnthropicUsage(cacheCreation: Option<u64>, cacheRead: Option<u64>, input: Option<u64>,
                                           output: Option<u64>) {
    function TotalTokens(): nat {
      cacheCreation.GetOr(0) + cacheRead.GetOr(0) + input.GetOr(0) + output.GetOr(0)
    }

    predicate HasUsage() {
      cacheCreation.Some? || cacheRead.Some? || input.Some? || output.Some?
    }

    /** Counts that are present replace the ones seen before. */
    function UpdatedBy(later: AnthropicUsage): AnthropicUsage {
      AnthropicUsage(if later.cacheCreation.Some? then later.cacheCreation else cacheCreation,
                     if later.cacheRead.Some? then later.cacheRead else cacheRead,
                     if later.input.Some? then later.input else input,
                     if later.output.Some? then later.output else output)
    }
  }

  const NO_USAGE := AnthropicUsage(None, None, None, None)

  /** `anthropic_usage_from_json_value` */
  function AnthropicUsageOf(value: Value): Option<AnthropicUsage> {
    var usage := AnthropicUsage(GetU64(value, "cache_creation_input_tokens"), GetU64(value, "cache_read_input_tokens"),
                                GetU64(value, "input_tokens"), GetU64(value, "output_tokens"));
    if usage.HasUsage() then Some(usage) else None
  }

  /** The usage object that an event document carries, if its type is one that does. */
  function AnthropicUsageIn(document: Value): Option<Value> {
    var kind := Get(document, "type");
    if kind == Some(Str("message_start")) then
      match Get(document, "message")
      case None => None
      case Some(message) => Get(message, "usage")
    else if kind == Some(Str("message_delta")) then Get(document, "usage")
    else None
  }

  function AnthropicAfterDocument(usage: AnthropicUsage, document: Value): AnthropicUsage {
    match AnthropicUsageIn(document)
    case None => usage
    case Some(value) =>
      match AnthropicUsageOf(value)
      case None => usage
      case Some(later) => usage.UpdatedBy(later)
  }

  /** `AnthropicStreamUsage::observe_event` */
  function AnthropicAfterEvent(usage: AnthropicUsage, event: seq<byte>, parse: Parser): AnthropicUsage {
    match EventData(event)
    case None => usage
    case Some(data) =>
      match parse(data)
      case None => usage
      case Some(document) => AnthropicAfterDocument(usage, document)
  }

  function AnthropicAfter(usage: AnthropicUsage, events: seq<seq<byte>>, parse: Parser): AnthropicUsage
    decreases |events|
  {
    if events == [] then usage else AnthropicAfter(AnthropicAfterEvent(usage, events[0], parse), events[1..], parse)
  }

  lemma {:induction false} AnthropicAfterAppend(usage: AnthropicUsage, a: seq<seq<byte>>, b: seq<seq<byte>>,
                                                parse: Parser)
    ensures AnthropicAfter(usage, a + b, parse) == AnthropicAfter(AnthropicAfter(usage, a, parse), b, parse)
    decreases |a|
  {
    hide AnthropicAfterEvent;
    if a == [] {
      assert a + b == b;
    } else {
      assert (a + b)[1..] == a[1..] + b;
      AnthropicAfterAppend(AnthropicAfterEvent(usage, a[0], parse), a[1..], b, parse);
    }
  }

  /** What a whole stream is charged, however it arrives; None charges the reservation's budget. */
  function AnthropicStreamCharge(bytes: seq<byte>, parse: Parser): Option<nat> {
    var usage := AnthropicAfter(NO_USAGE, Events(bytes), parse);
    if usage.HasUsage() then Some(usage.TotalTokens()) else None
  }

  /** `completed_response_tokens` */
  function AnthropicResponseCharge(status: nat, body: seq<byte>, parse: Parser): Option<nat> {
    if 400 <= status < 500 then Some(0)
    else
      match parse(body)
      case None => None
      case Some(document) =>
        match Get(document, "usage")
        case None => None
        case Some(value) =>
          match AnthropicUsageOf(value)
          case None => None
          case Some(usage) => Some(usage.TotalTokens())
  }

  /** The sum of the counts that are there, if any is. */
  function SumOfCounts(creation: Option<u64>, read: Option<u64>, input: Option<u64>, output: Option<u64>): Option<nat> {
    if creation == read == input == output == None then None
    else
      var sum: nat := creation.GetOr(0) + read.GetOr(0) + input.GetOr(0) + output.GetOr(0);
      Some(sum)
  }

  /** Whatever it says, a refused request costs nothing; any other answer costs the sum of its counts,
      or the budget if it has none. */
  lemma AnthropicAnswersAreCharged(status: nat, body: seq<byte>, parse: Parser)
    ensures 400 <= status < 500 ==> AnthropicResponseCharge(status, body, parse) == Some(0)
    ensures
      var document := parse(body);
      var usage := if document.Some? then Get(document.value, "usage") else None;
      var count := (name: string) => if usage.Some? then GetU64(usage.value, name) else None;
      !(400 <= status < 500) ==>
        AnthropicResponseCharge(status, body, parse) ==
        SumOfCounts(count("cache_creation_input_tokens"), count("cache_read_input_tokens"), count("input_tokens"),
                    count("output_tokens"))
  {
  }

  /** A settled reservation leaves its recorder: what it is charged. */
  datatype Reconciliation<R> = Reconciliation(reservation: R, actualTokens: Option<nat>)

  /** `AnthropicStreamUsageRecorder` */
  class AnthropicStreamUsageRecorder<R(0)> {
    const parse: Parser
    const bufferedEvent: EventBuffer
    var usage: AnthropicUsage
    var reservation: Option<R>
    var recordingAttempted: bool
    ghost var seen: seq<seq<byte>>

    /** The recorder knows exactly what the bytes seen so far, as one piece, would tell it. */
    ghost predicate Valid()
      reads this, bufferedEvent
    {
      && bufferedEvent.bytes == Leftover(Flatten(seen))
      && usage == AnthropicAfter(NO_USAGE, Events(Flatten(seen)), parse)
      && (recordingAttempted ==> reservation.None?)
    }

    constructor (reservation: R, parse: Parser)
      ensures Valid() && fresh(bufferedEvent)
      ensures seen == [] && this.parse == parse && this.reservation == Some(reservation)
    {
      this.parse := parse;
      this.reservation := Some(reservation);
      bufferedEvent := new EventBuffer();
      usage := NO_USAGE;
      recordingAttempted := false;
      seen := [];
      new;
      assert NextEvent([]) == None;
    }

    method ObserveChunk(chunk: seq<byte>)
      requires Valid()
      modifies this`usage, this`seen, bufferedEvent
      ensures Valid() && seen == old(seen) + [chunk]
    {
      hide AnthropicAfterEvent, NextEvent;
      ghost var all := bufferedEvent.bytes + chunk;
      EventsSplit(Flatten(seen), chunk);
      AnthropicAfterAppend(NO_USAGE, Events(Flatten(seen)), Events(all), parse);
      bufferedEvent.Extend(chunk);
      var event := bufferedEvent.TakeNextEvent();
      while event.Some?
        invariant AnthropicAfter(old(usage), Events(all), parse) ==
                  AnthropicAfter(usage,
                                 (if event.Some? then [event.value] else []) + Events(bufferedEvent.bytes), parse)
        invariant Leftover(all) == Leftover(bufferedEvent.bytes)
        invariant seen == old(seen)
        invariant event.None? ==> NextEvent(bufferedEvent.bytes) == None
        decreases event.Some?, |bufferedEvent.bytes|
      {
        ghost var rest := Events(bufferedEvent.bytes);
        assert ([event.value] + rest)[1..] == rest;
        usage := AnthropicAfterEvent(usage, event.value, parse);
        event := bufferedEvent.TakeNextEvent();
      }
      seen := seen + [chunk];
      assert seen[..|old(seen)|] == old(seen);
    }

    /** `record_observed_usage`: hands the reservation over. */
    method RecordObservedUsage() returns (r: Reconciliation<R>)
      requires Valid() && reservation.Some?
      modifies this`reservation, this`recordingAttempted
      ensures Valid() && reservation.None? && recordingAttempted
      ensures r == Reconciliation(old(reservation).value, AnthropicStreamCharge(Flatten(seen), parse))
    {
      recordingAttempted := true;
      r := Reconciliation(reservation.value, if usage.HasUsage() then Some(usage.TotalTokens()) else None);
      reservation := None;
    }

    /** `drop`: a recorder that was never asked to record hands its reservation over now, if there is
        a `runtime` to reconcile it on; without one the reservation stays charged as it is. */
    method Drop(runtime: bool) returns (r: Option<Reconciliation<R>>)
      requires Valid()
      modifies this`reservation
      ensures Valid() && reservation.None?
      ensures r == if old(reservation).None? || !runtime then None
                   else Some(Reconciliation(old(reservation).value, AnthropicStreamCharge(Flatten(seen), parse)))
    {
      if recordingAttempted {
        return None;
      }
      if reservation.None? {
        return None;
      }
      var dropped := reservation.value;
      reservation := None;
      if !runtime {
        return None;
      }
      r := Some(Reconciliation(dropped, if usage.HasUsage() then Some(usage.TotalTokens()) else None));
    }
  }

  // OpenAI

  datatype OpenAiUsage = OpenAiUsage(completion: Option<u64>, prompt: Option<u64>, total: u64)

  const DONE: seq<byte> := [91, 68, 79, 78, 69, 93]

  /** The reported total, or else the sum of both counts if it is a `u64`. */
  function OpenAiTotal(value: Value): Option<u64> {
    var prompt, completion := GetU64(value, "prompt_tokens"), GetU64(value, "completion_tokens");
    match GetU64(value, "total_tokens")
    case Some(total) => Some(total)
    case None => if prompt.Some? && completion.Some? then CheckedAdd(prompt.value, completion.value) else None
  }

  /** `openai_usage_from_json_value` */
  function OpenAiUsageOf(value: Value): Option<OpenAiUsage> {
    match OpenAiTotal(value)
    case None => None
    case Some(total) => Some(OpenAiUsage(GetU64(value, "completion_tokens"), GetU64(value, "prompt_tokens"), total))
  }

  /** The usage in a response document: `openai_usage_from_json_slice` after parsing. */
  function OpenAiUsageIn(document: Value): Option<OpenAiUsage> {
    match Get(document, "usage")
    case None => None
    case Some(value) => OpenAiUsageOf(value)
  }

  /** `usage_from_sse_event` */
  function UsageFromEvent(event: seq<byte>, parse: Parser): Option<OpenAiUsage> {
    match EventData(event)
    case None => None
    case Some(data) =>
      if data == DONE then None
      else
        match parse(data)
        case None => None
        case Some(document) => OpenAiUsageIn(document)
  }

  function OpenAiAfter(usage: Option<OpenAiUsage>, events: seq<seq<byte>>, parse: Parser): Option<OpenAiUsage>
    decreases |events|
  {
    if events == [] then usage
    else
      var found := UsageFromEvent(events[0], parse);
      OpenAiAfter(if found.Some? then found else usage, events[1..], parse)
  }

  lemma {:induction false} OpenAiAfterAppend(usage: Option<OpenAiUsage>, a: seq<seq<byte>>, b: seq<seq<byte>>,
                                             parse: Parser)
    ensures OpenAiAfter(usage, a + b, parse) == OpenAiAfter(OpenAiAfter(usage, a, parse), b, parse)
    decreases |a|
  {
    hide UsageFromEvent;
    if a == [] {
      assert a + b == b;
    } else {
      assert (a + b)[1..] == a[1..] + b;
      var found := UsageFromEvent(a[0], parse);
      OpenAiAfterAppend(if found.Some? then found else usage, a[1..], b, parse);
    }
  }

  function OpenAiStreamCharge(bytes: seq<byte>, parse: Parser): Option<nat> {
    match OpenAiAfter(None, Events(bytes), parse)
    case None => None
    case Some(usage) => Some(usage.total)
  }

  function OpenAiResponseCharge(status: nat, body: seq<byte>, parse: Parser): Option<nat> {
    if 400 <= status < 500 then Some(0)
    else
      match parse(body)
      case None => None
      case Some(document) =>
        match OpenAiUsageIn(document)
        case None => None
        case Some(usage) => Some(usage.total)
  }

  /** The document tells a total: the one it reports, or, where it reports none, the sum of its two
      counts, if that is a `u64`. */
  predicate TellsTotal(document: Value, total: nat) {
    var usage := Get(document, "usage");
    && usage.Some?
    && var reported, prompt := GetU64(usage.value, "total_tokens"), GetU64(usage.value, "prompt_tokens");
       var completion := GetU64(usage.value, "completion_tokens");
       if reported.Some? then total == reported.value
       else prompt.Some? && completion.Some? && total == prompt.value + completion.value <= U64_MAX
  }

  lemma UsageTellsTotal(document: Value, n: nat)
    ensures TellsTotal(document, n) <==> OpenAiUsageIn(document).Some? && OpenAiUsageIn(document).value.total == n
  {
  }

  /** Whatever it says, a refused request costs nothing; any other answer costs the total its
      document tells, or the budget if it tells none. */
  lemma OpenAiAnswersAreCharged(status: nat, body: seq<byte>, parse: Parser, n: nat)
    ensures 400 <= status < 500 ==> OpenAiResponseCharge(status, body, parse) == Some(0)
    ensures !(400 <= status < 500) ==>
              (OpenAiResponseCharge(status, body, parse) == Some(n) <==>
               parse(body).Some? && TellsTotal(parse(body).value, n))
  {
    hide OpenAiUsageIn, TellsTotal;
    if parse(body).Some? {
      UsageTellsTotal(parse(body).value, n);
    }
  }

  /** `OpenAiStreamUsageRecorder` */
  class OpenAiStreamUsageRecorder<R(0)> {
    const parse: Parser
    const bufferedEvent: EventBuffer
    var usage: Option<OpenAiUsage>
    var reservation: Option<R>
    var recordingAttempted: bool
    ghost var seen: seq<seq<byte>>

    ghost predicate Valid()
      reads this, bufferedEvent
    {
      && bufferedEvent.bytes == Leftover(Flatten(seen))
      && usage == OpenAiAfter(None, Events(Flatten(seen)), parse)
      && (recordingAttempted ==> reservation.None?)
    }

    constructor (reservation: R, parse: Parser)
      ensures Valid() && fresh(bufferedEvent)
      ensures seen == [] && this.parse == parse && this.reservation == Some(reservation)
    {
      this.parse := parse;
      this.reservation := Some(reservation);
      bufferedEvent := new EventBuffer();
      usage := None;
      recordingAttempted := false;
      seen := [];
      new;
      assert NextEvent([]) == None;
    }

    method ObserveChunk(chunk: seq<byte>)
      requires Valid()
      modifies this`usage, this`seen, bufferedEvent
      ensures Valid() && seen == old(seen) + [chunk]
    {
      hide UsageFromEvent, NextEvent;
      ghost var all := bufferedEvent.bytes + chunk;
      EventsSplit(Flatten(seen), chunk);
      OpenAiAfterAppend(None, Events(Flatten(seen)), Events(all), parse);
      bufferedEvent.Extend(chunk);
      var event := bufferedEvent.TakeNextEvent();
      while event.Some?
        invariant OpenAiAfter(old(usage), Events(all), parse) ==
                  OpenAiAfter(usage, (if event.Some? then [event.value] else []) + Events(bufferedEvent.bytes), parse)
        invariant Leftover(all) == Leftover(bufferedEvent.bytes)
        invariant seen == old(seen)
        invariant event.None? ==> NextEvent(bufferedEvent.bytes) == None
        decreases event.Some?, |bufferedEvent.bytes|
      {
        ghost var rest := Events(bufferedEvent.bytes);
        assert ([event.value] + rest)[1..] == rest;
        var found := UsageFromEvent(event.value, parse);
        if found.Some? {
          usage := found;
        }
        event := bufferedEvent.TakeNextEvent();
      }
      seen := seen + [chunk];
      assert seen[..|old(seen)|] == old(seen);
    }

    method RecordObservedUsage() returns (r: Reconciliation<R>)
      requires Valid() && reservation.Some?
      modifies this`reservation, this`recordingAttempted
      ensures Valid() && reservation.None? && recordingAttempted
      ensures r == Reconciliation(old(reservation).value, OpenAiStreamCharge(Flatten(seen), parse))
    {
      recordingAttempted := true;
      r := Reconciliation(reservation.value, if usage.Some? then Some(usage.value.total) else None);
      reservation := None;
    }

    method Drop(runtime: bool) returns (r: Option<Reconciliation<R>>)
      requires Valid()
      modifies this`reservation
      ensures Valid() && reservation.None?
      ensures r == if old(reservation).None? || !runtime then None
                   else Some(Reconciliation(old(reservation).value, OpenAiStreamCharge(Flatten(seen), parse)))
    {
      if recordingAttempted {
        return None;
      }
      if reservation.None? {
        return None;
      }
      var dropped := reservation.value;
      reservation := None;
      if !runtime {
        return None;
      }
      r := Some(Reconciliation(dropped, if usage.Some? then Some(usage.value.total) else None));
    }
  }
}
