/** The event streams of the mock servers (`provider-mock/src/anthropic.rs`, `openai.rs`) and what
    the proxy's recorders make of them. Writing and parsing JSON are parameters. */
module MockProviders {
  import opened Prelude
  import opened JsonValues
  import opened MockStreams
  import opened Sse
  import opened UsageRecorders

  type Writer = Value -> seq<byte>

  const MOCK_INPUT_TOKENS: nat := 12
  const MOCK_OUTPUT_TOKENS: nat := 6
  const ANTHROPIC_STREAM_EVENT_OVERHEAD: nat := 5
  const OPENAI_STREAM_EVENT_OVERHEAD: nat := 4

  datatype Event = Named(name: string, data: Value) | Unnamed(data: Value) | Done

  const EVENT: seq<byte> := [101, 118, 101, 110, 116, 58, 32]

  function Ascii(s: string): seq<byte> {
    seq(|s|, i requires 0 <= i < |s| => (s[i] as int % 128) as byte)
  }

  function Payload(e: Event, write: Writer): seq<byte> {
    if e.Done? then DONE else write(e.data)
  }

  /** An event without its blank line: `event: {name}\ndata: {data}` or `data: {data}`. */
  function Body(e: Event, write: Writer): seq<byte> {
    if e.Named? then EVENT + Ascii(e.name) + [LF] + DATA + [32] + write(e.data)
    else DATA + [32] + Payload(e, write)
  }

  function Bodies(events: seq<Event>, write: Writer): seq<seq<byte>> {
    seq(|events|, i requires 0 <= i < |events| => Body(events[i], write))
  }

  /** The chunks a mock server sends: `sse_event`, `data_event`. */
  function Printed(events: seq<Event>, write: Writer): seq<seq<byte>> {
    Framed(Bodies(events, write))
  }

  /** What is asked of JSON: a document is written on one line that starts with its brace, and
      parsing gives it back as a map. */
  predicate IsWritten(v: Value, write: Writer, parse: Parser) {
    var text := write(v);
    parse(text) == Some(Canonical(v)) && IsOneLine(text) && text != [] && text[0] == 123
  }

  predicate IsPrintable(e: Event, write: Writer, parse: Parser) {
    match e
    case Named(name, data) => IsOneLine(Ascii(name)) && IsWritten(data, write, parse)
    case Unnamed(data) => IsWritten(data, write, parse)
    case Done => true
  }

  lemma PayloadIsPlain(e: Event, write: Writer, parse: Parser)
    requires IsPrintable(e, write, parse)
    ensures var p := Payload(e, write); IsOneLine(p) && p != [] && !IsSpace(p[0])
    ensures !e.Done? ==> Payload(e, write) != DONE
  {
  }

  /** A printed event is framed intact ... */
  lemma BodyIsFramable(e: Event, write: Writer, parse: Parser)
    requires IsPrintable(e, write, parse)
    ensures IsFramable(Body(e, write))
  {
    hide IsPrintable, Payload, IsWritten;
    PayloadIsPlain(e, write, parse);
    var p := Payload(e, write);
    var data := DATA + [32] + p;
    OneLineAppend(DATA + [32], p);
    if e.Named? {
      NameIsOneLine(e, write, parse);
      assert Body(e, write) == (EVENT + Ascii(e.name)) + [LF] + data by {
        assert p == write(e.data) by {
          PayloadOf(e, write);
        }
      }
      TwoLinesAreFramable(EVENT + Ascii(e.name), data);
    } else {
      OneLineIsFramable(data);
    }
  }

  lemma PayloadOf(e: Event, write: Writer)
    ensures !e.Done? ==> Payload(e, write) == write(e.data)
  {
  }

  lemma NameIsOneLine(e: Event, write: Writer, parse: Parser)
    requires e.Named? && IsPrintable(e, write, parse)
    ensures IsOneLine(EVENT + Ascii(e.name))
  {
    OneLineAppend(EVENT, Ascii(e.name));
  }

  lemma OneLineAppend(a: seq<byte>, b: seq<byte>)
    requires IsOneLine(a) && IsOneLine(b)
    ensures IsOneLine(a + b)
  {
  }

  lemma OneLineIsFramable(line: seq<byte>)
    requires IsOneLine(line)
    ensures IsFramable(line)
  {
    forall i | 0 <= i < |line| ensures line[i] != CR && line[i] != LF {
      assert !EndsLine(line[i]);
    }
  }

  lemma TwoLinesAreFramable(a: seq<byte>, b: seq<byte>)
    requires IsOneLine(a) && IsOneLine(b) && b != []
    ensures IsFramable(a + [LF] + b)
  {
    var body := a + [LF] + b;
    forall i | 0 <= i < |body| ensures body[i] != CR && (body[i] == LF ==> i == |a|) {
      if i < |a| {
        assert !EndsLine(a[i]);
      } else if i > |a| {
        assert body[i] == b[i - |a| - 1];
        assert !EndsLine(b[i - |a| - 1]);
      }
    }
    assert body[|a| + 1] == b[0];
    assert !EndsLine(b[0]);
  }

  /** ... and its data is exactly what was printed. */
  lemma BodyCarriesPayload(e: Event, write: Writer, parse: Parser)
    requires IsPrintable(e, write, parse)
    ensures EventData(Body(e, write)) == Some(Payload(e, write))
  {
    hide IsPrintable, Payload, IsWritten, IsOneLine;
    PayloadIsPlain(e, write, parse);
    PayloadOf(e, write);
    var p := Payload(e, write);
    DataLineCarries(p);
    OneLineData(p);
    if e.Named? {
      var name := EVENT + Ascii(e.name);
      NameIsOneLine(e, write, parse);
      NameLineHasNoData(name);
      var lines := [name, DATA + [32] + p];
      EndingsDoNotMatter(lines, n => Lf);
      assert lines[1..] == [DATA + [32] + p];
      assert Written(lines, n => Lf) == name + [LF] + (DATA + [32] + p);
      assert Body(e, write) == name + [LF] + (DATA + [32] + p);
    } else {
      EndingsDoNotMatter([DATA + [32] + p], n => Lf);
    }
  }

  lemma OneLineData(p: seq<byte>)
    requires IsOneLine(p)
    ensures IsOneLine(DATA + [32] + p)
  {
    OneLineAppend(DATA + [32], p);
  }

  lemma DataLineCarries(p: seq<byte>)
    requires p != [] && !IsSpace(p[0])
    ensures LineData(DATA + [32] + p) == Some(p)
    ensures DataLines([DATA + [32] + p]) == [p]
  {
    var line := DATA + [32] + p;
    assert line[..5] == DATA && line[5..] == [32] + p;
    assert ([32] + p)[1..] == p && ([32] + p)[0] == 32;
    assert TrimStart([32] + p) == TrimStart(p) == p;
    var lines := [line];
    assert lines[1..] == [];
  }

  lemma NameLineHasNoData(name: seq<byte>)
    requires name != [] && name[0] == 101
    ensures LineData(name) == None
    ensures forall rest :: DataLines([name] + rest) == DataLines(rest)
  {
    if |name| >= 5 {
      assert name[..5][0] == 101;
    }
    forall rest ensures DataLines([name] + rest) == DataLines(rest) {
      assert ([name] + rest)[1..] == rest;
    }
  }

  /** However the printed stream is cut up on its way, the proxy takes out the printed events, in
      order and with nothing left over, and their data is what was printed. */
  lemma PrintedEventsAreRead(events: seq<Event>, chunks: seq<seq<byte>>, write: Writer, parse: Parser)
    requires forall e :: e in events ==> IsPrintable(e, write, parse)
    requires Flatten(chunks) == Flatten(Printed(events, write))
    ensures Receive(chunks) == Received(Bodies(events, write), [])
    ensures forall i :: 0 <= i < |events| ==> EventData(Receive(chunks).events[i]) == Some(Payload(events[i], write))
  {
    hide IsPrintable, Body, Payload, Receive, Events, Leftover, EventData;
    ChunkingIsInvisible(chunks);
    forall i | 0 <= i < |events|
      ensures IsFramable(Bodies(events, write)[i]) &&
              EventData(Bodies(events, write)[i]) == Some(Payload(events[i], write))
    {
      BodyIsFramable(events[i], write, parse);
      BodyCarriesPayload(events[i], write, parse);
    }
    FramedBodiesAreRead(Bodies(events, write));
  }

  // Anthropic

  /** A token count an accepted control may carry. */
  type TokenCount = n: nat | n <= MAX_TOKEN_COUNT

  datatype AnthropicControl = AnthropicControl(cacheCreation: TokenCount, cacheRead: TokenCount, common: Control)

  function MessageStart(model: string, c: AnthropicControl): Event {
    Named("message_start", Obj([
      Field("type", Str("message_start")),
      Field("message", Obj([
        Field("id", Str("msg_mock_anthropic_001")),
        Field("type", Str("message")),
        Field("role", Str("assistant")),
        Field("content", Arr([])),
        Field("model", Str(model)),
        Field("stop_reason", Null),
        Field("stop_sequence", Null),
        Field("usage", AnthropicUsageValue(c, 1))]))]))
  }

  function AnthropicUsageValue(c: AnthropicControl, output: u64): Value {
    Obj([Field("cache_creation_input_tokens", Unsigned(c.cacheCreation)),
         Field("cache_read_input_tokens", Unsigned(c.cacheRead)),
         Field("input_tokens", Unsigned(MOCK_INPUT_TOKENS)),
         Field("output_tokens", Unsigned(output))])
  }

  function ContentBlockStart(r: ResponseType): Event {
    Named("content_block_start", Obj([
      Field("type", Str("content_block_start")),
      Field("index", Unsigned(0)),
      Field("content_block", match r
        case Text => Obj([Field("type", Str("text")), Field("text", Str(""))])
        case ToolUse => Obj([Field("type", Str("tool_use")), Field("id", Str("toolu_mock_weather_001")),
                             Field("name", Str("get_weather")), Field("input", Obj([]))]))]))
  }

  function ContentBlockDelta(r: ResponseType, piece: string): Event {
    Named("content_block_delta", Obj([
      Field("type", Str("content_block_delta")),
      Field("index", Unsigned(0)),
      Field("delta", match r
        case Text => Obj([Field("type", Str("text_delta")), Field("text", Str(piece))])
        case ToolUse => Obj([Field("type", Str("input_json_delta")), Field("partial_json", Str(piece))]))]))
  }

  const STREAM_ERROR: Event := Named("error", Obj([
    Field("type", Str("error")),
    Field("error",
          Obj([Field("type", Str("overloaded_error")), Field("message", Str("Mock mid-stream overloaded error."))]))]))

  function StreamCompletion(r: ResponseType): seq<Event> {
    [Named("content_block_stop", Obj([Field("type", Str("content_block_stop")), Field("index", Unsigned(0))])),
     Named("message_delta", Obj([
       Field("type", Str("message_delta")),
       Field("delta",
             Obj([Field("stop_reason", Str(if r.Text? then "end_turn" else "tool_use")),
                  Field("stop_sequence", Null)])),
       Field("usage", Obj([Field("output_tokens", Unsigned(MOCK_OUTPUT_TOKENS))]))])),
     Named("message_stop", Obj([Field("type", Str("message_stop"))]))]
  }

  function ContentBlockDeltas(r: ResponseType, pieces: seq<string>): seq<Event> {
    seq(|pieces|, i requires 0 <= i < |pieces| => ContentBlockDelta(r, pieces[i]))
  }

  /** The stream of a control: cut short by the error event after the requested number of deltas. */
  function AnthropicEvents(model: string, c: AnthropicControl, pieces: seq<string>): seq<Event> {
    var r := c.common.responseType;
    [MessageStart(model, c), ContentBlockStart(r)] +
    (if c.common.errorAfter.Some? && c.common.errorAfter.value <= |pieces|
     then ContentBlockDeltas(r, pieces[..c.common.errorAfter.value]) + [STREAM_ERROR]
     else ContentBlockDeltas(r, pieces) + StreamCompletion(r))
  }

  /** The non-streaming body for the same control; `content` is the message. */
  function AnthropicResponse(model: string, c: AnthropicControl, content: Value): Value {
    Obj([Field("id", Str("msg_mock_anthropic_001")),
         Field("type", Str("message")),
         Field("role", Str("assistant")),
         Field("content", content),
         Field("model", Str(model)),
         Field("stop_reason", Str(if c.common.responseType.Text? then "end_turn" else "tool_use")),
         Field("stop_sequence", Null),
         Field("usage", AnthropicUsageValue(c, MOCK_OUTPUT_TOKENS))])
  }

  /** The vector of events a mock server fills. */
  class AnthropicEventLog {
    var events: seq<Event>

    constructor (model: string, c: AnthropicControl)
      ensures events == [MessageStart(model, c)]
    {
      events := [MessageStart(model, c)];
    }

    /** `append_stream_error_if_requested` */
    method AppendStreamErrorIfRequested(c: AnthropicControl, completedChunks: nat) returns (appended: bool)
      modifies this
      ensures appended <==> c.common.errorAfter == Some(completedChunks)
      ensures events == old(events) + if appended then [STREAM_ERROR] else []
    {
      if c.common.errorAfter != Some(completedChunks) {
        return false;
      }
      events := events + [STREAM_ERROR];
      return true;
    }

    /** `append_text_events` and `append_tool_events`, which differ in the block they describe. */
    method AppendContent(c: AnthropicControl, pieces: seq<string>)
      requires |pieces| == c.common.chunkCount
      modifies this
      ensures forall model :: old(events) == [MessageStart(model, c)] ==> events == AnthropicEvents(model, c, pieces)
    {
      hide MessageStart, ContentBlockStart, ContentBlockDelta, StreamCompletion, STREAM_ERROR;
      var r := c.common.responseType;
      var error := c.common.errorAfter;
      events := events + [ContentBlockStart(r)];
      ghost var head := events;
      for index := 0 to |pieces|
        invariant events == head + ContentBlockDeltas(r, pieces[..index])
        invariant error.None? || error.value >= index
      {
        var failed := AppendStreamErrorIfRequested(c, index);
        if failed {
          return;
        }
        assert ContentBlockDeltas(r, pieces[..index + 1]) ==
               ContentBlockDeltas(r, pieces[..index]) + [ContentBlockDelta(r, pieces[index])];
        events := events + [ContentBlockDelta(r, pieces[index])];
      }
      assert pieces[..|pieces|] == pieces;
      var failed := AppendStreamErrorIfRequested(c, c.common.chunkCount);
      if failed {
        return;
      }
      events := events + StreamCompletion(r);
    }
  }

  /** `streaming_events` */
  method AnthropicStreamingEvents(model: string, c: AnthropicControl, responseText: string, toolInput: string)
    returns (events: seq<Event>)
    requires c.common.chunkCount >= 1 && toolInput != []
    ensures exists pieces: seq<string> ::
              && |pieces| == c.common.chunkCount
              && Flatten(pieces) == (if c.common.responseType.Text? then responseText else toolInput)
              && events == AnthropicEvents(model, c, pieces)
  {
    hide AnthropicEvents;
    var log := new AnthropicEventLog(model, c);
    var pieces;
    match c.common.responseType {
      case Text => pieces := SplitText(responseText, c.common.chunkCount);
      case ToolUse => pieces := SplitToolInput(toolInput, c.common.chunkCount);
    }
    log.AppendContent(c, pieces);
    events := log.events;
  }

  // What the recorder makes of it

  function CanonicalOf(v: Option<Value>): Option<Value> {
    if v.Some? then Some(Canonical(v.value)) else None
  }

  lemma GetCanonical(v: Value, name: string)
    ensures Get(Canonical(v), name) == CanonicalOf(Get(v, name))
    ensures GetU64(Canonical(v), name) == GetU64(v, name)
  {
    if v.Obj? {
      CanonicalFieldsKeepMap(v.fields, name);
    }
  }

  lemma UsageOfCanonical(v: Value)
    ensures AnthropicUsageOf(Canonical(v)) == AnthropicUsageOf(v)
    ensures OpenAiUsageOf(Canonical(v)) == OpenAiUsageOf(v)
  {
    hide GetU64;
    GetCanonical(v, "cache_creation_input_tokens");
    GetCanonical(v, "cache_read_input_tokens");
    GetCanonical(v, "input_tokens");
    GetCanonical(v, "output_tokens");
    GetCanonical(v, "prompt_tokens");
    GetCanonical(v, "completion_tokens");
    GetCanonical(v, "total_tokens");
  }

  lemma UsageInCanonical(document: Value)
    ensures AnthropicUsageIn(Canonical(document)) == CanonicalOf(AnthropicUsageIn(document))
    ensures OpenAiUsageIn(Canonical(document)) == OpenAiUsageIn(document)
  {
    hide Get, AnthropicUsageOf, OpenAiUsageOf;
    GetCanonical(document, "type");
    GetCanonical(document, "message");
    GetCanonical(document, "usage");
    if Get(document, "message").Some? {
      GetCanonical(Get(document, "message").value, "usage");
    }
    if Get(document, "usage").Some? {
      UsageOfCanonical(Get(document, "usage").value);
    }
    StringsAreCanonical(Get(document, "type"), "message_start");
    StringsAreCanonical(Get(document, "type"), "message_delta");
  }

  lemma StringsAreCanonical(v: Option<Value>, s: string)
    ensures CanonicalOf(v) == Some(Str(s)) <==> v == Some(Str(s))
  {
  }

  /** A printed event does to the recorder what its document says. */
  lemma AnthropicAfterBody(usage: AnthropicUsage, e: Event, write: Writer, parse: Parser)
    requires IsPrintable(e, write, parse) && !e.Done?
    ensures AnthropicAfterEvent(usage, Body(e, write), parse) == AnthropicAfterDocument(usage, e.data)
  {
    hide Body, EventData, AnthropicUsageIn, AnthropicUsageOf, IsOneLine;
    BodyCarriesPayload(e, write, parse);
    UsageInCanonical(e.data);
    if AnthropicUsageIn(e.data).Some? {
      UsageOfCanonical(AnthropicUsageIn(e.data).value);
    }
  }

  function AnthropicAfterDocuments(usage: AnthropicUsage, events: seq<Event>): AnthropicUsage
    requires forall e :: e in events ==> !e.Done?
  {
    if events == [] then usage
    else AnthropicAfterDocument(AnthropicAfterDocuments(usage, events[..|events| - 1]), events[|events| - 1].data)
  }

  lemma {:induction false} AnthropicAfterBodies(usage: AnthropicUsage, events: seq<Event>, write: Writer, parse: Parser)
    requires forall e :: e in events ==> IsPrintable(e, write, parse) && !e.Done?
    ensures AnthropicAfter(usage, Bodies(events, write), parse) == AnthropicAfterDocuments(usage, events)
    decreases |events|
  {
    hide IsPrintable, Body, AnthropicAfterEvent, AnthropicAfterDocument;
    if events != [] {
      var n := |events| - 1;
      AnthropicAfterBodies(usage, events[..n], write, parse);
      var last := [Body(events[n], write)];
      assert Bodies(events, write) == Bodies(events[..n], write) + last;
      AnthropicAfterAppend(usage, Bodies(events[..n], write), last, parse);
      AnthropicAfterBody(AnthropicAfterDocuments(usage, events[..n]), events[n], write, parse);
      assert last[1..] == [];
    }
  }

  /** The count of one kind that an event tells. */
  function CountTold(e: Event, name: string): Option<u64>
    requires !e.Done?
  {
    match AnthropicUsageIn(e.data)
    case None => None
    case Some(usage) => GetU64(usage, name)
  }

  /** The latest count of one kind that a stream tells: a later one replaces an earlier one, and an
      event without one leaves it alone. */
  function LastTold(events: seq<Event>, name: string): Option<u64>
    requires forall e :: e in events ==> !e.Done?
  {
    if events == [] then None
    else
      var told := CountTold(events[|events| - 1], name);
      if told.Some? then told else LastTold(events[..|events| - 1], name)
  }

  lemma {:induction false} AfterDocumentsIsLastTold(events: seq<Event>)
    requires forall e :: e in events ==> !e.Done?
    ensures AnthropicAfterDocuments(NO_USAGE, events) ==
            AnthropicUsage(LastTold(events, "cache_creation_input_tokens"), LastTold(events, "cache_read_input_tokens"),
                           LastTold(events, "input_tokens"), LastTold(events, "output_tokens"))
    decreases |events|
  {
    hide AnthropicUsageIn, GetU64;
    if events != [] {
      AfterDocumentsIsLastTold(events[..|events| - 1]);
    }
  }

  /** Whatever a provider streams, and however it is cut up on its way, the charge is the sum of the
      latest count of each of the four kinds, or the budget when no count was told. */
  lemma AnthropicChargeIsLastTold(events: seq<Event>, chunks: seq<seq<byte>>, write: Writer, parse: Parser)
    requires forall e :: e in events ==> IsPrintable(e, write, parse) && !e.Done?
    requires Flatten(chunks) == Flatten(Printed(events, write))
    ensures
      AnthropicStreamCharge(Flatten(chunks), parse) ==
      SumOfCounts(LastTold(events, "cache_creation_input_tokens"), LastTold(events, "cache_read_input_tokens"),
                  LastTold(events, "input_tokens"), LastTold(events, "output_tokens"))
  {
    hide IsPrintable, AnthropicAfterDocuments, AnthropicAfter, Printed, Receive, Events, Leftover, LastTold;
    PrintedEventsAreRead(events, chunks, write, parse);
    ChunkingIsInvisible(chunks);
    AnthropicAfterBodies(NO_USAGE, events, write, parse);
    AfterDocumentsIsLastTold(events);
  }

  /** Events of any other type leave the recorder alone. */
  lemma OtherTypesAreIgnored(usage: AnthropicUsage, fields: seq<Field>, kind: string)
    requires Lookup(fields, "type") == Some(Str(kind)) && |kind| != 13
    ensures AnthropicAfterDocument(usage, Obj(fields)) == usage
  {
    assert |"message_start"| == 13 && |"message_delta"| == 13;
  }

  lemma {:induction false} DeltasAreIgnored(usage: AnthropicUsage, r: ResponseType, pieces: seq<string>)
    ensures forall e :: e in ContentBlockDeltas(r, pieces) ==> !e.Done?
    ensures AnthropicAfterDocuments(usage, ContentBlockDeltas(r, pieces)) == usage
    decreases |pieces|
  {
    if pieces != [] {
      var n := |pieces| - 1;
      DeltasAreIgnored(usage, r, pieces[..n]);
      var deltas := ContentBlockDeltas(r, pieces);
      assert deltas[..n] == ContentBlockDeltas(r, pieces[..n]);
      var fields := deltas[n].data.fields;
      LookupAt(fields, 0);
      OtherTypesAreIgnored(usage, fields, "content_block_delta");
    }
  }

  lemma {:induction false} AfterDocumentsAppend(usage: AnthropicUsage, a: seq<Event>, b: seq<Event>)
    requires forall e :: e in a || e in b ==> !e.Done?
    ensures AnthropicAfterDocuments(usage, a + b) == AnthropicAfterDocuments(AnthropicAfterDocuments(usage, a), b)
    decreases |b|
  {
    hide AnthropicAfterDocument;
    if b == [] {
      assert a + b == a;
    } else {
      var n := |b| - 1;
      AfterDocumentsAppend(usage, a, b[..n]);
      assert (a + b)[..|a + b| - 1] == a + b[..n];
    }
  }

  lemma AfterFew(usage: AnthropicUsage, a: Event, b: Event, c: Event)
    requires !a.Done? && !b.Done? && !c.Done?
    ensures
      var afterTwo := AnthropicAfterDocument(AnthropicAfterDocument(usage, a.data), b.data);
      && AnthropicAfterDocuments(usage, [a, b]) == afterTwo
      && AnthropicAfterDocuments(usage, [a, b, c]) == AnthropicAfterDocument(afterTwo, c.data)
  {
    hide AnthropicAfterDocument;
    assert [a, b, c][..2] == [a, b] && [a, b][..1] == [a] && [a][..0] == [];
    assert AnthropicAfterDocuments(usage, []) == usage;
    assert AnthropicAfterDocuments(usage, [a]) == AnthropicAfterDocument(usage, a.data);
  }

  lemma UsageValueIsRead(c: AnthropicControl, output: u64)
    ensures AnthropicUsageOf(AnthropicUsageValue(c, output)) ==
            Some(AnthropicUsage(Some(c.cacheCreation), Some(c.cacheRead), Some(MOCK_INPUT_TOKENS), Some(output)))
  {
    var fields := AnthropicUsageValue(c, output).fields;
    assert fields[0].name[0] == fields[1].name[0] == 'c' && fields[2].name[0] == 'i' && fields[3].name[0] == 'o';
    assert |fields[0].name| != |fields[1].name|;
    LookupAt(fields, 0);
    LookupAt(fields, 1);
    LookupAt(fields, 2);
    LookupAt(fields, 3);
  }

  lemma MessageStartIsRead(model: string, c: AnthropicControl)
    ensures AnthropicAfterDocument(NO_USAGE, MessageStart(model, c).data) ==
            AnthropicUsage(Some(c.cacheCreation), Some(c.cacheRead), Some(MOCK_INPUT_TOKENS), Some(1))
  {
    hide AnthropicUsageOf, AnthropicUsageValue;
    var fields := MessageStart(model, c).data.fields;
    assert |fields[0].name| != |fields[1].name|;
    LookupAt(fields, 0);
    LookupAt(fields, 1);
    LookupAt(fields[1].value.fields, 7);
    UsageValueIsRead(c, 1);
  }

  lemma BlockStartIsIgnored(usage: AnthropicUsage, r: ResponseType)
    ensures AnthropicAfterDocument(usage, ContentBlockStart(r).data) == usage
  {
    var fields := ContentBlockStart(r).data.fields;
    LookupAt(fields, 0);
    OtherTypesAreIgnored(usage, fields, "content_block_start");
  }

  lemma ErrorIsIgnored(usage: AnthropicUsage)
    ensures AnthropicAfterDocument(usage, STREAM_ERROR.data) == usage
  {
    var fields := STREAM_ERROR.data.fields;
    LookupAt(fields, 0);
    OtherTypesAreIgnored(usage, fields, "error");
  }

  lemma MessageDeltaIsRead(usage: AnthropicUsage, r: ResponseType)
    ensures AnthropicAfterDocument(usage, StreamCompletion(r)[1].data) == usage.(output := Some(MOCK_OUTPUT_TOKENS))
  {
    var fields := StreamCompletion(r)[1].data.fields;
    LookupAt(fields, 0);
    LookupAt(fields, 2);
    var counts := fields[2].value.fields;
    LookupAt(counts, 0);
    OnlyOutput(counts[0]);
    assert fields[0].value != Str("message_start") by {
      assert "message_delta"[8] != "message_start"[8];
    }
  }

  lemma OnlyOutput(f: Field)
    requires f == Field("output_tokens", Unsigned(MOCK_OUTPUT_TOKENS))
    ensures AnthropicUsageOf(Obj([f])) == Some(NO_USAGE.(output := Some(MOCK_OUTPUT_TOKENS)))
  {
    LookupAt([f], 0);
    LookupNone([f], "input_tokens");
    assert |f.name| == 13;
    LookupNone([f], "cache_creation_input_tokens");
    LookupNone([f], "cache_read_input_tokens");
  }

  lemma CompletionIsRead(usage: AnthropicUsage, r: ResponseType)
    ensures AnthropicAfterDocuments(usage, StreamCompletion(r)) == usage.(output := Some(MOCK_OUTPUT_TOKENS))
  {
    hide AnthropicAfterDocument;
    var events := StreamCompletion(r);
    LookupAt(events[0].data.fields, 0);
    OtherTypesAreIgnored(usage, events[0].data.fields, "content_block_stop");
    MessageDeltaIsRead(usage, r);
    LookupAt(events[2].data.fields, 0);
    OtherTypesAreIgnored(usage.(output := Some(MOCK_OUTPUT_TOKENS)), events[2].data.fields, "message_stop");
    assert events == [events[0], events[1], events[2]];
    AfterFew(usage, events[0], events[1], events[2]);
  }

  /** The counts a control stands for; a stream cut short reports the one output token it began with. */
  function AnthropicTokens(c: AnthropicControl): nat {
    c.cacheCreation + c.cacheRead + MOCK_INPUT_TOKENS + (if c.common.errorAfter.Some? then 1 else MOCK_OUTPUT_TOKENS)
  }

  lemma AnthropicEventsMean(model: string, c: AnthropicControl, pieces: seq<string>)
    requires c.common.errorAfter.Some? ==> c.common.errorAfter.value <= |pieces|
    ensures forall e :: e in AnthropicEvents(model, c, pieces) ==> !e.Done?
    ensures
      var usage := AnthropicAfterDocuments(NO_USAGE, AnthropicEvents(model, c, pieces));
      usage.HasUsage() && usage.TotalTokens() == AnthropicTokens(c)
  {
    hide AnthropicAfterDocument, MessageStart, ContentBlockStart, StreamCompletion, STREAM_ERROR, ContentBlockDeltas;
    var r := c.common.responseType;
    EventsAreNamed(model, c, pieces);
    var head := [MessageStart(model, c), ContentBlockStart(r)];
    var start := AnthropicUsage(Some(c.cacheCreation), Some(c.cacheRead), Some(MOCK_INPUT_TOKENS), Some(1));
    assert AnthropicAfterDocuments(NO_USAGE, head) == start by {
      MessageStartIsRead(model, c);
      BlockStartIsIgnored(start, r);
      AfterFew(NO_USAGE, head[0], head[1], head[1]);
    }
    if c.common.errorAfter.Some? {
      var deltas := ContentBlockDeltas(r, pieces[..c.common.errorAfter.value]);
      DeltasAreIgnored(start, r, pieces[..c.common.errorAfter.value]);
      AfterDocumentsAppend(start, deltas, [STREAM_ERROR]);
      ErrorIsIgnored(start);
      AfterDocumentsAppend(NO_USAGE, head, deltas + [STREAM_ERROR]);
    } else {
      var deltas := ContentBlockDeltas(r, pieces);
      DeltasAreIgnored(start, r, pieces);
      AfterDocumentsAppend(start, deltas, StreamCompletion(r));
      CompletionIsRead(start, r);
      AfterDocumentsAppend(NO_USAGE, head, deltas + StreamCompletion(r));
    }
  }

  lemma EventsAreNamed(model: string, c: AnthropicControl, pieces: seq<string>)
    ensures MessageStart(model, c).Named? && STREAM_ERROR.Named?
    ensures forall r :: ContentBlockStart(r).Named? && forall e :: e in StreamCompletion(r) ==> e.Named?
    ensures forall e :: e in AnthropicEvents(model, c, pieces) ==> e.Named?
  {
  }

  /** However the mock's stream is cut up, the proxy charges exactly what the control stands for. */
  lemma AnthropicStreamIsChargedExactly(model: string, c: AnthropicControl, pieces: seq<string>, chunks: seq<seq<byte>>,
                                        write: Writer, parse: Parser)
    requires c.common.errorAfter.Some? ==> c.common.errorAfter.value <= |pieces|
    requires forall e :: e in AnthropicEvents(model, c, pieces) ==> IsPrintable(e, write, parse)
    requires Flatten(chunks) == Flatten(Printed(AnthropicEvents(model, c, pieces), write))
    ensures AnthropicStreamCharge(Flatten(chunks), parse) == Some(AnthropicTokens(c))
  {
    hide AnthropicEvents, IsPrintable, AnthropicAfterDocuments, AnthropicAfter, Printed, Receive, Events, Leftover;
    var events := AnthropicEvents(model, c, pieces);
    PrintedEventsAreRead(events, chunks, write, parse);
    ChunkingIsInvisible(chunks);
    AnthropicEventsMean(model, c, pieces);
    AnthropicAfterBodies(NO_USAGE, events, write, parse);
  }

  /** The streamed and the non-streamed answer to one request cost the same, unless the stream is
      cut short. */
  lemma AnthropicStreamingCostsTheSame(model: string, c: AnthropicControl, pieces: seq<string>, chunks: seq<seq<byte>>,
                                       content: Value, write: Writer, parse: Parser)
    requires c.common.errorAfter.Some? ==> c.common.errorAfter.value <= |pieces|
    requires forall e :: e in AnthropicEvents(model, c, pieces) ==> IsPrintable(e, write, parse)
    requires IsWritten(AnthropicResponse(model, c, content), write, parse)
    requires Flatten(chunks) == Flatten(Printed(AnthropicEvents(model, c, pieces), write))
    ensures AnthropicStreamCharge(Flatten(chunks), parse) ==
            AnthropicResponseCharge(200, write(AnthropicResponse(model, c, content)), parse)
            <==> c.common.errorAfter.None?
  {
    hide AnthropicEvents, IsPrintable, Printed, AnthropicStreamCharge, AnthropicUsageOf, Get, Canonical, IsOneLine;
    AnthropicStreamIsChargedExactly(model, c, pieces, chunks, write, parse);
    var response := AnthropicResponse(model, c, content);
    ResponseUsage(model, c, content);
    GetCanonical(response, "usage");
    UsageOfCanonical(AnthropicUsageValue(c, MOCK_OUTPUT_TOKENS));
    UsageValueIsRead(c, MOCK_OUTPUT_TOKENS);
  }

  lemma ResponseUsage(model: string, c: AnthropicControl, content: Value)
    ensures Get(AnthropicResponse(model, c, content), "usage") == Some(AnthropicUsageValue(c, MOCK_OUTPUT_TOKENS))
  {
    hide AnthropicUsageValue;
    LookupAt(AnthropicResponse(model, c, content).fields, 7);
  }

  lemma AnthropicStreamIsBounded(model: string, c: AnthropicControl, pieces: seq<string>)
    requires |pieces| == c.common.chunkCount
    ensures |AnthropicEvents(model, c, pieces)| <= c.common.chunkCount + ANTHROPIC_STREAM_EVENT_OVERHEAD
  {
  }

  /** Whatever headers were accepted and however the stream has been polled so far, it has slept for
      at most an hour. */
  lemma AnthropicSleepsAtMostAnHour(count: Header, errorAfter: Header, delay: Header,
                                    responseType: Option<ResponseType>,
                                    model: string, c: AnthropicControl, pieces: seq<string>, write: Writer,
                                      stream: DelayedByteStream)
    requires FromHeaders(count, errorAfter, delay, responseType, ANTHROPIC_STREAM_EVENT_OVERHEAD) == Some(c.common)
    requires |pieces| == c.common.chunkCount
    requires stream.Valid() && stream.all == Printed(AnthropicEvents(model, c, pieces), write) &&
             stream.delayMs == c.common.chunkDelayMs
    ensures stream.sleeps * stream.delayMs <= MAX_STREAM_DURATION_MS
  {
    hide AnthropicEvents, FromHeaders;
    AnthropicStreamIsBounded(model, c, pieces);
    Scale(stream.sleeps, c.common.chunkCount + ANTHROPIC_STREAM_EVENT_OVERHEAD, stream.delayMs);
  }

  // OpenAI

  datatype OpenAiControl = OpenAiControl(prompt: TokenCount, cachedPrompt: TokenCount, completion: TokenCount,
                                         common: Control)

  function OpenAiUsageValue(c: OpenAiControl): Value {
    Obj([Field("prompt_tokens", Unsigned(c.prompt)),
         Field("completion_tokens", Unsigned(c.completion)),
         Field("total_tokens", Unsigned(c.prompt + c.completion)),
         Field("prompt_tokens_details",
               Obj([Field("cached_tokens", Unsigned(c.cachedPrompt)), Field("audio_tokens", Unsigned(0))])),
         Field("completion_tokens_details", Obj([
           Field("reasoning_tokens", Unsigned(0)),
           Field("audio_tokens", Unsigned(0)),
           Field("accepted_prediction_tokens", Unsigned(0)),
           Field("rejected_prediction_tokens", Unsigned(0))]))])
  }

  function Completion(model: string, kind: string, choices: seq<Value>): seq<Field> {
    [Field("id", Str("chatcmpl_mock_openai_001")),
     Field("object", Str(kind)),
     Field("created", Unsigned(1_700_000_000)),
     Field("model", Str(model)),
     Field("choices", Arr(choices))]
  }

  /** `chunk`: a streamed part; with usage asked for, all but the last carry a null one. */
  function Chunk(model: string, delta: Value, finishReason: Value, includeUsage: bool): Event {
    Unnamed(Obj(Completion(model, "chat.completion.chunk",
                           [Obj([Field("index", Unsigned(0)), Field("delta", delta), Field("logprobs", Null),
                                 Field("finish_reason", finishReason)])])
                + (if includeUsage then [Field("usage", Null)] else [])))
  }

  function ToolCall(fields: seq<Field>): Value {
    Obj([Field("tool_calls", Arr([Obj([Field("index", Unsigned(0))] + fields)]))])
  }

  function FirstChunk(model: string, r: ResponseType, includeUsage: bool): Event {
    Chunk(model,
          match r
          case Text => Obj([Field("role", Str("assistant")), Field("content", Str(""))])
          case ToolUse =>
            Obj([Field("role", Str("assistant")), Field("content", Null)] +
                ToolCall([Field("id", Str("call_mock_weather_001")), Field("type", Str("function")),
                          Field("function",
                                Obj([Field("name", Str("get_weather")), Field("arguments", Str(""))]))]).fields),
          Null, includeUsage)
  }

  function PieceChunk(model: string, r: ResponseType, piece: string, includeUsage: bool): Event {
    Chunk(model,
          match r
          case Text => Obj([Field("content", Str(piece))])
          case ToolUse => ToolCall([Field("function", Obj([Field("arguments", Str(piece))]))]),
          Null, includeUsage)
  }

  function PieceChunks(model: string, r: ResponseType, pieces: seq<string>, includeUsage: bool): seq<Event> {
    seq(|pieces|, i requires 0 <= i < |pieces| => PieceChunk(model, r, pieces[i], includeUsage))
  }

  lemma NoPieces(model: string, r: ResponseType, includeUsage: bool)
    ensures PieceChunks(model, r, [], includeUsage) == []
  {
  }

  lemma PieceChunksGrow(model: string, r: ResponseType, pieces: seq<string>, i: nat, includeUsage: bool)
    requires i < |pieces|
    ensures PieceChunks(model, r, pieces[..i + 1], includeUsage) ==
            PieceChunks(model, r, pieces[..i], includeUsage) + [PieceChunk(model, r, pieces[i], includeUsage)]
  {
    hide PieceChunk;
  }

  function FinishChunk(model: string, r: ResponseType, includeUsage: bool): Event {
    Chunk(model, Obj([]), Str(if r.Text? then "stop" else "tool_calls"), includeUsage)
  }

  const SERVER_ERROR: Event := Unnamed(Obj([
    Field("error",
          Obj([Field("message", Str("Mock OpenAI mid-stream server error.")), Field("type", Str("server_error")),
                        Field("param", Null), Field("code", Null)]))]))

  function UsageChunk(model: string, c: OpenAiControl): Event {
    Unnamed(Obj(Completion(model, "chat.completion.chunk", []) + [Field("usage", OpenAiUsageValue(c))]))
  }

  function Closing(model: string, c: OpenAiControl, includeUsage: bool): seq<Event> {
    [FinishChunk(model, c.common.responseType, includeUsage)] +
      (if includeUsage then [UsageChunk(model, c)] else []) + [Done]
  }

  function OpenAiEvents(model: string, includeUsage: bool, c: OpenAiControl, pieces: seq<string>): seq<Event> {
    var r := c.common.responseType;
    [FirstChunk(model, r, includeUsage)] +
    (if c.common.errorAfter.Some? && c.common.errorAfter.value <= |pieces|
     then PieceChunks(model, r, pieces[..c.common.errorAfter.value], includeUsage) + [SERVER_ERROR]
     else PieceChunks(model, r, pieces, includeUsage) + Closing(model, c, includeUsage))
  }

  /** The non-streaming body; `choice` is the message and its finish reason. */
  function OpenAiResponse(model: string, c: OpenAiControl, choice: Value): Value {
    Obj(Completion(model, "chat.completion", [choice]) + [Field("usage", OpenAiUsageValue(c))])
  }

  class OpenAiEventLog {
    var events: seq<Event>

    constructor (model: string, includeUsage: bool)
      ensures events == [FirstChunk(model, Text, includeUsage)]
    {
      events := [FirstChunk(model, Text, includeUsage)];
    }

    /** `append_stream_error_if_requested` */
    method AppendStreamErrorIfRequested(c: OpenAiControl, completedChunks: nat) returns (appended: bool)
      modifies this
      ensures appended <==> c.common.errorAfter == Some(completedChunks)
      ensures events == old(events) + if appended then [SERVER_ERROR] else []
    {
      if c.common.errorAfter != Some(completedChunks) {
        return false;
      }
      events := events + [SERVER_ERROR];
      return true;
    }

    /** `append_text_events` and `append_tool_events`; the latter first replaces the opening chunk. */
    method AppendContent(model: string, c: OpenAiControl, pieces: seq<string>, includeUsage: bool)
      returns (endedWithError: bool)
      requires |pieces| == c.common.chunkCount
      requires c.common.errorAfter.Some? ==> c.common.errorAfter.value <= c.common.chunkCount
      requires events == [FirstChunk(model, Text, includeUsage)]
      modifies this
      ensures endedWithError <==> c.common.errorAfter.Some?
      ensures events + (if endedWithError then [] else Closing(model, c, includeUsage)[1..]) ==
              OpenAiEvents(model, includeUsage, c, pieces)
    {
      hide Chunk, PieceChunk, PieceChunks, FirstChunk, FinishChunk, UsageChunk, SERVER_ERROR;
      assert PieceChunks(model, c.common.responseType, pieces[..0], includeUsage) == [] by {
        NoPieces(model, c.common.responseType, includeUsage);
        assert pieces[..0] == [];
      }
      var r := c.common.responseType;
      var error := c.common.errorAfter;
      if r.ToolUse? {
        events := events[0 := FirstChunk(model, ToolUse, includeUsage)];
      }
      ghost var head := events;
      for index := 0 to |pieces|
        invariant events == head + PieceChunks(model, r, pieces[..index], includeUsage)
        invariant error.None? || error.value >= index
      {
        endedWithError := AppendStreamErrorIfRequested(c, index);
        if endedWithError {
          return;
        }
        PieceChunksGrow(model, r, pieces, index, includeUsage);
        events := events + [PieceChunk(model, r, pieces[index], includeUsage)];
      }
      assert pieces[..|pieces|] == pieces;
      endedWithError := AppendStreamErrorIfRequested(c, c.common.chunkCount);
      if endedWithError {
        return;
      }
      events := events + [FinishChunk(model, r, includeUsage)];
    }
  }

  /** `streaming_events` */
  method OpenAiStreamingEvents(model: string, includeUsage: bool, c: OpenAiControl, responseText: string,
                               toolArguments: string)
    returns (events: seq<Event>)
    requires c.common.chunkCount >= 1
    requires c.common.errorAfter.Some? ==> c.common.errorAfter.value <= c.common.chunkCount
    ensures exists pieces: seq<string> ::
              && |pieces| == c.common.chunkCount
              && Flatten(pieces) == (if c.common.responseType.Text? then responseText else toolArguments)
              && events == OpenAiEvents(model, includeUsage, c, pieces)
  {
    hide OpenAiEvents, Chunk, FirstChunk, FinishChunk, UsageChunk;
    var log := new OpenAiEventLog(model, includeUsage);
    var pieces := SplitText(if c.common.responseType.Text? then responseText else toolArguments, c.common.chunkCount);
    var endedWithError := log.AppendContent(model, c, pieces, includeUsage);
    if endedWithError {
      return log.events;
    }
    if includeUsage {
      log.events := log.events + [UsageChunk(model, c)];
    }
    log.events := log.events + [Done];
    events := log.events;
  }

  /** What a printed event reports. */
  function Reported(e: Event): Option<OpenAiUsage> {
    if e.Done? then None else OpenAiUsageIn(e.data)
  }

  lemma UsageOfBody(e: Event, write: Writer, parse: Parser)
    requires IsPrintable(e, write, parse)
    ensures UsageFromEvent(Body(e, write), parse) == Reported(e)
  {
    hide Body, EventData, OpenAiUsageIn, IsOneLine;
    BodyCarriesPayload(e, write, parse);
    PayloadIsPlain(e, write, parse);
    if !e.Done? {
      UsageInCanonical(e.data);
    }
  }

  function LastReported(events: seq<Event>): Option<OpenAiUsage> {
    if events == [] then None
    else if Reported(events[|events| - 1]).Some? then Reported(events[|events| - 1])
    else LastReported(events[..|events| - 1])
  }

  lemma {:induction false} OpenAiAfterBodies(events: seq<Event>, write: Writer, parse: Parser)
    requires forall e :: e in events ==> IsPrintable(e, write, parse)
    ensures OpenAiAfter(None, Bodies(events, write), parse) == LastReported(events)
    decreases |events|
  {
    hide IsPrintable, Body, UsageFromEvent, Reported;
    if events != [] {
      var n := |events| - 1;
      OpenAiAfterBodies(events[..n], write, parse);
      var last := [Body(events[n], write)];
      assert Bodies(events, write) == Bodies(events[..n], write) + last;
      OpenAiAfterAppend(None, Bodies(events[..n], write), last, parse);
      UsageOfBody(events[n], write, parse);
      assert last[1..] == [];
    }
  }

  predicate EventTells(e: Event, total: nat) {
    !e.Done? && TellsTotal(e.data, total)
  }

  /** The last event of the stream that tells a total is the one at `i`. */
  ghost predicate IsLastTotal(events: seq<Event>, i: nat, total: nat) {
    i < |events| && EventTells(events[i], total) && forall j, n :: i < j < |events| ==> !EventTells(events[j], n)
  }

  lemma {:induction false} LastReportedIsLast(events: seq<Event>)
    ensures LastReported(events).Some? ==> exists i :: IsLastTotal(events, i, LastReported(events).value.total)
    ensures LastReported(events).None? ==> forall i, n :: 0 <= i < |events| ==> !EventTells(events[i], n)
    decreases |events|
  {
    hide TellsTotal, OpenAiUsageIn;
    if events != [] {
      var last := |events| - 1;
      if !events[last].Done? {
        forall n: nat
          ensures TellsTotal(events[last].data, n) <==>
                  Reported(events[last]).Some? && Reported(events[last]).value.total == n
        {
          UsageTellsTotal(events[last].data, n);
        }
      }
      if Reported(events[last]).Some? {
        assert IsLastTotal(events, last, Reported(events[last]).value.total);
      } else {
        LastReportedIsLast(events[..last]);
        if LastReported(events).Some? {
          var i :| IsLastTotal(events[..last], i, LastReported(events).value.total);
          assert IsLastTotal(events, i, LastReported(events).value.total);
        }
      }
    }
  }

  /** Whatever a provider streams, and however it is cut up on its way, the charge is the total told by
      the last event that tells one, or the budget when no event does. */
  lemma OpenAiChargeIsLastTotal(events: seq<Event>, chunks: seq<seq<byte>>, write: Writer, parse: Parser, n: nat)
    requires forall e :: e in events ==> IsPrintable(e, write, parse)
    requires Flatten(chunks) == Flatten(Printed(events, write))
    ensures OpenAiStreamCharge(Flatten(chunks), parse) == Some(n) <==> exists i :: IsLastTotal(events, i, n)
    ensures OpenAiStreamCharge(Flatten(chunks), parse) == None <==>
            forall i, m :: 0 <= i < |events| ==> !EventTells(events[i], m)
  {
    hide IsPrintable, OpenAiAfter, LastReported, Printed, Receive, Events, Leftover, EventTells;
    PrintedEventsAreRead(events, chunks, write, parse);
    ChunkingIsInvisible(chunks);
    OpenAiAfterBodies(events, write, parse);
    LastReportedIsLast(events);
    TotalsAreUnique(events);
  }

  lemma TotalsAreUnique(events: seq<Event>)
    ensures forall i, j, n, m :: IsLastTotal(events, i, n) && IsLastTotal(events, j, m) ==> n == m
  {
    forall i: nat, j: nat, n: nat, m: nat | IsLastTotal(events, i, n) && IsLastTotal(events, j, m) ensures n == m {
      assert i == j;
    }
  }

  lemma {:induction false} NothingReported(events: seq<Event>)
    requires forall e :: e in events ==> Reported(e).None?
    ensures LastReported(events) == None
    decreases |events|
  {
    hide Reported;
    if events != [] {
      NothingReported(events[..|events| - 1]);
    }
  }

  lemma ChunksReportNothing(model: string, delta: Value, finishReason: Value, includeUsage: bool)
    ensures Reported(Chunk(model, delta, finishReason, includeUsage)) == None
  {
    var fields := Chunk(model, delta, finishReason, includeUsage).data.fields;
    assert fields[1].name[0] == 'o' && fields[2].name[0] == fields[4].name[0] == 'c' && fields[3].name[0] == 'm';
    assert "usage"[0] == 'u' && |fields[0].name| == 2;
    if includeUsage {
      LookupAt(fields, 5);
    } else {
      LookupNone(fields, "usage");
    }
  }

  lemma ErrorReportsNothing()
    ensures Reported(SERVER_ERROR) == None
  {
    assert "error"[0] == 'e' && "usage"[0] == 'u';
    LookupNone(SERVER_ERROR.data.fields, "usage");
  }

  lemma OpenAiUsageValueIsRead(c: OpenAiControl)
    ensures OpenAiUsageOf(OpenAiUsageValue(c)) ==
            Some(OpenAiUsage(Some(c.completion), Some(c.prompt), c.prompt + c.completion))
  {
    var fields := OpenAiUsageValue(c).fields;
    assert |fields[0].name| == 13 && |fields[1].name| == 17 && |fields[2].name| == 12;
    assert |fields[3].name| == 21 && |fields[4].name| == 25;
    LookupAt(fields, 0);
    LookupAt(fields, 1);
    LookupAt(fields, 2);
  }

  lemma UsageOfCompletion(fields: seq<Field>, c: OpenAiControl)
    requires |fields| > 0 && fields[|fields| - 1] == Field("usage", OpenAiUsageValue(c))
    ensures OpenAiUsageIn(Obj(fields)) == Some(OpenAiUsage(Some(c.completion), Some(c.prompt), c.prompt + c.completion))
  {
    hide OpenAiUsageValue, OpenAiUsageOf;
    LookupAt(fields, |fields| - 1);
    OpenAiUsageValueIsRead(c);
  }

  lemma OpenAiEventsMean(model: string, includeUsage: bool, c: OpenAiControl, pieces: seq<string>)
    requires c.common.errorAfter.Some? ==> c.common.errorAfter.value <= |pieces|
    ensures LastReported(OpenAiEvents(model, includeUsage, c, pieces)) ==
            if includeUsage && c.common.errorAfter.None?
            then Some(OpenAiUsage(Some(c.completion), Some(c.prompt), c.prompt + c.completion)) else None
  {
    hide Reported, Chunk, UsageChunk, SERVER_ERROR;
    var events := OpenAiEvents(model, includeUsage, c, pieces);
    var n := |events|;
    ErrorReportsNothing();
    forall delta, finishReason, usage ensures Reported(Chunk(model, delta, finishReason, usage)) == None {
      ChunksReportNothing(model, delta, finishReason, usage);
    }
    assert Reported(Done) == None by {
      DoneReportsNothing();
    }
    if includeUsage && c.common.errorAfter.None? {
      assert events[n - 1] == Done && events[n - 2] == UsageChunk(model, c);
      assert events[..n - 1][n - 2] == UsageChunk(model, c);
      UsageChunkReports(model, c);
    } else {
      NothingReported(events);
    }
  }

  lemma DoneReportsNothing()
    ensures Reported(Done) == None
  {
  }

  lemma UsageChunkReports(model: string, c: OpenAiControl)
    ensures Reported(UsageChunk(model, c)) ==
            Some(OpenAiUsage(Some(c.completion), Some(c.prompt), c.prompt + c.completion))
  {
    hide OpenAiUsageValue, OpenAiUsageIn;
    UsageOfCompletion(UsageChunk(model, c).data.fields, c);
  }

  /** However the mock's stream is cut up, the proxy charges the reported total when the stream
      includes its usage and ends well, and otherwise finds nothing to charge. */
  lemma OpenAiStreamIsChargedExactly(model: string, includeUsage: bool, c: OpenAiControl, pieces: seq<string>,
                                     chunks: seq<seq<byte>>, write: Writer, parse: Parser)
    requires c.common.errorAfter.Some? ==> c.common.errorAfter.value <= |pieces|
    requires forall e :: e in OpenAiEvents(model, includeUsage, c, pieces) ==> IsPrintable(e, write, parse)
    requires Flatten(chunks) == Flatten(Printed(OpenAiEvents(model, includeUsage, c, pieces), write))
    ensures OpenAiStreamCharge(Flatten(chunks), parse) ==
            if includeUsage && c.common.errorAfter.None? then Some(c.prompt + c.completion) else None
  {
    hide OpenAiEvents, IsPrintable, OpenAiAfter, LastReported, Printed, Receive, Events, Leftover;
    var events := OpenAiEvents(model, includeUsage, c, pieces);
    PrintedEventsAreRead(events, chunks, write, parse);
    ChunkingIsInvisible(chunks);
    OpenAiEventsMean(model, includeUsage, c, pieces);
    OpenAiAfterBodies(events, write, parse);
  }

  /** The streamed and the non-streamed answer to one request cost the same exactly when the stream
      includes its usage and is not cut short. */
  lemma OpenAiStreamingCostsTheSame(model: string, includeUsage: bool, c: OpenAiControl, pieces: seq<string>,
                                    chunks: seq<seq<byte>>, choice: Value, write: Writer, parse: Parser)
    requires c.common.errorAfter.Some? ==> c.common.errorAfter.value <= |pieces|
    requires forall e :: e in OpenAiEvents(model, includeUsage, c, pieces) ==> IsPrintable(e, write, parse)
    requires IsWritten(OpenAiResponse(model, c, choice), write, parse)
    requires Flatten(chunks) == Flatten(Printed(OpenAiEvents(model, includeUsage, c, pieces), write))
    ensures OpenAiStreamCharge(Flatten(chunks), parse) ==
            OpenAiResponseCharge(200, write(OpenAiResponse(model, c, choice)), parse)
            <==> includeUsage && c.common.errorAfter.None?
  {
    hide OpenAiEvents, IsPrintable, Printed, OpenAiStreamCharge, OpenAiUsageIn, Canonical, IsOneLine;
    OpenAiStreamIsChargedExactly(model, includeUsage, c, pieces, chunks, write, parse);
    UsageInCanonical(OpenAiResponse(model, c, choice));
    UsageOfCompletion(OpenAiResponse(model, c, choice).fields, c);
  }

  lemma OpenAiStreamIsBounded(model: string, includeUsage: bool, c: OpenAiControl, pieces: seq<string>)
    requires |pieces| == c.common.chunkCount
    ensures |OpenAiEvents(model, includeUsage, c, pieces)| <= c.common.chunkCount + OPENAI_STREAM_EVENT_OVERHEAD
  {
    hide Chunk, FirstChunk, PieceChunk, FinishChunk, UsageChunk, SERVER_ERROR;
  }

  lemma OpenAiSleepsAtMostAnHour(count: Header, errorAfter: Header, delay: Header, responseType: Option<ResponseType>,
                                 model: string,
                                 includeUsage: bool, c: OpenAiControl, pieces: seq<string>, write: Writer,
                                   stream: DelayedByteStream)
    requires FromHeaders(count, errorAfter, delay, responseType, OPENAI_STREAM_EVENT_OVERHEAD) == Some(c.common)
    requires |pieces| == c.common.chunkCount
    requires stream.Valid() && stream.all == Printed(OpenAiEvents(model, includeUsage, c, pieces), write)
    requires stream.delayMs == c.common.chunkDelayMs
    ensures stream.sleeps * stream.delayMs <= MAX_STREAM_DURATION_MS
  {
    hide OpenAiEvents, FromHeaders;
    OpenAiStreamIsBounded(model, includeUsage, c, pieces);
    Scale(stream.sleeps, c.common.chunkCount + OPENAI_STREAM_EVENT_OVERHEAD, stream.delayMs);
  }
}
