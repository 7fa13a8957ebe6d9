/** What a client makes of the mock servers' streams: the answer it puts together from the deltas it
    takes out of the bytes. */
module StreamedAnswers {
  import opened Prelude
  import opened JsonValues
  import opened MockStreams
  import opened Sse
  import opened UsageRecorders
  import opened MockProviders

  /** The piece of the answer in a document. */
  type Reader = Value -> string

  function Heard(event: seq<byte>, parse: Parser, read: Reader): string {
    match EventData(event)
    case None => ""
    case Some(data) =>
      if data == DONE then ""
      else
        match parse(data)
        case None => ""
        case Some(document) => read(document)
  }

  /** The answer a client hears in the events it has taken out of a stream. */
  function Answer(events: seq<seq<byte>>, parse: Parser, read: Reader): string {
    Flatten(seq(|events|, i requires 0 <= i < |events| => Heard(events[i], parse, read)))
  }

  function Said(e: Event, read: Reader): string {
    if e.Done? then "" else read(e.data)
  }

  function AllSaid(events: seq<Event>, read: Reader): string {
    Flatten(seq(|events|, i requires 0 <= i < |events| => Said(events[i], read)))
  }

  lemma AllSaidAppend(a: seq<Event>, b: seq<Event>, read: Reader)
    ensures AllSaid(a + b, read) == AllSaid(a, read) + AllSaid(b, read)
  {
    var said := seq(|a|, i requires 0 <= i < |a| => Said(a[i], read));
    var more := seq(|b|, i requires 0 <= i < |b| => Said(b[i], read));
    FlattenAppend(said, more);
    assert seq(|a + b|, i requires 0 <= i < |a + b| => Said((a + b)[i], read)) == said + more;
  }

  lemma {:induction false} NothingSaid(events: seq<Event>, read: Reader)
    requires forall e :: e in events ==> Said(e, read) == ""
    ensures AllSaid(events, read) == ""
    decreases |events|
  {
    hide Said;
    if events != [] {
      var n := |events| - 1;
      NothingSaid(events[..n], read);
      assert [""][..0] == [];
      assert seq(1, i requires 0 <= i < 1 => Said([events[n]][i], read)) == [""];
      AllSaidAppend(events[..n], [events[n]], read);
      assert events == events[..n] + [events[n]];
    }
  }

  /** However a printed stream is cut up on its way, a client hears what its events say. */
  lemma AnswersAreHeard(events: seq<Event>, chunks: seq<seq<byte>>, write: Writer, parse: Parser, read: Reader)
    requires forall e :: e in events ==> IsPrintable(e, write, parse)
    requires forall v :: read(Canonical(v)) == read(v)
    requires Flatten(chunks) == Flatten(Printed(events, write))
    ensures Answer(Receive(chunks).events, parse, read) == AllSaid(events, read)
  {
    hide Body, EventData, Receive, Events, Leftover, IsOneLine, Printed;
    PrintedEventsAreRead(events, chunks, write, parse);
    var taken := Receive(chunks).events;
    forall i | 0 <= i < |events| ensures Heard(taken[i], parse, read) == Said(events[i], read) {
      PayloadIsPlain(events[i], write, parse);
    }
    assert seq(|taken|, i requires 0 <= i < |taken| => Heard(taken[i], parse, read)) ==
           seq(|events|, i requires 0 <= i < |events| => Said(events[i], read));
  }

  function StringAt(v: Value, name: string): string {
    match Get(v, name)
    case Some(Str(s)) => s
    case _ => ""
  }

  lemma StringAtCanonical(v: Value, name: string)
    ensures StringAt(Canonical(v), name) == StringAt(v, name)
  {
    GetCanonical(v, name);
  }

  /** The pieces that a stream shows before it ends or fails. */
  function Shown(pieces: seq<string>, errorAfter: Option<nat>): seq<string> {
    if errorAfter.Some? && errorAfter.value <= |pieces| then pieces[..errorAfter.value] else pieces
  }

  // Anthropic

  /** `text_delta` and `input_json_delta` of a `content_block_delta`. */
  function AnthropicPiece(document: Value): string {
    match Get(document, "delta")
    case None => ""
    case Some(delta) =>
      if Get(document, "type") != Some(Str("content_block_delta")) then ""
      else if Get(delta, "type") == Some(Str("text_delta")) then StringAt(delta, "text")
      else if Get(delta, "type") == Some(Str("input_json_delta")) then StringAt(delta, "partial_json")
      else ""
  }

  lemma AnthropicPieceCanonical(document: Value)
    ensures AnthropicPiece(Canonical(document)) == AnthropicPiece(document)
  {
    hide Get, StringAt;
    GetCanonical(document, "delta");
    GetCanonical(document, "type");
    StringsAreCanonical(Get(document, "type"), "content_block_delta");
    if Get(document, "delta").Some? {
      var delta := Get(document, "delta").value;
      GetCanonical(delta, "type");
      StringsAreCanonical(Get(delta, "type"), "text_delta");
      StringsAreCanonical(Get(delta, "type"), "input_json_delta");
      StringAtCanonical(delta, "text");
      StringAtCanonical(delta, "partial_json");
    }
  }

  lemma DeltaSays(r: ResponseType, piece: string)
    ensures Said(ContentBlockDelta(r, piece), AnthropicPiece) == piece
  {
    var fields := ContentBlockDelta(r, piece).data.fields;
    LookupAt(fields, 0);
    LookupAt(fields, 2);
    var delta := fields[2].value.fields;
    assert |delta[0].name| == 4 && "partial_json"[0] == 'p' && "text"[1] == 'e';
    LookupAt(delta, 0);
    LookupAt(delta, 1);
  }

  lemma OtherTypesSayNothing(fields: seq<Field>, kind: string)
    requires Lookup(fields, "type") == Some(Str(kind)) && kind != "content_block_delta"
    ensures AnthropicPiece(Obj(fields)) == ""
  {
  }

  lemma FramingSaysNothing(model: string, c: AnthropicControl)
    ensures
      var r := c.common.responseType;
      var events := [MessageStart(model, c), ContentBlockStart(r), STREAM_ERROR] + StreamCompletion(r);
      forall e :: e in events ==> Said(e, AnthropicPiece) == ""
  {
    var r := c.common.responseType;
    var events := [MessageStart(model, c), ContentBlockStart(r), STREAM_ERROR] + StreamCompletion(r);
    assert "content_block_delta"[14] == 'd' && "content_block_start"[14] == 's' && |"content_block_stop"| == 18;
    forall i | 0 <= i < |events| ensures Said(events[i], AnthropicPiece) == "" {
      var fields := events[i].data.fields;
      assert fields[0].name == "type" && fields[0].value.Str?;
      LookupAt(fields, 0);
      OtherTypesSayNothing(fields, fields[0].value.s);
    }
  }

  lemma DeltasSay(r: ResponseType, pieces: seq<string>)
    ensures AllSaid(ContentBlockDeltas(r, pieces), AnthropicPiece) == Flatten(pieces)
  {
    hide Said, ContentBlockDelta;
    var events := ContentBlockDeltas(r, pieces);
    forall i | 0 <= i < |pieces| ensures Said(events[i], AnthropicPiece) == pieces[i] {
      DeltaSays(r, pieces[i]);
    }
    assert seq(|events|, i requires 0 <= i < |events| => Said(events[i], AnthropicPiece)) == pieces;
  }

  /** However the mock's stream is cut up, a client puts together the pieces shown: the whole answer
      unless the stream is cut short. */
  lemma AnthropicAnswerIsWhole(model: string, c: AnthropicControl, pieces: seq<string>, chunks: seq<seq<byte>>,
                               write: Writer, parse: Parser)
    requires forall e :: e in AnthropicEvents(model, c, pieces) ==> IsPrintable(e, write, parse)
    requires Flatten(chunks) == Flatten(Printed(AnthropicEvents(model, c, pieces), write))
    ensures Answer(Receive(chunks).events, parse, AnthropicPiece) == Flatten(Shown(pieces, c.common.errorAfter))
  {
    hide IsPrintable, Answer, Said, AllSaid, AnthropicPiece, Printed, Receive;
    hide MessageStart, ContentBlockStart, StreamCompletion, STREAM_ERROR, ContentBlockDeltas;
    forall v ensures AnthropicPiece(Canonical(v)) == AnthropicPiece(v) {
      AnthropicPieceCanonical(v);
    }
    AnswersAreHeard(AnthropicEvents(model, c, pieces), chunks, write, parse, AnthropicPiece);
    FramingSaysNothing(model, c);
    var r, shown := c.common.responseType, Shown(pieces, c.common.errorAfter);
    var head, deltas := [MessageStart(model, c), ContentBlockStart(r)], ContentBlockDeltas(r, shown);
    var tail := if c.common.errorAfter.Some? && c.common.errorAfter.value <= |pieces|
      then [STREAM_ERROR] else StreamCompletion(r);
    assert AnthropicEvents(model, c, pieces) == head + (deltas + tail);
    AllSaidAppend(head, deltas + tail, AnthropicPiece);
    AllSaidAppend(deltas, tail, AnthropicPiece);
    NothingSaid(head, AnthropicPiece);
    NothingSaid(tail, AnthropicPiece);
    DeltasSay(r, shown);
  }

  // OpenAI

  function ArgumentsIn(delta: Value): string {
    match Get(delta, "tool_calls")
    case Some(Arr(calls)) =>
      if calls == [] || Get(calls[0], "function").None? then ""
      else StringAt(Get(calls[0], "function").value, "arguments")
    case _ => ""
  }

  /** The content of the first choice's delta, or the arguments of its first tool call. */
  function OpenAiPiece(document: Value): string {
    match Get(document, "choices")
    case Some(Arr(choices)) =>
      if choices == [] || Get(choices[0], "delta").None? then ""
      else
        var delta := Get(choices[0], "delta").value;
        StringAt(delta, "content") + ArgumentsIn(delta)
    case _ => ""
  }

  lemma {:induction false} FirstIsCanonical(items: seq<Value>)
    ensures |CanonicalItems(items)| == |items|
    ensures items != [] ==> CanonicalItems(items)[0] == Canonical(items[0])
    decreases |items|
  {
    hide Canonical;
    if items != [] {
      FirstIsCanonical(items[..|items| - 1]);
    }
  }

  lemma ArgumentsCanonical(delta: Value)
    ensures ArgumentsIn(Canonical(delta)) == ArgumentsIn(delta)
  {
    hide Get, StringAt;
    GetCanonical(delta, "tool_calls");
    var calls := Get(delta, "tool_calls");
    if calls.Some? && calls.value.Arr? {
      FirstIsCanonical(calls.value.items);
      if calls.value.items != [] {
        var call := calls.value.items[0];
        GetCanonical(call, "function");
        if Get(call, "function").Some? {
          StringAtCanonical(Get(call, "function").value, "arguments");
        }
      }
    }
  }

  lemma OpenAiPieceCanonical(document: Value)
    ensures OpenAiPiece(Canonical(document)) == OpenAiPiece(document)
  {
    hide Get, StringAt, ArgumentsIn;
    GetCanonical(document, "choices");
    var choices := Get(document, "choices");
    if choices.Some? && choices.value.Arr? {
      FirstIsCanonical(choices.value.items);
      if choices.value.items != [] {
        var choice := choices.value.items[0];
        GetCanonical(choice, "delta");
        if Get(choice, "delta").Some? {
          StringAtCanonical(Get(choice, "delta").value, "content");
          ArgumentsCanonical(Get(choice, "delta").value);
        }
      }
    }
  }

  /** What a completion chunk says is what its delta says. */
  lemma ChunkSays(model: string, delta: Value, finishReason: Value, includeUsage: bool)
    ensures Said(Chunk(model, delta, finishReason, includeUsage), OpenAiPiece) ==
            StringAt(delta, "content") + ArgumentsIn(delta)
  {
    hide StringAt, ArgumentsIn;
    var fields := Chunk(model, delta, finishReason, includeUsage).data.fields;
    assert "usage"[0] == 'u' && "choices"[0] == 'c';
    LookupAt(fields, 4);
    var choice := fields[4].value.items[0].fields;
    assert "delta"[0] == 'd' && "logprobs"[0] == 'l' && "finish_reason"[0] == 'f';
    LookupAt(choice, 1);
  }

  lemma PieceSays(model: string, r: ResponseType, piece: string, includeUsage: bool)
    ensures Said(PieceChunk(model, r, piece, includeUsage), OpenAiPiece) == piece
  {
    hide Chunk, Said, OpenAiPiece;
    match r {
      case Text =>
        var delta := [Field("content", Str(piece))];
        ChunkSays(model, Obj(delta), Null, includeUsage);
        LookupAt(delta, 0);
        LookupNone(delta, "tool_calls");
      case ToolUse =>
        var call := [Field("index", Unsigned(0)), Field("function", Obj([Field("arguments", Str(piece))]))];
        var delta := [Field("tool_calls", Arr([Obj(call)]))];
        assert ToolCall([call[1]]) == Obj(delta) by {
          assert [call[0]] + [call[1]] == call;
        }
        ChunkSays(model, Obj(delta), Null, includeUsage);
        LookupNone(delta, "content");
        LookupAt(delta, 0);
        LookupAt(call, 1);
        LookupAt(call[1].value.fields, 0);
    }
  }

  lemma FirstSaysNothing(model: string, r: ResponseType, includeUsage: bool)
    ensures Said(FirstChunk(model, r, includeUsage), OpenAiPiece) == ""
  {
    hide Chunk, Said, OpenAiPiece;
    match r {
      case Text =>
        var delta := [Field("role", Str("assistant")), Field("content", Str(""))];
        ChunkSays(model, Obj(delta), Null, includeUsage);
        LookupAt(delta, 1);
        LookupNone(delta, "tool_calls");
      case ToolUse =>
        var named := [Field("name", Str("get_weather")), Field("arguments", Str(""))];
        var about := [Field("id", Str("call_mock_weather_001")), Field("type", Str("function")),
                      Field("function", Obj(named))];
        var call := [Field("index", Unsigned(0))] + about;
        var delta := [Field("role", Str("assistant")), Field("content", Null)] + ToolCall(about).fields;
        ChunkSays(model, Obj(delta), Null, includeUsage);
        LookupAt(delta, 1);
        LookupAt(delta, 2);
        LookupAt(call, 3);
        LookupAt(named, 1);
    }
  }

  lemma ClosingSaysNothing(model: string, c: OpenAiControl, includeUsage: bool)
    ensures forall e :: e in Closing(model, c, includeUsage) ==> Said(e, OpenAiPiece) == ""
    ensures Said(SERVER_ERROR, OpenAiPiece) == ""
  {
    hide Chunk, OpenAiUsageValue;
    assert "error"[0] == 'e' && "choices"[0] == 'c';
    LookupNone(SERVER_ERROR.data.fields, "choices");
    var fields := UsageChunk(model, c).data.fields;
    assert "usage"[0] == 'u';
    LookupAt(fields, 4);
    var reason := Str(if c.common.responseType.Text? then "stop" else "tool_calls");
    ChunkSays(model, Obj([]), reason, includeUsage);
  }

  lemma PiecesSay(model: string, r: ResponseType, pieces: seq<string>, includeUsage: bool)
    ensures AllSaid(PieceChunks(model, r, pieces, includeUsage), OpenAiPiece) == Flatten(pieces)
  {
    hide Said, PieceChunk;
    var events := PieceChunks(model, r, pieces, includeUsage);
    forall i | 0 <= i < |pieces| ensures Said(events[i], OpenAiPiece) == pieces[i] {
      PieceSays(model, r, pieces[i], includeUsage);
    }
    assert seq(|events|, i requires 0 <= i < |events| => Said(events[i], OpenAiPiece)) == pieces;
  }

  /** However the mock's stream is cut up, a client puts together the pieces shown: the whole answer
      unless the stream is cut short. */
  lemma OpenAiAnswerIsWhole(model: string, includeUsage: bool, c: OpenAiControl, pieces: seq<string>,
                            chunks: seq<seq<byte>>, write: Writer, parse: Parser)
    requires forall e :: e in OpenAiEvents(model, includeUsage, c, pieces) ==> IsPrintable(e, write, parse)
    requires Flatten(chunks) == Flatten(Printed(OpenAiEvents(model, includeUsage, c, pieces), write))
    ensures Answer(Receive(chunks).events, parse, OpenAiPiece) == Flatten(Shown(pieces, c.common.errorAfter))
  {
    hide IsPrintable, Answer, Said, AllSaid, OpenAiPiece, Printed, Receive;
    hide FirstChunk, PieceChunks, Closing, SERVER_ERROR;
    forall v ensures OpenAiPiece(Canonical(v)) == OpenAiPiece(v) {
      OpenAiPieceCanonical(v);
    }
    AnswersAreHeard(OpenAiEvents(model, includeUsage, c, pieces), chunks, write, parse, OpenAiPiece);
    var r, shown := c.common.responseType, Shown(pieces, c.common.errorAfter);
    FirstSaysNothing(model, r, includeUsage);
    ClosingSaysNothing(model, c, includeUsage);
    var head, parts := [FirstChunk(model, r, includeUsage)], PieceChunks(model, r, shown, includeUsage);
    var tail := if c.common.errorAfter.Some? && c.common.errorAfter.value <= |pieces|
      then [SERVER_ERROR] else Closing(model, c, includeUsage);
    assert OpenAiEvents(model, includeUsage, c, pieces) == head + (parts + tail);
    AllSaidAppend(head, parts + tail, OpenAiPiece);
    AllSaidAppend(parts, tail, OpenAiPiece);
    NothingSaid(head, OpenAiPiece);
    NothingSaid(tail, OpenAiPiece);
    PiecesSay(model, r, shown, includeUsage);
  }
}
