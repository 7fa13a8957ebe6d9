/** `transform_json` (`openai_request.rs`): the rewriting of an OpenAI request, on trees. */
module OpenAiRequests {
  import opened Prelude
  import opened JsonValues

  const MAX_STREAM_CONTROL_BYTES: nat := 64 * 1024

  datatype Control = Stream | StreamOptions | MaxCompletionTokens | MaxTokens

  function NameOf(c: Control): string {
    match c
    case Stream => "stream"
    case StreamOptions => "stream_options"
    case MaxCompletionTokens => "max_completion_tokens"
    case MaxTokens => "max_tokens"
  }

  function ControlNamed(name: string): Option<Control> {
    match name
    case "stream" => Some(Stream)
    case "stream_options" => Some(StreamOptions)
    case "max_completion_tokens" => Some(MaxCompletionTokens)
    case "max_tokens" => Some(MaxTokens)
    case _ => None
  }

  datatype TransformError =
    | InvalidJson
    | InvalidControlJson
    | DuplicateControlField(field: Control)
    | ControlFieldTooLarge(field: Control)
    | InvalidStreamOptions
    | InvalidTokenLimit(field: Control)

  datatype Metadata = Metadata(maxOutputTokens: u64, streaming: bool)

  datatype Transformed = Transformed(fields: seq<Field>, metadata: Metadata)

  // Reading: the controls are captured, everything else is passed on

  /** The four captured members. */
  datatype Controls = Controls(stream: Option<Value>, options: Option<Value>, completion: Option<Value>,
                               legacy: Option<Value>) {
    function Of(c: Control): Option<Value> {
      match c
      case Stream => stream
      case StreamOptions => options
      case MaxCompletionTokens => completion
      case MaxTokens => legacy
    }

    function With(c: Control, v: Value): Controls {
      match c
      case Stream => this.(stream := Some(v))
      case StreamOptions => this.(options := Some(v))
      case MaxCompletionTokens => this.(completion := Some(v))
      case MaxTokens => this.(legacy := Some(v))
    }

    function IsStreaming(): bool {
      stream == Some(Bool(true))
    }
  }

  const NO_CONTROLS := Controls(None, None, None, None)

  datatype Captured = Captured(others: seq<Field>, controls: Controls)

  predicate Fits(v: Value, quoted: string -> nat) {
    WrittenSize(v, quoted) <= MAX_STREAM_CONTROL_BYTES
  }

  function CaptureOne(c: Captured, field: Field, quoted: string -> nat): Result<Captured, TransformError> {
    match ControlNamed(field.name)
    case None => Ok(c.(others := c.others + [field]))
    case Some(control) =>
      if c.controls.Of(control).Some? then Err(DuplicateControlField(control))
      else if !Fits(field.value, quoted) then Err(ControlFieldTooLarge(control))
      else Ok(c.(controls := c.controls.With(control, field.value)))
  }

  function Capture(fields: seq<Field>, quoted: string -> nat): Result<Captured, TransformError>
    decreases |fields|
  {
    if fields == [] then Ok(Captured([], NO_CONTROLS))
    else
      match Capture(fields[..|fields| - 1], quoted)
      case Err(e) => Err(e)
      case Ok(c) => CaptureOne(c, fields[|fields| - 1], quoted)
  }

  // Deciding

  /** `force_usage_option` */
  function ForceUsageOption(options: Option<Value>): Result<Value, TransformError> {
    var given := options.GetOr(Null);
    if !IsReadable(given) then Err(InvalidControlJson)
    else if given.Null? then Ok(Obj([Field("include_usage", Bool(true))]))
    else if given.Obj? then Ok(Obj(Inserted(CanonicalFields(given.fields), "include_usage", Bool(true))))
    else Err(InvalidStreamOptions)
  }

  /** The forced options as they are written: struson reads them again and may refuse a number that
      serde_json has spelled with a large exponent. */
  function ForcedOptions(options: Option<Value>): Result<Value, TransformError> {
    match ForceUsageOption(options)
    case Err(e) => Err(e)
    case Ok(forced) => if IsPassedOn(forced) then Ok(forced) else Err(InvalidJson)
  }

  /** `parse_positive_token_limit` */
  function PositiveLimit(value: Value, field: Control): Result<u64, TransformError> {
    match AsU64(value)
    case None => Err(InvalidTokenLimit(field))
    case Some(n) => if n > 0 then Ok(n) else Err(InvalidTokenLimit(field))
  }

  function OutputLimit(c: Controls, defaultLimit: u64): Result<u64, TransformError> {
    if c.completion.Some? then PositiveLimit(c.completion.value, MaxCompletionTokens)
    else if c.legacy.Some? then PositiveLimit(c.legacy.value, MaxTokens)
    else Ok(defaultLimit)
  }

  /** The controls that are written: the ones captured, with the options forced while streaming and
      the limit supplied when none was given. */
  function WrittenControls(c: Controls, defaultLimit: u64): Result<Controls, TransformError> {
    var options := if c.IsStreaming() then ForcedOptions(c.options) else Ok(Null);
    if options.Err? then Err(options.error)
    else
      match OutputLimit(c, defaultLimit)
      case Err(e) => Err(e)
      case Ok(limit) =>
        Ok(c.(options := if c.IsStreaming() then Some(options.value) else c.options,
              completion := if c.completion.None? && c.legacy.None? then Some(Unsigned(limit)) else c.completion))
  }

  function ControlField(c: Control, v: Option<Value>): seq<Field> {
    if v.Some? then [Field(NameOf(c), v.value)] else []
  }

  function ControlFields(c: Controls): seq<Field> {
    ControlField(Stream, c.stream) + ControlField(StreamOptions, c.options) +
    ControlField(MaxCompletionTokens, c.completion) + ControlField(MaxTokens, c.legacy)
  }

  function Rewrite(c: Captured, defaultLimit: u64): Result<Transformed, TransformError> {
    match WrittenControls(c.controls, defaultLimit)
    case Err(e) => Err(e)
    case Ok(controls) =>
      Ok(Transformed(c.others + ControlFields(controls),
                     Metadata(OutputLimit(c.controls, defaultLimit).value, c.controls.IsStreaming())))
  }

  function Transform(document: Value, defaultLimit: u64, quoted: string -> nat): Result<Transformed, TransformError> {
    if !document.Obj? then Err(InvalidJson)
    else
      match Capture(document.fields, quoted)
      case Err(e) => Err(e)
      case Ok(c) => Rewrite(c, defaultLimit)
  }

  /** The reading half of `transform_json`: other members are written as they pass. */
  method ReadMembers(fields: seq<Field>, quoted: string -> nat) returns (r: Result<Captured, TransformError>)
    ensures r == Capture(fields, quoted)
  {
    var written: seq<Field> := [];
    var controls := NO_CONTROLS;
    for i := 0 to |fields|
      invariant Capture(fields[..i], quoted) == Ok(Captured(written, controls))
    {
      var field := fields[i];
      CaptureFails(fields, i + 1, quoted);
      assert fields[..i + 1][..i] == fields[..i];
      match ControlNamed(field.name)
      case None => written := written + [field];
      case Some(control) =>
        if controls.Of(control).Some? {
          return Err(DuplicateControlField(control));
        }
        if WrittenSize(field.value, quoted) > MAX_STREAM_CONTROL_BYTES {
          return Err(ControlFieldTooLarge(control));
        }
        controls := controls.With(control, field.value);
    }
    assert fields[..|fields|] == fields;
    return Ok(Captured(written, controls));
  }

  /** `transform_json`: one pass over the members, then the controls in a fixed order. */
  method TransformJson(document: Value, defaultLimit: u64, quoted: string -> nat)
    returns (r: Result<Transformed, TransformError>)
    ensures r == Transform(document, defaultLimit, quoted)
  {
    hide Capture, ForcedOptions, OutputLimit;
    if !document.Obj? {
      return Err(InvalidJson);
    }
    var captured := ReadMembers(document.fields, quoted);
    if captured.Err? {
      return Err(captured.error);
    }
    var Captured(written, Controls(stream, options, completion, legacy)) := captured.value;
    var streaming := stream == Some(Bool(true));
    if stream.Some? {
      written := written + [Field("stream", stream.value)];
    }
    if streaming {
      var forced := ForcedOptions(options);
      if forced.Err? {
        return Err(forced.error);
      }
      written := written + [Field("stream_options", forced.value)];
    } else if options.Some? {
      written := written + [Field("stream_options", options.value)];
    }
    var limit := OutputLimit(captured.value.controls, defaultLimit);
    if limit.Err? {
      return Err(limit.error);
    }
    if completion.Some? {
      written := written + [Field("max_completion_tokens", completion.value)];
    } else if legacy.None? {
      written := written + [Field("max_completion_tokens", Unsigned(limit.value))];
    }
    if legacy.Some? {
      written := written + [Field("max_tokens", legacy.value)];
    }
    assert written ==
           captured.value.others + ControlFields(WrittenControls(captured.value.controls, defaultLimit).value);
    r := Ok(Transformed(written, Metadata(limit.value, streaming)));
  }

  /** An error met in a prefix is the error of the whole. */
  lemma {:induction false} CaptureFails(fields: seq<Field>, n: nat, quoted: string -> nat)
    requires n <= |fields|
    ensures Capture(fields[..n], quoted).Err? ==> Capture(fields, quoted) == Capture(fields[..n], quoted)
    decreases |fields| - n
  {
    if n < |fields| {
      CaptureFails(fields, n + 1, quoted);
      assert fields[..n + 1][..n] == fields[..n];
    } else {
      assert fields[..n] == fields;
    }
  }

  // What the rewriting means

  function Others(fields: seq<Field>): seq<Field> {
    if fields == [] then []
    else
      var last := fields[|fields| - 1];
      Others(fields[..|fields| - 1]) + (if ControlNamed(last.name).None? then [last] else [])
  }

  /** Every value given to a name, in order. */
  function ValuesOf(fields: seq<Field>, name: string): seq<Value> {
    if fields == [] then []
    else
      var last := fields[|fields| - 1];
      ValuesOf(fields[..|fields| - 1], name) + (if last.name == name then [last.value] else [])
  }

  lemma ControlNames(name: string, c: Control)
    ensures ControlNamed(NameOf(c)) == Some(c)
    ensures ControlNamed(name) == Some(c) <==> name == NameOf(c)
  {
  }

  /** What a successful pass has captured: the other members in order, ... */
  lemma {:induction false} CapturedOthers(fields: seq<Field>, quoted: string -> nat)
    requires Capture(fields, quoted).Ok?
    ensures Capture(fields, quoted).value.others == Others(fields)
    decreases |fields|
  {
    hide ControlNamed, Fits;
    if fields != [] {
      CapturedOthers(fields[..|fields| - 1], quoted);
    }
  }

  /** ... and the only value of each control, which fits. */
  lemma {:induction false} CapturedValues(fields: seq<Field>, c: Control, quoted: string -> nat)
    requires Capture(fields, quoted).Ok?
    ensures ValuesOf(fields, NameOf(c)) == AsList(Capture(fields, quoted).value.controls.Of(c))
    decreases |fields|
  {
    hide NameOf, CaptureOne;
    if fields != [] {
      var init := fields[..|fields| - 1];
      CapturedValues(init, c, quoted);
      CapturedOneValue(Capture(init, quoted).value, fields[|fields| - 1], c, quoted);
    }
  }

  lemma CapturedOneValue(k: Captured, field: Field, c: Control, quoted: string -> nat)
    requires CaptureOne(k, field, quoted).Ok?
    ensures AsList(CaptureOne(k, field, quoted).value.controls.Of(c)) ==
            AsList(k.controls.Of(c)) + (if field.name == NameOf(c) then [field.value] else [])
  {
    hide ControlNamed, NameOf, Fits;
    ControlNames(field.name, c);
  }

  lemma {:induction false} CapturedFit(fields: seq<Field>, c: Control, quoted: string -> nat)
    requires Capture(fields, quoted).Ok?
    ensures Capture(fields, quoted).value.controls.Of(c).Some? ==>
            Fits(Capture(fields, quoted).value.controls.Of(c).value, quoted)
    decreases |fields|
  {
    hide ControlNamed, Fits;
    if fields != [] {
      CapturedFit(fields[..|fields| - 1], c, quoted);
    }
  }

  function AsList(v: Option<Value>): seq<Value> {
    if v.Some? then [v.value] else []
  }

  lemma {:induction false} OthersAppend(a: seq<Field>, b: seq<Field>)
    ensures Others(a + b) == Others(a) + Others(b)
    decreases |b|
  {
    hide ControlNamed, NameOf;
    if b == [] {
      assert a + b == a;
    } else {
      var n := |b| - 1;
      OthersAppend(a, b[..n]);
      assert (a + b)[..|a + b| - 1] == a + b[..n];
    }
  }

  lemma {:induction false} OthersAreOthers(fields: seq<Field>)
    ensures Others(Others(fields)) == Others(fields)
    ensures HasNoControls(Others(fields))
    decreases |fields|
  {
    hide ControlNamed, NameOf;
    if fields != [] {
      var last := fields[|fields| - 1];
      var init := fields[..|fields| - 1];
      OthersAreOthers(init);
      OthersAppend(Others(init), if ControlNamed(last.name).None? then [last] else []);
      SingleOther(last);
    }
  }

  lemma SingleOther(f: Field)
    ensures Others([f]) == if ControlNamed(f.name).None? then [f] else []
    ensures Others([]) == []
  {
    hide ControlNamed, NameOf;
    assert [f][..0] == [];
  }

  predicate HasNoControls(fields: seq<Field>) {
    forall i :: 0 <= i < |fields| ==> ControlNamed(fields[i].name).None?
  }

  lemma {:induction false} CaptureOthers(fields: seq<Field>, quoted: string -> nat)
    requires HasNoControls(fields)
    ensures Capture(fields, quoted) == Ok(Captured(fields, NO_CONTROLS))
    decreases |fields|
  {
    hide ControlNamed, NameOf, Fits, Canonical, CanonicalFields;
    if fields != [] {
      CaptureOthers(fields[..|fields| - 1], quoted);
      assert fields == fields[..|fields| - 1] + [fields[|fields| - 1]];
    }
  }

  lemma CaptureControl(fields: seq<Field>, others: seq<Field>, k: Controls, c: Control, v: Option<Value>,
                       quoted: string -> nat)
    requires Capture(fields, quoted) == Ok(Captured(others, k)) && k.Of(c).None?
    ensures
      Capture(fields + ControlField(c, v), quoted) ==
      if v.None? then Ok(Captured(others, k))
      else if !Fits(v.value, quoted) then Err(ControlFieldTooLarge(c))
      else Ok(Captured(others, k.With(c, v.value)))
  {
    hide ControlNamed, NameOf, Fits;
    if v.Some? {
      ControlNames("", c);
      assert (fields + ControlField(c, v))[..|fields|] == fields;
    } else {
      assert fields + ControlField(c, v) == fields;
    }
  }

  lemma CaptureErrorStays(fields: seq<Field>, more: seq<Field>, quoted: string -> nat)
    requires Capture(fields, quoted).Err?
    ensures Capture(fields + more, quoted) == Capture(fields, quoted)
  {
    assert (fields + more)[..|fields|] == fields;
    CaptureFails(fields + more, |fields|, quoted);
  }

  lemma Regroup(a: seq<Field>, b: seq<Field>, c: seq<Field>, d: seq<Field>, e: seq<Field>)
    ensures a + (b + c + d + e) == a + b + c + d + e
    ensures a + (b + c + d + e) == a + b + c + (d + e)
  {
  }

  /** Reading back what was written finds the same members and controls, if the controls fit. */
  lemma CaptureWritten(others: seq<Field>, c: Controls, quoted: string -> nat)
    requires HasNoControls(others)
    requires c.stream.Some? ==> Fits(c.stream.value, quoted)
    requires c.completion.Some? ==> Fits(c.completion.value, quoted)
    requires c.legacy.Some? ==> Fits(c.legacy.value, quoted)
    ensures
      Capture(others + ControlFields(c), quoted) ==
      if c.options.Some? &&
        !Fits(c.options.value, quoted) then Err(ControlFieldTooLarge(StreamOptions)) else Ok(Captured(others, c))
  {
    CaptureOthers(others, quoted);
    hide Capture, ControlField, Fits, ControlNamed, HasNoControls;
    var f1, f2 := ControlField(Stream, c.stream), ControlField(StreamOptions, c.options);
    var f3, f4 := ControlField(MaxCompletionTokens, c.completion), ControlField(MaxTokens, c.legacy);
    Regroup(others, f1, f2, f3, f4);
    CaptureControl(others, others, NO_CONTROLS, Stream, c.stream, quoted);
    var k1 := Controls(c.stream, None, None, None);
    CaptureControl(others + f1, others, k1, StreamOptions, c.options, quoted);
    if c.options.Some? && !Fits(c.options.value, quoted) {
      CaptureErrorStays(others + f1 + f2, f3 + f4, quoted);
    } else {
      var k2 := Controls(c.stream, c.options, None, None);
      CaptureControl(others + f1 + f2, others, k2, MaxCompletionTokens, c.completion, quoted);
      CaptureControl(others + f1 + f2 + f3, others, Controls(c.stream, c.options, c.completion, None), MaxTokens,
                     c.legacy, quoted);
    }
  }

  // Which requests are accepted

  /** The value of a control that occurs at most once. */
  function OnlyValue(fields: seq<Field>, c: Control): Option<Value> {
    var values := ValuesOf(fields, NameOf(c));
    if values == [] then None else Some(values[0])
  }

  predicate SmallAndSingle(fields: seq<Field>, c: Control, quoted: string -> nat) {
    var values := ValuesOf(fields, NameOf(c));
    values == [] || (|values| == 1 && Fits(values[0], quoted))
  }

  predicate IsPositive(v: Value) {
    v.Unsigned? && v.n > 0
  }

  /** With usage forced, the options keep no number that struson refuses. */
  predicate Passes(options: Option<Value>) {
    var forced := ForceUsageOption(options);
    forced.Ok? ==> IsPassedOn(forced.value)
  }

  /** Each control occurs at most once and is small enough, the options are an object that can be read if
      the request streams, and the limit that counts is a positive integer. */
  predicate Acceptable(fields: seq<Field>, quoted: string -> nat) {
    var stream, options := OnlyValue(fields, Stream), OnlyValue(fields, StreamOptions);
    var completion, legacy := OnlyValue(fields, MaxCompletionTokens), OnlyValue(fields, MaxTokens);
    && SmallAndSingle(fields, Stream, quoted) && SmallAndSingle(fields, StreamOptions, quoted)
    && SmallAndSingle(fields, MaxCompletionTokens, quoted) && SmallAndSingle(fields, MaxTokens, quoted)
    && (stream == Some(Bool(true)) && options.Some? ==>
        (options.value.Null? || options.value.Obj?) && IsReadable(options.value) && Passes(options))
    && (if completion.Some? then IsPositive(completion.value) else legacy.Some? ==> IsPositive(legacy.value))
  }

  lemma {:induction false} CaptureSucceeds(fields: seq<Field>, quoted: string -> nat)
    requires forall c: Control :: SmallAndSingle(fields, c, quoted)
    ensures Capture(fields, quoted).Ok?
    decreases |fields|
  {
    hide ControlNamed, NameOf, Fits, Canonical, CanonicalFields;
    if fields != [] {
      var init, last := fields[..|fields| - 1], fields[|fields| - 1];
      forall c: Control ensures SmallAndSingle(init, c, quoted) {
        assert SmallAndSingle(fields, c, quoted);
      }
      CaptureSucceeds(init, quoted);
      if ControlNamed(last.name).Some? {
        var c := ControlNamed(last.name).value;
        CapturedValues(init, c, quoted);
        ControlNames(last.name, c);
        assert SmallAndSingle(fields, c, quoted);
      }
    }
  }

  /** A request is rewritten exactly when it is acceptable. */
  lemma AcceptedRequests(fields: seq<Field>, defaultLimit: u64, quoted: string -> nat)
    ensures Transform(Obj(fields), defaultLimit, quoted).Ok? <==> Acceptable(fields, quoted)
  {
    if Capture(fields, quoted).Ok? {
      CapturedControls(fields, quoted);
      AcceptableControls(Capture(fields, quoted).value, defaultLimit);
    } else if Acceptable(fields, quoted) {
      forall c: Control ensures SmallAndSingle(fields, c, quoted) {
        match c
        case Stream =>
        case StreamOptions =>
        case MaxCompletionTokens =>
        case MaxTokens =>
      }
      CaptureSucceeds(fields, quoted);
    }
    hide Capture, Rewrite, ValuesOf, NameOf, Fits;
  }

  /** Up to the member at `i` all is well, and that is a control which is there already or too large. */
  predicate FaultAt(fields: seq<Field>, i: nat, quoted: string -> nat) {
    && i < |fields| && ControlNamed(fields[i].name).Some?
    && (forall c: Control :: SmallAndSingle(fields[..i], c, quoted))
    && (ValuesOf(fields[..i], fields[i].name) != [] || !Fits(fields[i].value, quoted))
  }

  function FaultOf(fields: seq<Field>, i: nat): TransformError
    requires i < |fields| && ControlNamed(fields[i].name).Some?
  {
    var control := ControlNamed(fields[i].name).value;
    if ValuesOf(fields[..i], fields[i].name) != [] then DuplicateControlField(control)
    else ControlFieldTooLarge(control)
  }

  /** Reading fails exactly at the first fault, and names it. */
  lemma FirstFaultIsTold(fields: seq<Field>, i: nat, quoted: string -> nat)
    requires FaultAt(fields, i, quoted)
    ensures Capture(fields, quoted) == Err(FaultOf(fields, i))
  {
    hide Fits, NameOf, Canonical, CanonicalFields, SmallAndSingle;
    var init, last := fields[..i], fields[i];
    var c := ControlNamed(last.name).value;
    CaptureSucceeds(init, quoted);
    CapturedValues(init, c, quoted);
    ControlNames(last.name, c);
    assert fields[..i + 1][..i] == init && fields[..i + 1][i] == last;
    CaptureFails(fields, i + 1, quoted);
  }

  lemma {:induction false} FaultsAreFound(fields: seq<Field>, quoted: string -> nat) returns (i: nat)
    requires Capture(fields, quoted).Err?
    ensures FaultAt(fields, i, quoted)
    decreases |fields|
  {
    hide Fits, NameOf, SmallAndSingle, ControlNamed;
    var n := |fields| - 1;
    var init := fields[..n];
    if Capture(init, quoted).Err? {
      i := FaultsAreFound(init, quoted);
      assert init[..i] == fields[..i];
    } else {
      i := n;
      CapturedControls(init, quoted);
      if ControlNamed(fields[n].name).Some? {
        var c := ControlNamed(fields[n].name).value;
        CapturedValues(init, c, quoted);
        ControlNames(fields[n].name, c);
      }
    }
  }

  /** What is wrong with the controls of a request that has each of them at most once. */
  function Complaint(fields: seq<Field>): Option<TransformError> {
    var options := if OnlyValue(fields, Stream) == Some(Bool(true)) then OnlyValue(fields, StreamOptions) else None;
    var completion, legacy := OnlyValue(fields, MaxCompletionTokens), OnlyValue(fields, MaxTokens);
    if options.Some? && !IsReadable(options.value) then Some(InvalidControlJson)
    else if options.Some? && !options.value.Null? && !options.value.Obj? then Some(InvalidStreamOptions)
    else if options.Some? && !Passes(options) then Some(InvalidJson)
    else if completion.Some? && !IsPositive(completion.value) then Some(InvalidTokenLimit(MaxCompletionTokens))
    else if completion.None? && legacy.Some? && !IsPositive(legacy.value) then Some(InvalidTokenLimit(MaxTokens))
    else None
  }

  /** Every refusal says what is wrong: the first control in the document that is repeated or too large,
      or else the complaint about the controls, or that there is no object at all. */
  lemma RefusalsAreTrue(document: Value, defaultLimit: u64, quoted: string -> nat, error: TransformError)
    ensures
      var refused := Transform(document, defaultLimit, quoted) == Err(error);
      if !document.Obj? then refused <==> error == InvalidJson
      else if exists i :: FaultAt(document.fields, i, quoted)
      then refused <==> exists i :: FaultAt(document.fields, i, quoted) && error == FaultOf(document.fields, i)
      else refused <==> Complaint(document.fields) == Some(error)
  {
    if document.Obj? {
      var fields := document.fields;
      hide Capture, FaultAt, FaultOf, Rewrite, Complaint, OnlyValue, SmallAndSingle;
      if Capture(fields, quoted).Err? {
        var i := FaultsAreFound(fields, quoted);
        forall j | FaultAt(fields, j, quoted) ensures Capture(fields, quoted) == Err(FaultOf(fields, j)) {
          FirstFaultIsTold(fields, j, quoted);
        }
      } else {
        forall j | FaultAt(fields, j, quoted) ensures false {
          FirstFaultIsTold(fields, j, quoted);
        }
        CapturedControls(fields, quoted);
        ControlsAreComplainedOf(fields, Capture(fields, quoted).value, defaultLimit);
      }
    }
  }

  lemma ControlsAreComplainedOf(fields: seq<Field>, c: Captured, defaultLimit: u64)
    requires c.controls.stream == OnlyValue(fields, Stream) && c.controls.options == OnlyValue(fields, StreamOptions)
    requires c.controls.completion == OnlyValue(fields, MaxCompletionTokens)
    requires c.controls.legacy == OnlyValue(fields, MaxTokens)
    ensures
      var r := Rewrite(c, defaultLimit);
      if r.Err? then Complaint(fields) == Some(r.error) else Complaint(fields) == None
  {
    hide OnlyValue, ControlFields;
  }

  lemma AcceptableControls(c: Captured, defaultLimit: u64)
    ensures
      Rewrite(c, defaultLimit).Ok? <==>
      && (c.controls.IsStreaming() && c.controls.options.Some? ==>
            (c.controls.options.value.Null? || c.controls.options.value.Obj?) && IsReadable(c.controls.options.value) &&
            Passes(c.controls.options))
      && (if c.controls.completion.Some? then IsPositive(c.controls.completion.value)
          else c.controls.legacy.Some? ==> IsPositive(c.controls.legacy.value))
  {
  }

  lemma CapturedControls(fields: seq<Field>, quoted: string -> nat)
    requires Capture(fields, quoted).Ok?
    ensures
      var Captured(others, c) := Capture(fields, quoted).value;
      && others == Others(fields) && c.stream == OnlyValue(fields, Stream) &&
        c.options == OnlyValue(fields, StreamOptions)
      && c.completion == OnlyValue(fields, MaxCompletionTokens) && c.legacy == OnlyValue(fields, MaxTokens)
    ensures forall c: Control :: SmallAndSingle(fields, c, quoted)
  {
    hide Capture, ValuesOf, NameOf, Fits, Others;
    CapturedOthers(fields, quoted);
    CapturedValues(fields, Stream, quoted);
    CapturedValues(fields, StreamOptions, quoted);
    CapturedValues(fields, MaxCompletionTokens, quoted);
    CapturedValues(fields, MaxTokens, quoted);
    forall c: Control ensures SmallAndSingle(fields, c, quoted) {
      CapturedValues(fields, c, quoted);
      CapturedFit(fields, c, quoted);
    }
  }

  // What is kept

  lemma {:induction false} ValuesAppend(a: seq<Field>, b: seq<Field>, name: string)
    ensures ValuesOf(a + b, name) == ValuesOf(a, name) + ValuesOf(b, name)
    decreases |b|
  {
    hide ControlNamed, NameOf;
    if b == [] {
      assert a + b == a;
    } else {
      var n := |b| - 1;
      ValuesAppend(a, b[..n], name);
      assert (a + b)[..|a + b| - 1] == a + b[..n];
    }
  }

  lemma {:induction false} OthersHoldNoControls(fields: seq<Field>, c: Control)
    requires HasNoControls(fields)
    ensures ValuesOf(fields, NameOf(c)) == [] && Others(fields) == fields
    decreases |fields|
  {
    hide ControlNamed, NameOf;
    if fields != [] {
      OthersHoldNoControls(fields[..|fields| - 1], c);
      ControlNames("", c);
      assert fields == fields[..|fields| - 1] + [fields[|fields| - 1]];
    }
  }

  lemma ControlFieldValues(c: Control, v: Option<Value>, other: Control)
    ensures ValuesOf(ControlField(c, v), NameOf(other)) == if c == other then AsList(v) else []
    ensures Others(ControlField(c, v)) == []
  {
    hide ControlNamed, NameOf;
    ControlNames("", c);
    ControlNames("", other);
    if v.Some? {
      assert [Field(NameOf(c), v.value)][..0] == [];
      SingleOther(Field(NameOf(c), v.value));
    }
  }

  lemma WrittenMeaning(others: seq<Field>, c: Controls, control: Control)
    requires HasNoControls(others)
    ensures Others(others + ControlFields(c)) == others
    ensures ValuesOf(others + ControlFields(c), NameOf(control)) == AsList(c.Of(control))
  {
    hide ControlNamed, NameOf, ControlFields, Others, ValuesOf, HasNoControls;
    ControlFieldsHold(c, control);
    OthersHoldNoControls(others, control);
    ValuesAppend(others, ControlFields(c), NameOf(control));
    OthersAppend(others, ControlFields(c));
    assert [] + AsList(c.Of(control)) == AsList(c.Of(control)) && others + [] == others;
  }

  lemma ControlFieldsHold(c: Controls, control: Control)
    ensures ValuesOf(ControlFields(c), NameOf(control)) == AsList(c.Of(control))
    ensures Others(ControlFields(c)) == []
  {
    hide ControlNamed, NameOf, ControlField, ValuesOf, Others;
    var f1, f2 := ControlField(Stream, c.stream), ControlField(StreamOptions, c.options);
    var f3, f4 := ControlField(MaxCompletionTokens, c.completion), ControlField(MaxTokens, c.legacy);
    ControlFieldValues(Stream, c.stream, control);
    ControlFieldValues(StreamOptions, c.options, control);
    ControlFieldValues(MaxCompletionTokens, c.completion, control);
    ControlFieldValues(MaxTokens, c.legacy, control);
    BothAppend(f1 + f2 + f3, f4, NameOf(control));
    BothAppend(f1 + f2, f3, NameOf(control));
    BothAppend(f1, f2, NameOf(control));
  }

  lemma BothAppend(a: seq<Field>, b: seq<Field>, name: string)
    ensures ValuesOf(a + b, name) == ValuesOf(a, name) + ValuesOf(b, name)
    ensures Others(a + b) == Others(a) + Others(b)
  {
    ValuesAppend(a, b, name);
    OthersAppend(a, b);
  }

  /** What was written is what was decided: the other members, and each control at most once. */
  lemma WrittenControlsAreRead(others: seq<Field>, c: Controls)
    requires HasNoControls(others)
    ensures
      var out := others + ControlFields(c);
      && Others(out) == others
      && OnlyValue(out, Stream) == c.stream && OnlyValue(out, StreamOptions) == c.options
      && OnlyValue(out, MaxCompletionTokens) == c.completion && OnlyValue(out, MaxTokens) == c.legacy
    ensures forall control: Control :: |ValuesOf(others + ControlFields(c), NameOf(control))| <= 1
  {
    hide HasNoControls, ControlNamed, NameOf, ControlFields, Others, ValuesOf;
    WrittenMeaning(others, c, Stream);
    WrittenMeaning(others, c, StreamOptions);
    WrittenMeaning(others, c, MaxCompletionTokens);
    WrittenMeaning(others, c, MaxTokens);
    forall control: Control ensures |ValuesOf(others + ControlFields(c), NameOf(control))| <= 1 {
      WrittenMeaning(others, c, control);
    }
  }

  lemma RewriteOf(fields: seq<Field>, defaultLimit: u64, quoted: string -> nat) returns (c: Controls, written: Controls)
    requires Transform(Obj(fields), defaultLimit, quoted).Ok?
    ensures c == Controls(OnlyValue(fields, Stream), OnlyValue(fields, StreamOptions),
                          OnlyValue(fields, MaxCompletionTokens),
                          OnlyValue(fields, MaxTokens))
    ensures WrittenControls(c, defaultLimit) == Ok(written)
    ensures
      Transform(Obj(fields), defaultLimit, quoted).value ==
      Transformed(Others(fields) + ControlFields(written),
                  Metadata(OutputLimit(c, defaultLimit).value, c.IsStreaming()))
    ensures HasNoControls(Others(fields))
    ensures forall c: Control :: SmallAndSingle(fields, c, quoted)
  {
    hide HasNoControls, Capture, ControlNamed, NameOf, ControlFields, Others, ValuesOf, SmallAndSingle, OnlyValue;
    hide WrittenControls, OutputLimit;
    c := Capture(fields, quoted).value.controls;
    written := WrittenControls(c, defaultLimit).value;
    CapturedControls(fields, quoted);
    OthersAreOthers(fields);
  }

  /** The rewritten request keeps every other member with its value and in order, and has each
      control at most once: `stream` and `max_tokens` as they were, and a positive limit equal to
      the reported one in the member that counts. A request without a limit gets the default, and
      one with `max_tokens` alone gets no second limit. */
  lemma RewritingKeepsMeaning(fields: seq<Field>, defaultLimit: u64, quoted: string -> nat)
    requires Transform(Obj(fields), defaultLimit, quoted).Ok? && defaultLimit > 0
    ensures
      var Transformed(out, meta) := Transform(Obj(fields), defaultLimit, quoted).value;
      && Others(out) == Others(fields)
      && OnlyValue(out, Stream) == OnlyValue(fields, Stream)
      && OnlyValue(out, MaxTokens) == OnlyValue(fields, MaxTokens)
      && (meta.streaming <==> OnlyValue(fields, Stream) == Some(Bool(true)))
      && meta.maxOutputTokens > 0
      && (if OnlyValue(out, MaxCompletionTokens).Some?
          then OnlyValue(out, MaxCompletionTokens) == Some(Unsigned(meta.maxOutputTokens))
          else OnlyValue(out, MaxTokens) == Some(Unsigned(meta.maxOutputTokens)))
      && (OnlyValue(fields, MaxCompletionTokens).Some? ==>
          OnlyValue(out, MaxCompletionTokens) == OnlyValue(fields, MaxCompletionTokens))
      && (OnlyValue(fields, MaxCompletionTokens).None? && OnlyValue(fields, MaxTokens).None? ==>
          meta.maxOutputTokens == defaultLimit)
      && (OnlyValue(fields, MaxCompletionTokens).None? && OnlyValue(fields, MaxTokens).Some? ==>
          OnlyValue(out, MaxCompletionTokens).None?)
    ensures
      var Transformed(out, _) := Transform(Obj(fields), defaultLimit, quoted).value;
      forall control: Control :: |ValuesOf(out, NameOf(control))| <= 1
  {
    hide HasNoControls, Transform, ControlNamed, NameOf, ControlFields, Others, ValuesOf, SmallAndSingle, OnlyValue;
    var c, written := RewriteOf(fields, defaultLimit, quoted);
    WrittenControlsAreRead(Others(fields), written);
  }

  /** While streaming, the options ask for usage and every other option means what it meant; while
      not streaming they are left alone. */
  lemma OptionsKeepMeaning(fields: seq<Field>, defaultLimit: u64, quoted: string -> nat, option: string)
    requires Transform(Obj(fields), defaultLimit, quoted).Ok?
    ensures
      var Transformed(out, meta) := Transform(Obj(fields), defaultLimit, quoted).value;
      var before, after := OnlyValue(fields, StreamOptions), OnlyValue(out, StreamOptions);
      if meta.streaming
      then after.Some? && Get(after.value, "include_usage") == Some(Bool(true)) &&
           (option != "include_usage" ==> Get(after.value, option) == CanonicalOption(before, option))
      else after == before
  {
    hide HasNoControls, Transform, ControlNamed, NameOf, ControlFields, Others, ValuesOf, SmallAndSingle, OnlyValue;
    hide ForcedOptions, OutputLimit;
    var c, written := RewriteOf(fields, defaultLimit, quoted);
    WrittenControlsAreRead(Others(fields), written);
    if c.IsStreaming() {
      ForcedOptionsMeaning(c.options, option);
    }
  }

  /** What an option meant before, in the form serde_json writes it. */
  function CanonicalOption(options: Option<Value>, option: string): Option<Value> {
    if options.None? || Get(options.value, option).None? then None
    else Some(Canonical(Get(options.value, option).value))
  }

  lemma ForcedOptionsMeaning(options: Option<Value>, option: string)
    requires ForcedOptions(options).Ok?
    ensures Get(ForcedOptions(options).value, "include_usage") == Some(Bool(true))
    ensures option != "include_usage" ==> Get(ForcedOptions(options).value, option) == CanonicalOption(options, option)
  {
    var given := options.GetOr(Null);
    if given.Obj? {
      CanonicalFieldsKeepMap(given.fields, option);
      LookupInserted(CanonicalFields(given.fields), "include_usage", Bool(true), option);
      LookupInserted(CanonicalFields(given.fields), "include_usage", Bool(true), "include_usage");
    } else {
      InsertIntoNothing(option);
      InsertIntoNothing("include_usage");
    }
  }

  lemma InsertIntoNothing(option: string)
    ensures Lookup([Field("include_usage", Bool(true))], option) == if option == "include_usage"
            then Some(Bool(true)) else None
  {
    var fields := [Field("include_usage", Bool(true))];
    assert fields[|fields| - 1] == Field("include_usage", Bool(true)) && fields[..|fields| - 1] == [];
  }

  // Twice is once

  /** What becomes of options in which usage has been forced already. */
  function ForcedTwice(forced: Value): Result<Value, TransformError> {
    if !IsReadable(forced) then Err(InvalidControlJson)
    else if !IsPassedOn(Canonical(forced)) then Err(InvalidJson)
    else Ok(Canonical(forced))
  }

  /** Forced options are a sorted object that asks for usage. */
  lemma ForcedShape(options: Option<Value>)
    requires ForceUsageOption(options).Ok?
    ensures
      var forced := ForceUsageOption(options).value;
      IsSorted(forced) && forced.Obj? && Lookup(forced.fields, "include_usage") == Some(Bool(true))
  {
    hide IsReadable, Before;
    var given := options.GetOr(Null);
    var fields := if given.Obj? then CanonicalFields(given.fields) else [];
    UsageInserted(fields, given);
    InsertIntoNothing("include_usage");
  }

  lemma UsageInserted(fields: seq<Field>, given: Value)
    requires fields == if given.Obj? then CanonicalFields(given.fields) else []
    ensures
      var forced := Inserted(fields, "include_usage", Bool(true));
      IsSorted(Obj(forced)) && Lookup(forced, "include_usage") == Some(Bool(true))
  {
    FieldsAreCanonical(if given.Obj? then given.fields else []);
    CanonicalIsSorted(given);
    hide Inserted, Canonical, CanonicalFields, Before;
    InsertedIsSorted(fields, "include_usage", Bool(true));
    LookupInserted(fields, "include_usage", Bool(true), "include_usage");
    var forced := Inserted(fields, "include_usage", Bool(true));
    forall i | 0 <= i < |forced| ensures IsSorted(forced[i].value) {
      assert forced[i] in forced;
    }
  }

  /** Forcing forced options respells their numbers and changes nothing else. */
  lemma ForcingAgain(options: Option<Value>)
    requires ForcedOptions(options).Ok?
    ensures
      var forced := ForcedOptions(options).value;
      IsSorted(forced) && ForcedOptions(Some(forced)) == ForcedTwice(forced)
  {
    hide ForceUsageOption, Inserted, CanonicalFields, Canonical, IsPassedOn, IsSorted, IsReadable, Lookup;
    ForcedShape(options);
    ForcingAnObject(ForcedOptions(options).value);
    InsertingPresent(ForcedOptions(options).value.fields);
  }

  lemma ForcingAnObject(v: Value)
    requires v.Obj?
    ensures Canonical(v) == Obj(CanonicalFields(v.fields))
    ensures
      ForceUsageOption(Some(v)) ==
      if IsReadable(v) then Ok(Obj(Inserted(CanonicalFields(v.fields), "include_usage", Bool(true))))
        else Err(InvalidControlJson)
  {
    hide Inserted, CanonicalFields, IsReadable;
  }

  lemma InsertingPresent(forced: seq<Field>)
    requires Lookup(forced, "include_usage") == Some(Bool(true))
    ensures Inserted(CanonicalFields(forced), "include_usage", Bool(true)) == CanonicalFields(forced)
  {
    CanonicalFieldsKeepMap(forced, "include_usage");
    InsertedAgain(CanonicalFields(forced), "include_usage", Bool(true));
  }

  /** Inserting what is already there changes nothing. */
  lemma {:induction false} InsertedAgain(fields: seq<Field>, name: string, value: Value)
    requires Sorted(fields) && Lookup(fields, name) == Some(value)
    ensures Inserted(fields, name, value) == fields
    decreases |fields|
  {
    var n := |fields| - 1;
    var last := fields[n];
    BeforeIsTotal(last.name, name);
    if last.name != name {
      assert !Before(last.name, name) by {
        if Before(last.name, name) {
          forall i | 0 <= i <= n ensures fields[i].name != name {
            BeforeIsTotal(fields[i].name, name);
            if i < n {
              BeforeIsTransitive(fields[i].name, last.name, name);
            }
          }
          LookupNone(fields, name);
        }
      }
      InsertedAgain(fields[..n], name, value);
    }
    assert fields == fields[..n] + [last];
  }

  lemma LimitFits(n: u64, quoted: string -> nat)
    ensures Fits(Unsigned(n), quoted)
  {
    U64IsShort(n);
  }

  /** Deciding again on what was decided changes nothing but the spelling of the forced options. */
  lemma DecidingAgain(c: Controls, defaultLimit: u64)
    requires WrittenControls(c, defaultLimit).Ok? && defaultLimit > 0
    ensures
      var written := WrittenControls(c, defaultLimit).value;
      && OutputLimit(written, defaultLimit) == OutputLimit(c, defaultLimit)
      && written.IsStreaming() == c.IsStreaming()
      && WrittenControls(written, defaultLimit) ==
         if !c.IsStreaming() then Ok(written)
         else
           match ForcedTwice(written.options.value)
           case Err(e) => Err(e)
           case Ok(options) => Ok(written.(options := Some(options)))
  {
    hide ForcedOptions, ForcedTwice;
    if c.IsStreaming() {
      ForcingAgain(c.options);
    }
  }

  predicate Streams(fields: seq<Field>) {
    OnlyValue(fields, Stream) == Some(Bool(true))
  }

  /** What the first rewriting makes of the options of a request that streams. */
  function FirstOptions(fields: seq<Field>): Value
    requires ForcedOptions(OnlyValue(fields, StreamOptions)).Ok?
  {
    ForcedOptions(OnlyValue(fields, StreamOptions)).value
  }

  /** What the second rewriting makes of a request that the first has rewritten. */
  lemma SecondRewriting(fields: seq<Field>, defaultLimit: u64, quoted: string -> nat) returns (written: Controls)
    requires Transform(Obj(fields), defaultLimit, quoted).Ok? && defaultLimit > 0
    ensures
      var once := Transform(Obj(fields), defaultLimit, quoted);
      && HasNoControls(Others(fields)) && once.value.fields == Others(fields) + ControlFields(written)
      && (Streams(fields) ==>
          ForcedOptions(OnlyValue(fields, StreamOptions)).Ok? && written.options == Some(FirstOptions(fields)))
      && Transform(Obj(once.value.fields), defaultLimit, quoted) ==
         if !Streams(fields) then once
         else if !Fits(FirstOptions(fields), quoted) then Err(ControlFieldTooLarge(StreamOptions))
         else
           match ForcedTwice(FirstOptions(fields))
           case Err(e) => Err(e)
           case Ok(options) =>
             Ok(once.value.(fields := Others(fields) + ControlFields(written.(options := Some(options)))))
  {
    hide HasNoControls, ControlNamed, NameOf, ControlFields, Others, ValuesOf, OnlyValue, Fits, Capture;
    hide WrittenControls, OutputLimit, ForcedOptions;
    hide ForcedTwice;
    var c, w := RewriteOf(fields, defaultLimit, quoted);
    written := w;
    LimitFits(defaultLimit, quoted);
    WrittenControlsFit(fields, c, defaultLimit, quoted);
    WrittenOptions(c, defaultLimit);
    CaptureWritten(Others(fields), written, quoted);
    DecidingAgain(c, defaultLimit);
  }

  /** Rewriting a rewritten request gives the same request and metadata exactly when it does not
      stream, or its options with usage forced still fit the control limit and have their numbers
      spelled as serde_json spells them, legibly. Otherwise it is refused, for their size or for a
      number that one of the parsers does not take, or only respells those numbers. */
  lemma TwiceIsOnce(fields: seq<Field>, defaultLimit: u64, quoted: string -> nat)
    requires Transform(Obj(fields), defaultLimit, quoted).Ok? && defaultLimit > 0
    ensures Streams(fields) ==> ForcedOptions(OnlyValue(fields, StreamOptions)).Ok?
    ensures
      var once := Transform(Obj(fields), defaultLimit, quoted);
      var twice := Transform(Obj(once.value.fields), defaultLimit, quoted);
      && (twice == once <==> (Streams(fields) ==>
            && Fits(FirstOptions(fields), quoted) && IsReadable(FirstOptions(fields)) &&
              HasFinalNumbers(FirstOptions(fields))))
      && (Streams(fields) && !Fits(FirstOptions(fields), quoted) ==> twice == Err(ControlFieldTooLarge(StreamOptions)))
      && (Streams(fields) && Fits(FirstOptions(fields), quoted) ==>
            if !IsReadable(FirstOptions(fields)) then twice == Err(InvalidControlJson)
            else if !IsPassedOn(Canonical(FirstOptions(fields))) then twice == Err(InvalidJson)
            else twice.Ok? && OnlyRespells(once.value, twice.value))
  {
    hide HasNoControls, ControlNamed, NameOf, ControlFields, Others, ValuesOf, Transform, Fits, OnlyValue;
    hide ForcedOptions, Canonical, IsReadable, IsPassedOn;
    hide HasFinalNumbers;
    var written := SecondRewriting(fields, defaultLimit, quoted);
    if Streams(fields) {
      var forced := FirstOptions(fields);
      ForcingAgain(OnlyValue(fields, StreamOptions));
      WrittenControlsAreRead(Others(fields), written);
      WrittenControlsAreRead(Others(fields), written.(options := Some(Canonical(forced))));
      FirstOptionsPass(OnlyValue(fields, StreamOptions));
      if IsReadable(forced) {
        LeftAlone(forced);
      }
    }
  }

  lemma FirstOptionsPass(options: Option<Value>)
    requires ForcedOptions(options).Ok?
    ensures IsPassedOn(ForcedOptions(options).value)
  {
  }

  /** Everything is kept except the spelling of the options. */
  predicate OnlyRespells(before: Transformed, after: Transformed) {
    var was, now := OnlyValue(before.fields, StreamOptions), OnlyValue(after.fields, StreamOptions);
    && after.metadata == before.metadata && Others(after.fields) == Others(before.fields)
    && OnlyValue(after.fields, Stream) == OnlyValue(before.fields, Stream)
    && OnlyValue(after.fields, MaxCompletionTokens) == OnlyValue(before.fields, MaxCompletionTokens)
    && OnlyValue(after.fields, MaxTokens) == OnlyValue(before.fields, MaxTokens)
    && was.Some? && now == Some(Canonical(was.value))
  }

  lemma WrittenOptions(c: Controls, defaultLimit: u64)
    requires WrittenControls(c, defaultLimit).Ok?
    ensures c.IsStreaming() ==>
            ForcedOptions(c.options).Ok? &&
              WrittenControls(c, defaultLimit).value.options == Some(ForcedOptions(c.options).value)
  {
  }

  lemma WrittenControlsFit(fields: seq<Field>, c: Controls, defaultLimit: u64, quoted: string -> nat)
    requires c == Controls(OnlyValue(fields, Stream), OnlyValue(fields, StreamOptions),
                           OnlyValue(fields, MaxCompletionTokens),
                           OnlyValue(fields, MaxTokens))
    requires WrittenControls(c, defaultLimit).Ok? && forall c: Control :: SmallAndSingle(fields, c, quoted)
    ensures
      var written := WrittenControls(c, defaultLimit).value;
      && (written.stream.Some? ==> Fits(written.stream.value, quoted))
      && (written.completion.Some? ==> Fits(written.completion.value, quoted))
      && (written.legacy.Some? ==> Fits(written.legacy.value, quoted))
      && (!c.IsStreaming() && written.options.Some? ==> Fits(written.options.value, quoted))
  {
    hide Fits, ValuesOf, NameOf, ForcedOptions;
    LimitFits(defaultLimit, quoted);
    assert SmallAndSingle(fields, Stream, quoted) && SmallAndSingle(fields, StreamOptions, quoted);
    assert SmallAndSingle(fields, MaxCompletionTokens, quoted) && SmallAndSingle(fields, MaxTokens, quoted);
  }

  // The control limit does bite between the first rewriting and the second

  function StreamingRequest(options: Value): seq<Field> {
    [Field("stream", Bool(true)), Field("stream_options", options)]
  }

  function PlainQuotes(s: string): nat {
    |s| + 2
  }

  lemma CaptureStreamingRequest(options: Value)
    requires Fits(options, PlainQuotes)
    ensures Capture(StreamingRequest(options), PlainQuotes) ==
            Ok(Captured([], Controls(Some(Bool(true)), Some(options), None, None)))
  {
    var f1, f2 := Field("stream", Bool(true)), Field("stream_options", options);
    assert [f1, f2][..1] == [f1] && [f1][..0] == [];
    assert Fits(Bool(true), PlainQuotes);
    hide WrittenSize;
    assert ControlNamed("stream") == Some(Stream) && ControlNamed("stream_options") == Some(StreamOptions);
    assert Capture([f1], PlainQuotes) == Ok(Captured([], Controls(Some(Bool(true)), None, None, None)));
  }

  /** A request whose options outgrow the limit when usage is forced is rewritten once and refused
      the second time. */
  lemma OutgrownOptionsAreRefused(options: Value, defaultLimit: u64)
    requires defaultLimit > 0 && Fits(options, PlainQuotes)
    requires ForcedOptions(Some(options)).Ok? && !Fits(ForcedOptions(Some(options)).value, PlainQuotes)
    ensures
      var once := Transform(Obj(StreamingRequest(options)), defaultLimit, PlainQuotes);
      once.Ok? && Transform(Obj(once.value.fields), defaultLimit, PlainQuotes) ==
        Err(ControlFieldTooLarge(StreamOptions))
  {
    var fields := StreamingRequest(options);
    CaptureStreamingRequest(options);
    hide WrittenSize, ForcedOptions, StreamingRequest, Capture;
    assert Transform(Obj(fields), defaultLimit, PlainQuotes).Ok?;
    CapturedControls(fields, PlainQuotes);
    var written := SecondRewriting(fields, defaultLimit, PlainQuotes);
  }

  function OneOption(v: Value): Value {
    Obj([Field("a", v)])
  }

  lemma OneOptionSize(v: Value)
    ensures FieldsSize([Field("a", v)], PlainQuotes) == 4 + WrittenSize(v, PlainQuotes)
    ensures FieldsSize([Field("a", v), Field("include_usage", Bool(true))], PlainQuotes) ==
            25 + WrittenSize(v, PlainQuotes)
  {
    hide WrittenSize;
    var a, usage := Field("a", v), Field("include_usage", Bool(true));
    assert [a][..0] == [] && [a, usage][..1] == [a];
    assert FieldsSize([], PlainQuotes) == 0;
    assert PlainQuotes("a") == 3 && PlainQuotes("include_usage") == 15;
    assert FieldsSize([a], PlainQuotes) == 0 + 0 + 3 + 1 + WrittenSize(v, PlainQuotes);
    assert WrittenSize(Bool(true), PlainQuotes) == 4 by {
      TrueSize();
    }
  }

  lemma TrueSize()
    ensures WrittenSize(Bool(true), PlainQuotes) == 4
  {
  }

  lemma ForcedUsage(v: Value)
    requires IsReadable(v)
    ensures ForceUsageOption(Some(OneOption(v))) ==
            Ok(Obj([Field("a", Canonical(v)), Field("include_usage", Bool(true))]))
  {
    hide Canonical;
    var a, written, usage := Field("a", v), Field("a", Canonical(v)), Field("include_usage", Bool(true));
    assert [a][..0] == [];
    assert CanonicalFields([a]) == [written];
    assert IsReadable(Obj([a]));
    assert Before("a", "include_usage");
    assert Inserted([written], "include_usage", Bool(true)) == [written] + [usage] == [written, usage];
  }

  lemma ForcedOneOption(v: Value)
    requires IsReadable(v) && IsPassedOn(Canonical(v))
    ensures ForcedOptions(Some(OneOption(v))) == ForceUsageOption(Some(OneOption(v)))
  {
    hide ForceUsageOption, Canonical;
    ForcedUsage(v);
    assert IsPassedOn(Obj([Field("a", Canonical(v)), Field("include_usage", Bool(true))]));
  }

  /** Forcing one option adds the usage member, 21 bytes, and writes the option as serde_json does. */
  lemma ForcingOneOption(v: Value)
    requires IsReadable(v) && IsPassedOn(Canonical(v))
    ensures WrittenSize(OneOption(v), PlainQuotes) == 6 + WrittenSize(v, PlainQuotes)
    ensures
      var forced := ForcedOptions(Some(OneOption(v)));
      forced.Ok? && WrittenSize(forced.value, PlainQuotes) == 27 + WrittenSize(Canonical(v), PlainQuotes)
  {
    hide Canonical, FieldsSize, ForcedOptions, ForceUsageOption;
    OneOptionSize(v);
    OneOptionSize(Canonical(v));
    ForcedUsage(v);
    ForcedOneOption(v);
  }

  /** Options that just fit outgrow the limit with the member that is forced into them ... */
  lemma OptionsCanOutgrowTheLimit(text: string, defaultLimit: u64)
    requires |text| == 65_528 && defaultLimit > 0
    ensures
      var once := Transform(Obj(StreamingRequest(OneOption(Str(text)))), defaultLimit, PlainQuotes);
      once.Ok? && Transform(Obj(once.value.fields), defaultLimit, PlainQuotes) ==
        Err(ControlFieldTooLarge(StreamOptions))
  {
    ForcingOneOption(Str(text));
    hide WrittenSize, ForcedOptions, StreamingRequest, Transform, OneOption;
    OutgrownOptionsAreRefused(OneOption(Str(text)), defaultLimit);
  }

  function Copies(v: Value, n: nat): seq<Value> {
    if n == 0 then [] else Copies(v, n - 1) + [v]
  }

  lemma {:induction false} CopiesOf(v: Value, n: nat)
    ensures |Copies(v, n)| == n && forall i :: 0 <= i < n ==> Copies(v, n)[i] == v
    ensures CanonicalItems(Copies(v, n)) == Copies(Canonical(v), n)
  {
    hide Canonical, CanonicalItems;
    if n > 0 {
      CopiesOf(v, n - 1);
      LastIsCanonical(Copies(v, n - 1), v);
    } else {
      NoItems();
    }
  }

  lemma LastIsCanonical(items: seq<Value>, v: Value)
    ensures CanonicalItems(items + [v]) == CanonicalItems(items) + [Canonical(v)]
  {
    hide Canonical;
    assert (items + [v])[..|items|] == items;
  }

  lemma NoItems()
    ensures CanonicalItems([]) == []
  {
  }

  function Times(n: nat, size: nat): nat {
    n * size
  }

  lemma OneMoreTime(n: nat, size: nat)
    ensures Times(n + 1, size) == Times(n, size) + size && Times(1, size) == size
  {
  }

  lemma {:induction false} CopiesSize(v: Value, n: nat, quoted: string -> nat)
    requires n > 0
    ensures ItemsSize(Copies(v, n), quoted) == Times(n, WrittenSize(v, quoted)) + n - 1
  {
    hide WrittenSize, Times, Copies;
    LastCopy(v, n);
    OneMoreTime(n - 1, WrittenSize(v, quoted));
    if n == 1 {
      OneMoreTime(0, WrittenSize(v, quoted));
      assert ItemsSize([], quoted) == 0;
    } else {
      CopiesSize(v, n - 1, quoted);
    }
  }

  lemma LastCopy(v: Value, n: nat)
    requires n > 0
    ensures var items := Copies(v, n); |items| == n && items[..n - 1] == Copies(v, n - 1) && items[n - 1] == v
    ensures Copies(v, 0) == []
  {
    CopiesOf(v, n - 1);
  }

  const HUNDRED: Value :=
    OtherNumber(Spelling("1e2", true), Some(Spelling("100.0", true)), Some(Spelling("100.0", true)))

  /** Fifteen thousand times `1e2`. */
  const HUNDREDS: Value := Arr(Copies(HUNDRED, 15_000))

  lemma HundredsGrow()
    ensures IsReadable(HUNDREDS) && IsPassedOn(Canonical(HUNDREDS))
    ensures WrittenSize(HUNDREDS, PlainQuotes) == 60_001 && WrittenSize(Canonical(HUNDREDS), PlainQuotes) == 90_001
  {
    CopiesOf(HUNDRED, 15_000);
    CopiesOf(Canonical(HUNDRED), 15_000);
    CopiesSize(HUNDRED, 15_000, PlainQuotes);
    CopiesSize(Canonical(HUNDRED), 15_000, PlainQuotes);
    hide Copies, ItemsSize, CanonicalItems;
  }

  /** ... and so do numbers that serde_json spells longer. */
  lemma RespelledNumbersCanOutgrowTheLimit(defaultLimit: u64)
    requires defaultLimit > 0
    ensures
      var once := Transform(Obj(StreamingRequest(OneOption(HUNDREDS))), defaultLimit, PlainQuotes);
      once.Ok? && Transform(Obj(once.value.fields), defaultLimit, PlainQuotes) ==
        Err(ControlFieldTooLarge(StreamOptions))
  {
    HundredsGrow();
    ForcingOneOption(HUNDREDS);
    hide WrittenSize, ForcedOptions, StreamingRequest, Transform, OneOption, HUNDREDS;
    OutgrownOptionsAreRefused(OneOption(HUNDREDS), defaultLimit);
  }

  /** `10e99`, which serde_json spells `1e100`. */
  const GOOGOL: Value :=
    OtherNumber(Spelling("10e99", true), Some(Spelling("1e100", false)), Some(Spelling("1e100", false)))

  /** A number that passed can be spelled so that it no longer does: then the request is refused. */
  lemma RespelledNumberCanBeRefused(defaultLimit: u64)
    ensures Transform(Obj(StreamingRequest(OneOption(GOOGOL))), defaultLimit, PlainQuotes) == Err(InvalidJson)
  {
    var options, a := OneOption(GOOGOL), Field("a", GOOGOL);
    assert [a][..0] == [];
    assert FieldsSize([a], PlainQuotes) == 4 + WrittenSize(GOOGOL, PlainQuotes) by {
      OneOptionSize(GOOGOL);
    }
    CaptureStreamingRequest(options);
    ForcedUsage(GOOGOL);
    hide ForceUsageOption, Capture, StreamingRequest;
    var forced := Obj([Field("a", Canonical(GOOGOL)), Field("include_usage", Bool(true))]);
    assert !IsPassedOn(forced.fields[0].value);
    assert ForcedOptions(Some(options)) == Err(InvalidJson);
  }
}
