/** Token budgets (`anthropic_request.rs`, `openai_request.rs`): the image counters, the inspection
    of an Anthropic request, the budget sum, and the spool whose size goes into it. */
module RequestBudget {
  import opened Prelude
  import opened JsonValues
  import OpenAiRequests

  const IMAGE_INPUT_TOKEN_RESERVE: nat := 32_768
  const MAX_SPOOLED_REQUEST_BYTES: nat := 256 * 1024 * 1024

  datatype Provider = Anthropic | OpenAi

  /** The reference: every member of every object of a document, at any depth, in reading order. */
  function Members(v: Value): seq<Field>
    decreases v
  {
    match v
    case Arr(items) => MembersOfItems(items)
    case Obj(fields) => MembersOfFields(fields)
    case _ => []
  }

  function MembersOfItems(items: seq<Value>): seq<Field>
    decreases items
  {
    if items == [] then []
    else MembersOfItems(items[..|items| - 1]) + Members(items[|items| - 1])
  }

  function MembersOfFields(fields: seq<Field>): seq<Field>
    decreases fields
  {
    if fields == [] then []
    else
      var last := fields[|fields| - 1];
      MembersOfFields(fields[..|fields| - 1]) + [last] + Members(last.value)
  }

  /** What announces an image: `"type": "image"` to Anthropic, an `image_url` member to OpenAI. */
  predicate IsImage(provider: Provider, f: Field) {
    match provider
    case Anthropic => f == Field("type", Str("image"))
    case OpenAi => f.name == "image_url"
  }

  function Images(provider: Provider, members: seq<Field>): nat {
    if members == [] then 0
    else Images(provider, members[..|members| - 1]) + (if IsImage(provider, members[|members| - 1]) then 1 else 0)
  }

  function AsU64OrOverflow(n: nat): Option<nat> {
    if n <= U64_MAX then Some(n) else None
  }

  lemma {:induction false} ImagesAppend(p: Provider, a: seq<Field>, b: seq<Field>)
    ensures Images(p, a + b) == Images(p, a) + Images(p, b)
    decreases |b|
  {
    hide IsImage;
    if b == [] {
      assert a + b == a;
    } else {
      var n := |b| - 1;
      ImagesAppend(p, a, b[..n]);
      assert (a + b)[..|a + b| - 1] == a + b[..n];
    }
  }

  lemma ImagesOfOneMore(p: Provider, before: seq<Field>, f: Field, within: seq<Field>)
    ensures Images(p, before + [f] + within) == Images(p, before) + (if IsImage(p, f) then 1 else 0) + Images(p, within)
  {
    hide IsImage;
    ImagesAppend(p, before + [f], within);
    ImagesAppend(p, before, [f]);
    assert [f][..0] == [];
  }

  /** A prefix holds no more images than the whole: an overflow met on the way is final. */
  lemma {:induction false} ImagesOfFieldsGrow(p: Provider, fields: seq<Field>, n: nat)
    requires n <= |fields|
    ensures Images(p, MembersOfFields(fields[..n])) <= Images(p, MembersOfFields(fields))
    decreases |fields| - n
  {
    hide IsImage;
    if n == |fields| {
      assert fields[..n] == fields;
    } else {
      ImagesOfFieldsGrow(p, fields, n + 1);
      assert fields[..n + 1][..n] == fields[..n];
      ImagesOfOneMore(p, MembersOfFields(fields[..n]), fields[n], Members(fields[n].value));
    }
  }

  lemma {:induction false} ImagesOfItemsGrow(p: Provider, items: seq<Value>, n: nat)
    requires n <= |items|
    ensures Images(p, MembersOfItems(items[..n])) <= Images(p, MembersOfItems(items))
    decreases |items| - n
  {
    hide IsImage;
    if n == |items| {
      assert items[..n] == items;
    } else {
      ImagesOfItemsGrow(p, items, n + 1);
      assert items[..n + 1][..n] == items[..n];
      ImagesAppend(p, MembersOfItems(items[..n]), Members(items[n]));
    }
  }

  /** One member more: its own image, if it announces one, and those within. */
  lemma FieldStep(p: Provider, fields: seq<Field>, i: nat)
    requires i < |fields|
    ensures
      var images := Images(p, MembersOfFields(fields[..i])) + (if IsImage(p, fields[i]) then 1 else 0);
      && Images(p, MembersOfFields(fields[..i + 1])) == images + Images(p, Members(fields[i].value))
      && images + Images(p, Members(fields[i].value)) <= Images(p, MembersOfFields(fields))
  {
    hide IsImage;
    assert fields[..i + 1][..i] == fields[..i];
    ImagesOfOneMore(p, MembersOfFields(fields[..i]), fields[i], Members(fields[i].value));
    ImagesOfFieldsGrow(p, fields, i + 1);
  }

  lemma ItemStep(p: Provider, items: seq<Value>, i: nat)
    requires i < |items|
    ensures Images(p, MembersOfItems(items[..i + 1])) ==
            Images(p, MembersOfItems(items[..i])) + Images(p, Members(items[i]))
    ensures Images(p, MembersOfItems(items[..i + 1])) <= Images(p, MembersOfItems(items))
  {
    hide IsImage;
    assert items[..i + 1][..i] == items[..i];
    ImagesAppend(p, MembersOfItems(items[..i]), Members(items[i]));
    ImagesOfItemsGrow(p, items, i + 1);
  }

  /** `count_image_inputs` (`anthropic_request.rs`) */
  method CountAnthropicImages(v: Value) returns (r: Option<nat>)
    ensures r == AsU64OrOverflow(Images(Anthropic, Members(v)))
    decreases v
  {
    hide Images;
    var images := 0;
    NoImages();
    match v
    case Obj(fields) =>
      for i := 0 to |fields|
        invariant images == Images(Anthropic, MembersOfFields(fields[..i])) <= U64_MAX
      {
        FieldStep(Anthropic, fields, i);
        var field := fields[i];
        if field.name == "type" && field.value.Str? {
          if field.value.s == "image" {
            if images + 1 > U64_MAX {
              return None;
            }
            images := images + 1;
          }
        } else {
          var within := CountAnthropicImages(field.value);
          if within.None? || CheckedAdd(images, within.value).None? {
            return None;
          }
          images := images + within.value;
        }
      }
      assert fields[..|fields|] == fields;
      return Some(images);
    case Arr(items) =>
      for i := 0 to |items|
        invariant images == Images(Anthropic, MembersOfItems(items[..i])) <= U64_MAX
      {
        ItemStep(Anthropic, items, i);
        var within := CountAnthropicImages(items[i]);
        if within.None? || CheckedAdd(images, within.value).None? {
          return None;
        }
        images := images + within.value;
      }
      assert items[..|items|] == items;
      return Some(images);
    case _ =>
      return Some(0);
  }

  /** `count_image_inputs` (`openai_request.rs`) */
  method CountOpenAiImages(v: Value) returns (r: Option<nat>)
    ensures r == AsU64OrOverflow(Images(OpenAi, Members(v)))
    decreases v
  {
    hide Images;
    var images := 0;
    NoImages();
    match v
    case Obj(fields) =>
      for i := 0 to |fields|
        invariant images == Images(OpenAi, MembersOfFields(fields[..i])) <= U64_MAX
      {
        FieldStep(OpenAi, fields, i);
        if fields[i].name == "image_url" {
          if images + 1 > U64_MAX {
            return None;
          }
          images := images + 1;
        }
        var within := CountOpenAiImages(fields[i].value);
        if within.None? || CheckedAdd(images, within.value).None? {
          return None;
        }
        images := images + within.value;
      }
      assert fields[..|fields|] == fields;
      return Some(images);
    case Arr(items) =>
      for i := 0 to |items|
        invariant images == Images(OpenAi, MembersOfItems(items[..i])) <= U64_MAX
      {
        ItemStep(OpenAi, items, i);
        var within := CountOpenAiImages(items[i]);
        if within.None? || CheckedAdd(images, within.value).None? {
          return None;
        }
        images := images + within.value;
      }
      assert items[..|items|] == items;
      return Some(images);
    case _ =>
      return Some(0);
  }

  lemma NoImages()
    ensures forall p :: Images(p, []) == 0
  {
  }

  // Inspecting an Anthropic request

  datatype AnthropicError = DuplicateField(name: string) | InvalidJson | InvalidMaxTokens | TokenBudgetOverflow

  datatype AnthropicMetadata = AnthropicMetadata(imageInputs: u64, maxTokens: u64, streaming: bool)

  predicate IsRead(name: string) {
    name == "max_tokens" || name == "stream"
  }

  /** The images the inspection counts: those inside the members it does not read itself. */
  function InspectedImages(fields: seq<Field>): nat {
    if fields == [] then 0
    else
      var last := fields[|fields| - 1];
      InspectedImages(fields[..|fields| - 1]) +
        (if IsRead(last.name) then 0 else Images(Anthropic, Members(last.value)))
  }

  function ValuesOf(fields: seq<Field>, name: string): seq<Value> {
    OpenAiRequests.ValuesOf(fields, name)
  }

  predicate HasPositiveLimit(fields: seq<Field>) {
    var limits := ValuesOf(fields, "max_tokens");
    |limits| == 1 && limits[0].Unsigned? && limits[0].n > 0
  }

  predicate HasOneFlag(fields: seq<Field>) {
    var flags := ValuesOf(fields, "stream");
    |flags| == 0 || (|flags| == 1 && flags[0].Bool?)
  }

  predicate AcceptedAnthropic(fields: seq<Field>) {
    HasPositiveLimit(fields) && HasOneFlag(fields) && InspectedImages(fields) <= U64_MAX
  }

  predicate IsMisread(f: Field) {
    || (f.name == "stream" && !f.value.Bool?)
    || (f.name == "max_tokens" && !f.value.Unsigned? && !f.value.OtherNumber?)
  }

  /** What each error says about the document. */
  predicate Explains(fields: seq<Field>, e: AnthropicError) {
    match e
    case DuplicateField(name) => IsRead(name) && |ValuesOf(fields, name)| > 1
    case InvalidJson => exists f :: f in fields && IsMisread(f)
    case InvalidMaxTokens => !HasPositiveLimit(fields)
    case TokenBudgetOverflow => InspectedImages(fields) > U64_MAX
  }

  /** So far each member that is read occurs at most once, with a value of its type, and the images
      can be counted. */
  predicate ReadsWell(fields: seq<Field>) {
    var limits, flags := ValuesOf(fields, "max_tokens"), ValuesOf(fields, "stream");
    && (limits == [] || (|limits| == 1 && limits[0].Unsigned?))
    && (flags == [] || (|flags| == 1 && flags[0].Bool?))
    && InspectedImages(fields) <= U64_MAX
  }

  predicate IsFirstFault(fields: seq<Field>, i: nat) {
    i < |fields| && ReadsWell(fields[..i]) && !ReadsWell(fields[..i + 1])
  }

  function Fault(fields: seq<Field>, i: nat): AnthropicError
    requires i < |fields|
  {
    var Field(name, value) := fields[i];
    if !IsRead(name) then TokenBudgetOverflow
    else if ValuesOf(fields[..i], name) != [] then DuplicateField(name)
    else if name == "max_tokens" && value.OtherNumber? then InvalidMaxTokens
    else InvalidJson
  }

  /** The error of a refused request: its first fault in reading order, or at the end the missing limit. */
  ghost predicate IsReason(fields: seq<Field>, e: AnthropicError) {
    || (ReadsWell(fields) && !HasPositiveLimit(fields) && e == InvalidMaxTokens)
    || exists i :: IsFirstFault(fields, i) && e == Fault(fields, i)
  }

  lemma {:induction false} ValuesGrow(fields: seq<Field>, n: nat, name: string)
    requires n <= |fields|
    ensures ValuesOf(fields[..n], name) <= ValuesOf(fields, name)
    decreases |fields| - n
  {
    if n == |fields| {
      assert fields[..n] == fields;
    } else {
      ValuesGrow(fields, n + 1, name);
      assert fields[..n + 1][..n] == fields[..n];
    }
  }

  lemma {:induction false} InspectedImagesGrow(fields: seq<Field>, n: nat)
    requires n <= |fields|
    ensures InspectedImages(fields[..n]) <= InspectedImages(fields)
    decreases |fields| - n
  {
    hide Images, IsRead;
    if n == |fields| {
      assert fields[..n] == fields;
    } else {
      InspectedImagesGrow(fields, n + 1);
      assert fields[..n + 1][..n] == fields[..n];
    }
  }

  lemma InspectionStep(fields: seq<Field>, i: nat)
    requires i < |fields|
    ensures forall name :: ValuesOf(fields[..i + 1], name) ==
                           ValuesOf(fields[..i], name) + (if fields[i].name == name then [fields[i].value] else [])
    ensures forall name :: ValuesOf(fields[..i + 1], name) <= ValuesOf(fields, name)
    ensures InspectedImages(fields[..i + 1]) ==
            InspectedImages(fields[..i]) +
              (if IsRead(fields[i].name) then 0 else Images(Anthropic, Members(fields[i].value)))
    ensures InspectedImages(fields[..i + 1]) <= InspectedImages(fields)
  {
    hide Images, IsRead;
    assert fields[..i + 1][..i] == fields[..i];
    forall name ensures ValuesOf(fields[..i + 1], name) <= ValuesOf(fields, name) {
      ValuesGrow(fields, i + 1, name);
    }
    InspectedImagesGrow(fields, i + 1);
  }

  function Limit(max: Option<u64>): seq<Value> {
    if max.Some? then [Unsigned(max.value)] else []
  }

  function Flag(streaming: Option<bool>): seq<Value> {
    if streaming.Some? then [Bool(streaming.value)] else []
  }

  /** What the loop has taken from the members read so far. */
  predicate Inspected(fields: seq<Field>, maxTokens: Option<u64>, streaming: Option<bool>, images: nat) {
    && ValuesOf(fields, "max_tokens") == Limit(maxTokens)
    && ValuesOf(fields, "stream") == Flag(streaming)
    && images == InspectedImages(fields) <= U64_MAX
  }

  ghost predicate Refused(fields: seq<Field>, e: AnthropicError) {
    !AcceptedAnthropic(fields) && Explains(fields, e) && IsReason(fields, e)
  }

  lemma FirstFaultIsReason(fields: seq<Field>, i: nat, maxTokens: Option<u64>, streaming: Option<bool>, images: nat)
    requires i < |fields| && Inspected(fields[..i], maxTokens, streaming, images)
    ensures !ReadsWell(fields[..i + 1]) ==> IsReason(fields, Fault(fields, i))
  {
    hide OpenAiRequests.ValuesOf, InspectedImages;
    if !ReadsWell(fields[..i + 1]) {
      assert IsFirstFault(fields, i);
    }
  }

  lemma LimitStep(fields: seq<Field>, i: nat, maxTokens: Option<u64>, streaming: Option<bool>, images: nat)
    requires i < |fields| && fields[i].name == "max_tokens" && Inspected(fields[..i], maxTokens, streaming, images)
    ensures maxTokens.Some? ==> Refused(fields, DuplicateField("max_tokens"))
    ensures maxTokens.None? && !fields[i].value.Unsigned? ==>
              Refused(fields, if fields[i].value.OtherNumber? then InvalidMaxTokens else InvalidJson)
    ensures maxTokens.None? && fields[i].value.Unsigned? ==>
              Inspected(fields[..i + 1], Some(fields[i].value.n), streaming, images)
  {
    hide OpenAiRequests.ValuesOf, InspectedImages;
    InspectionStep(fields, i);
    FirstFaultIsReason(fields, i, maxTokens, streaming, images);
    assert fields[i] in fields;
    assert ValuesOf(fields[..i + 1], "max_tokens") <= ValuesOf(fields, "max_tokens");
    assert "max_tokens" != "stream" by {
      assert |"max_tokens"| != |"stream"|;
    }
  }

  lemma FlagStep(fields: seq<Field>, i: nat, maxTokens: Option<u64>, streaming: Option<bool>, images: nat)
    requires i < |fields| && fields[i].name == "stream" && Inspected(fields[..i], maxTokens, streaming, images)
    ensures streaming.Some? ==> Refused(fields, DuplicateField("stream"))
    ensures streaming.None? && !fields[i].value.Bool? ==> Refused(fields, InvalidJson)
    ensures streaming.None? && fields[i].value.Bool? ==>
              Inspected(fields[..i + 1], maxTokens, Some(fields[i].value.b), images)
  {
    hide OpenAiRequests.ValuesOf, InspectedImages;
    InspectionStep(fields, i);
    FirstFaultIsReason(fields, i, maxTokens, streaming, images);
    assert fields[i] in fields;
    assert ValuesOf(fields[..i + 1], "stream") <= ValuesOf(fields, "stream");
    assert "max_tokens" != "stream" by {
      assert |"max_tokens"| != |"stream"|;
    }
  }

  lemma OtherStep(fields: seq<Field>, i: nat, maxTokens: Option<u64>, streaming: Option<bool>, images: nat)
    requires i < |fields| && !IsRead(fields[i].name) && Inspected(fields[..i], maxTokens, streaming, images)
    ensures
      var total := images + Images(Anthropic, Members(fields[i].value));
      if total > U64_MAX then Refused(fields, TokenBudgetOverflow)
        else Inspected(fields[..i + 1], maxTokens, streaming, total)
  {
    hide OpenAiRequests.ValuesOf, InspectedImages, Images, Members;
    InspectionStep(fields, i);
    FirstFaultIsReason(fields, i, maxTokens, streaming, images);
  }

  lemma InspectionEnd(fields: seq<Field>, maxTokens: Option<u64>, streaming: Option<bool>, images: nat)
    requires Inspected(fields, maxTokens, streaming, images)
    ensures maxTokens.None? || maxTokens.value == 0 ==> Refused(fields, InvalidMaxTokens)
    ensures maxTokens.Some? && maxTokens.value > 0 ==> AcceptedAnthropic(fields)
    ensures streaming.GetOr(false) <==> ValuesOf(fields, "stream") == [Bool(true)]
  {
    hide OpenAiRequests.ValuesOf, InspectedImages;
  }

  /** `inspect_request`: accepts exactly the requests with one positive `max_tokens`, at most one
      boolean `stream` and a countable number of images, and every refusal names its first fault. */
  method InspectRequest(document: Value) returns (r: Result<AnthropicMetadata, AnthropicError>)
    ensures !document.Obj? ==> r == Err(InvalidJson)
    ensures document.Obj? ==> (r.Ok? <==> AcceptedAnthropic(document.fields))
    ensures r.Ok? ==>
              && ValuesOf(document.fields, "max_tokens") == [Unsigned(r.value.maxTokens)]
              && r.value.streaming == (ValuesOf(document.fields, "stream") == [Bool(true)])
              && r.value.imageInputs == InspectedImages(document.fields)
    ensures document.Obj? && r.Err? ==> Explains(document.fields, r.error) && IsReason(document.fields, r.error)
  {
    hide AcceptedAnthropic, Explains, IsReason, Images, Members, InspectedImages, OpenAiRequests.ValuesOf;
    if !document.Obj? {
      return Err(InvalidJson);
    }
    var fields := document.fields;
    var maxTokens: Option<u64> := None;
    var streaming: Option<bool> := None;
    var imageInputs := 0;
    InspectionStart();
    assert fields[..0] == [];
    for i := 0 to |fields|
      invariant Inspected(fields[..i], maxTokens, streaming, imageInputs)
    {
      hide Inspected;
      var Field(name, value) := fields[i];
      if name == "max_tokens" {
        LimitStep(fields, i, maxTokens, streaming, imageInputs);
        if maxTokens.Some? {
          return Err(DuplicateField("max_tokens"));
        }
        if !value.Unsigned? {
          return Err(if value.OtherNumber? then InvalidMaxTokens else InvalidJson);
        }
        maxTokens := Some(value.n);
      } else if name == "stream" {
        FlagStep(fields, i, maxTokens, streaming, imageInputs);
        if streaming.Some? {
          return Err(DuplicateField("stream"));
        }
        if !value.Bool? {
          return Err(InvalidJson);
        }
        streaming := Some(value.b);
      } else {
        OtherStep(fields, i, maxTokens, streaming, imageInputs);
        var within := CountAnthropicImages(value);
        if within.None? || CheckedAdd(imageInputs, within.value).None? {
          return Err(TokenBudgetOverflow);
        }
        imageInputs := imageInputs + within.value;
      }
    }
    assert fields[..|fields|] == fields;
    InspectionEnd(fields, maxTokens, streaming, imageInputs);
    if maxTokens.None? || maxTokens.value == 0 {
      return Err(InvalidMaxTokens);
    }
    r := Ok(AnthropicMetadata(imageInputs, maxTokens.value, streaming.GetOr(false)));
  }

  lemma InspectionStart()
    ensures Inspected([], None, None, 0)
  {
  }

  // What the inspection leaves uncounted

  lemma {:induction false} InspectedImagesOf(fields: seq<Field>)
    requires forall f :: f in fields && IsRead(f.name) ==> Members(f.value) == []
    ensures Images(Anthropic, MembersOfFields(fields)) == InspectedImages(fields) + Images(Anthropic, fields)
    decreases |fields|
  {
    hide IsImage, IsRead;
    if fields != [] {
      var n := |fields| - 1;
      var last := fields[n];
      InspectedImagesOf(fields[..n]);
      ImagesOfOneMore(Anthropic, MembersOfFields(fields[..n]), last, Members(last.value));
      assert last in fields;
      assert IsRead(last.name) ==> Images(Anthropic, Members(last.value)) == 0;
    }
  }

  lemma {:induction false} OnlyValues(fields: seq<Field>, f: Field)
    requires f in fields
    ensures f.value in ValuesOf(fields, f.name)
    decreases |fields|
  {
    if f != fields[|fields| - 1] {
      assert f in fields[..|fields| - 1];
      OnlyValues(fields[..|fields| - 1], f);
    }
  }

  /** An accepted request is charged for every `"type": "image"` member anywhere in it except one at
      the top level, which describes the request and not a content block. */
  lemma AcceptedImages(fields: seq<Field>)
    requires AcceptedAnthropic(fields)
    ensures InspectedImages(fields) + Images(Anthropic, fields) == Images(Anthropic, Members(Obj(fields)))
  {
    hide Images, IsImage;
    forall f | f in fields && IsRead(f.name) ensures Members(f.value) == [] {
      OnlyValues(fields, f);
    }
    InspectedImagesOf(fields);
  }

  /** So an accepted request can hold an image that nobody charges for. */
  lemma TopLevelImageIsNotCharged()
    ensures
      var fields := [Field("max_tokens", Unsigned(1)), Field("type", Str("image"))];
      AcceptedAnthropic(fields) && InspectedImages(fields) == 0 && Images(Anthropic, Members(Obj(fields))) == 1
  {
    var limit, image := Field("max_tokens", Unsigned(1)), Field("type", Str("image"));
    var fields := [limit, image];
    assert |"max_tokens"| == 10 && |"stream"| == 6 && |"type"| == 4;
    assert fields[..1] == [limit] && [limit][..0] == [];
    assert OpenAiRequests.ValuesOf([limit], "max_tokens") == [Unsigned(1)] &&
           OpenAiRequests.ValuesOf([limit], "stream") == [];
    assert InspectedImages([limit]) == 0;
    AcceptedImages(fields);
    assert Images(Anthropic, [limit]) == 0;
  }

  // The budget

  /** `calculate_token_budget`, and the same sum in `anthropic_request.rs`: exact, or refused. */
  function TokenBudget(bodyBytes: u64, images: u64, outputLimit: u64): (r: Option<nat>)
    ensures r == AsU64OrOverflow(bodyBytes + 32_768 * images + outputLimit)
  {
    match CheckedMul(images, IMAGE_INPUT_TOKEN_RESERVE)
    case None => None
    case Some(reserve) =>
      match CheckedAdd(bodyBytes, reserve)
      case None => None
      case Some(input) => CheckedAdd(input, outputLimit)
  }

  datatype Prepared = Prepared(streaming: bool, budget: u64)

  /** `prepare_anthropic_request` after spooling: the budget is the body plus its images plus the
      limit, and positive, so a reservation never refuses it as empty. */
  method PrepareAnthropic(document: Value, bodyBytes: u64) returns (r: Result<Prepared, AnthropicError>)
    requires bodyBytes <= MAX_SPOOLED_REQUEST_BYTES
    ensures r.Ok? ==> document.Obj? && AcceptedAnthropic(document.fields) && r.value.budget > 0
    ensures !document.Obj? ==> r == Err(InvalidJson)
    ensures document.Obj? && !AcceptedAnthropic(document.fields) ==> r.Err? && IsReason(document.fields, r.error)
    ensures r.Ok? ==>
              var limit := ValuesOf(document.fields, "max_tokens")[0].n;
              r.value.budget == bodyBytes + 32_768 * InspectedImages(document.fields) + limit
    ensures document.Obj? && AcceptedAnthropic(document.fields) ==>
              var limit := ValuesOf(document.fields, "max_tokens")[0].n;
              if bodyBytes + 32_768 * InspectedImages(document.fields) + limit <= U64_MAX
              then r.Ok? && r.value.streaming == (ValuesOf(document.fields, "stream") == [Bool(true)])
              else r == Err(TokenBudgetOverflow)
  {
    hide OpenAiRequests.ValuesOf, InspectedImages;
    var inspected := InspectRequest(document);
    if inspected.Err? {
      return Err(inspected.error);
    }
    var AnthropicMetadata(images, limit, streaming) := inspected.value;
    var budget := TokenBudget(bodyBytes, images, limit);
    if budget.None? {
      return Err(TokenBudgetOverflow);
    }
    r := Ok(Prepared(streaming, budget.value));
  }

  datatype PrepareError = NotTransformed(error: OpenAiRequests.TransformError) | TooLarge | BudgetOverflow

  /** What the rewritten request costs. */
  function OpenAiCost(out: OpenAiRequests.Transformed, quoted: string -> nat): nat {
    WrittenSize(Obj(out.fields), quoted) + 32_768 * Images(OpenAi, Members(Obj(out.fields))) +
      out.metadata.maxOutputTokens
  }

  /** The most that is written before a fault of the document is noticed: the members passed on, the
      stream flag and the options, forced if the request streams. */
  function WrittenBeforeFault(fields: seq<Field>, quoted: string -> nat): nat {
    var options := OpenAiRequests.OnlyValue(fields, OpenAiRequests.StreamOptions);
    var forced := OpenAiRequests.ForceUsageOption(options);
    var written := if OpenAiRequests.Streams(fields) then (if forced.Ok? then Some(forced.value) else None)
      else options;
    1 + FieldsSize(OpenAiRequests.Others(fields) +
                   OpenAiRequests.ControlField(OpenAiRequests.Stream,
                                               OpenAiRequests.OnlyValue(fields, OpenAiRequests.Stream)) +
                   OpenAiRequests.ControlField(OpenAiRequests.StreamOptions, written), quoted)
  }

  predicate MeetsLimitFirst(document: Value, quoted: string -> nat, early: bool) {
    early && document.Obj? && WrittenBeforeFault(document.fields, quoted) > MAX_SPOOLED_REQUEST_BYTES
  }

  /** `prepare_openai_request`: rewrite, count the images of what was written, and add up. `quoted`
      is the written length of a string. A document of which more than the spool takes is written
      before a fault is noticed may meet the limit first, `early`. */
  method PrepareOpenAi(document: Value, defaultLimit: u64, quoted: string -> nat, early: bool)
    returns (r: Result<Prepared, PrepareError>)
    requires defaultLimit > 0
    ensures r.Ok? ==> r.value.budget > 0
    ensures
      match OpenAiRequests.Transform(document, defaultLimit, quoted)
      case Err(e) => r == Err(if MeetsLimitFirst(document, quoted, early) then TooLarge else NotTransformed(e))
      case Ok(out) =>
        var bytes, cost := WrittenSize(Obj(out.fields), quoted), OpenAiCost(out, quoted);
        if bytes > MAX_SPOOLED_REQUEST_BYTES then r == Err(TooLarge)
        else if cost > U64_MAX then r == Err(BudgetOverflow)
        else r == Ok(Prepared(out.metadata.streaming, cost))
  {
    hide Images, Members, WrittenSize, OpenAiRequests.Transform;
    var transformed := OpenAiRequests.TransformJson(document, defaultLimit, quoted);
    if transformed.Err? {
      if MeetsLimitFirst(document, quoted, early) {
        return Err(TooLarge);
      }
      return Err(NotTransformed(transformed.error));
    }
    PositiveLimit(document, defaultLimit, quoted);
    var out := transformed.value;
    var bodyBytes := WrittenSize(Obj(out.fields), quoted);
    if bodyBytes > MAX_SPOOLED_REQUEST_BYTES {
      return Err(TooLarge);
    }
    var images := CountOpenAiImages(Obj(out.fields));
    if images.None? {
      return Err(BudgetOverflow);
    }
    var budget := TokenBudget(bodyBytes, images.value, out.metadata.maxOutputTokens);
    if budget.None? {
      return Err(BudgetOverflow);
    }
    r := Ok(Prepared(out.metadata.streaming, budget.value));
  }

  lemma PositiveLimit(document: Value, defaultLimit: u64, quoted: string -> nat)
    requires OpenAiRequests.Transform(document, defaultLimit, quoted).Ok? && defaultLimit > 0
    ensures OpenAiRequests.Transform(document, defaultLimit, quoted).value.metadata.maxOutputTokens > 0
  {
    OpenAiRequests.RewritingKeepsMeaning(document.fields, defaultLimit, quoted);
  }

  /** Every member takes a byte of text, so a spooled request cannot overflow the image counter ... */
  lemma {:induction false} MembersTakeSpace(v: Value, quoted: string -> nat)
    ensures |Members(v)| <= WrittenSize(v, quoted)
    decreases v
  {
    match v
    case Arr(items) => ItemMembersTakeSpace(items, quoted);
    case Obj(fields) => FieldMembersTakeSpace(fields, quoted);
    case _ =>
  }

  lemma {:induction false} ItemMembersTakeSpace(items: seq<Value>, quoted: string -> nat)
    ensures |MembersOfItems(items)| <= ItemsSize(items, quoted)
    decreases items
  {
    if items != [] {
      ItemMembersTakeSpace(items[..|items| - 1], quoted);
      MembersTakeSpace(items[|items| - 1], quoted);
    }
  }

  lemma {:induction false} FieldMembersTakeSpace(fields: seq<Field>, quoted: string -> nat)
    ensures |MembersOfFields(fields)| <= FieldsSize(fields, quoted)
    decreases fields
  {
    if fields != [] {
      FieldMembersTakeSpace(fields[..|fields| - 1], quoted);
      MembersTakeSpace(fields[|fields| - 1].value, quoted);
    }
  }

  lemma {:induction false} ImagesAreMembers(p: Provider, members: seq<Field>)
    ensures Images(p, members) <= |members|
    decreases |members|
  {
    if members != [] {
      ImagesAreMembers(p, members[..|members| - 1]);
    }
  }

  /** ... and the budget overflows only when the caller asks for almost 2^64 output tokens. */
  lemma OverflowNeedsHugeLimit(out: OpenAiRequests.Transformed, quoted: string -> nat)
    requires WrittenSize(Obj(out.fields), quoted) <= MAX_SPOOLED_REQUEST_BYTES
    ensures Images(OpenAi, Members(Obj(out.fields))) <= MAX_SPOOLED_REQUEST_BYTES
    ensures OpenAiCost(out, quoted) > U64_MAX ==>
            out.metadata.maxOutputTokens > U64_MAX - 32_769 * MAX_SPOOLED_REQUEST_BYTES
  {
    MembersTakeSpace(Obj(out.fields), quoted);
    ImagesAreMembers(OpenAi, Members(Obj(out.fields)));
  }

  // The spool

  /** `LimitedSpoolWriter` over a file that may take any part of what it is given. */
  class LimitedSpoolWriter {
    var inner: seq<byte>
    const limit: u64
    var written: u64

    ghost predicate Valid()
      reads this
    {
      written == Min(|inner|, U64_MAX) && (limit < U64_MAX ==> |inner| <= limit)
    }

    /** What may still be written. The largest limit is none: the sum it is compared with saturates. */
    ghost predicate HasRoom(n: nat)
      reads this
    {
      limit == U64_MAX || |inner| + n <= limit
    }

    constructor (limit: u64)
      ensures Valid() && this.limit == limit && inner == []
    {
      this.limit := limit;
      inner := [];
      written := 0;
    }

    /** One `write`: `taken` is what the file accepts. Nothing is written past the limit. */
    method Write(input: seq<byte>, taken: nat) returns (ok: bool)
      requires Valid() && |input| <= U64_MAX && taken <= |input|
      modifies this
      ensures Valid()
      ensures ok <==> old(HasRoom(|input|))
      ensures inner == if ok then old(inner) + input[..taken] else old(inner)
    {
      if SaturatingAdd(written, |input|) > limit {
        return false;
      }
      inner := inner + input[..taken];
      written := SaturatingAdd(written, taken);
      return true;
    }

    /** `write_all`: `takes(k)` decides how much the file takes when `k` bytes are left. */
    method WriteAll(input: seq<byte>, takes: nat -> nat) returns (ok: bool)
      requires Valid() && |input| <= U64_MAX
      modifies this
      ensures Valid()
      ensures ok <==> old(HasRoom(|input|))
      ensures inner == if ok then old(inner) + input else old(inner)
    {
      var rest := input;
      while rest != []
        invariant Valid() && |rest| <= |input|
        invariant |inner| + |rest| == |old(inner)| + |input|
        invariant inner + rest == old(inner) + input
        invariant |rest| < |input| ==> old(HasRoom(|input|))
        decreases |rest|
      {
        var taken := Max(1, Min(takes(|rest|), |rest|));
        var wrote := Write(rest, taken);
        if !wrote {
          assert inner == (inner + rest)[..|inner|] && old(inner) == (old(inner) + input)[..|old(inner)|];
          return false;
        }
        rest := rest[taken..];
      }
      return true;
    }

    /** `io::copy` of a body that arrives in any chunks: it is spooled whole exactly when it is
        within the limit, and otherwise only a part of it is. */
    method Copy(chunks: seq<seq<byte>>, takes: nat -> nat) returns (ok: bool)
      requires Valid() && inner == [] && forall c :: c in chunks ==> |c| <= U64_MAX
      modifies this
      ensures Valid()
      ensures ok <==> old(HasRoom(|Flatten(chunks)|))
      ensures if ok then inner == Flatten(chunks) else inner <= Flatten(chunks)
    {
      for i := 0 to |chunks|
        invariant Valid() && inner == Flatten(chunks[..i])
      {
        assert chunks[..i + 1][..i] == chunks[..i];
        FlattenGrows(chunks, i + 1);
        FlattenGrows(chunks, i);
        ok := WriteAll(chunks[i], takes);
        if !ok {
          assert Flatten(chunks[..i + 1]) == Flatten(chunks[..i]) + chunks[i];
          assert Flatten(chunks[..i]) <= Flatten(chunks);
          return;
        }
      }
      assert chunks[..|chunks|] == chunks;
      return true;
    }
  }
}
