/** JSON texts as byte strings: the grammar of RFC 8259, sections 2 to 7, with every choice of
    whitespace recorded, and how such a text is written out. Strings are kept as raw bytes
    between their quotes; UTF-8 validity is not part of this model. */
module JsonGrammar {
  import opened Prelude

  type Bytes = seq<byte>

  const QUOTE: byte := 0x22
  const BACKSLASH: byte := 0x5C
  const OPEN_BRACE: byte := 0x7B
  const CLOSE_BRACE: byte := 0x7D
  const OPEN_BRACKET: byte := 0x5B
  const CLOSE_BRACKET: byte := 0x5D
  const COLON: byte := 0x3A
  const COMMA: byte := 0x2C
  const MINUS: byte := 0x2D
  const PLUS: byte := 0x2B
  const DOT: byte := 0x2E
  const LOWER_U: byte := 0x75

  /** A text as a tree that remembers its whitespace. */
  datatype Json =
    | Scalar(text: Bytes)
    | Text(raw: Bytes)
    | Array(gap: Bytes, items: Items)
    | Object(gap: Bytes, members: Members)

  datatype Items = NoItems | Item(before: Bytes, value: Json, after: Bytes, rest: Items)

  datatype Members =
    | NoMembers
    | Member(before: Bytes, key: Bytes, afterKey: Bytes, beforeValue: Bytes, value: Json, after: Bytes, rest: Members)

  datatype Document = Document(before: Bytes, value: Json, after: Bytes)

  // Tokens

  predicate IsSpace(b: byte) {
    b == 0x20 || b == 0x09 || b == 0x0A || b == 0x0D
  }

  predicate IsWhitespace(s: Bytes) {
    forall i :: 0 <= i < |s| ==> IsSpace(s[i])
  }

  predicate IsDigit(b: byte) {
    0x30 <= b <= 0x39
  }

  predicate AreDigits(s: Bytes) {
    s != [] && forall i :: 0 <= i < |s| ==> IsDigit(s[i])
  }

  predicate IsInteger(s: Bytes) {
    AreDigits(s) && (|s| > 1 ==> s[0] != 0x30)
  }

  predicate IsFraction(s: Bytes) {
    s == [] || (s[0] == DOT && AreDigits(s[1..]))
  }

  predicate IsExponent(s: Bytes) {
    || s == []
    || (s[0] in {0x65, 0x45} && |s| > 1 && AreDigits(if s[1] in {PLUS, MINUS} then s[2..] else s[1..]))
  }

  ghost predicate IsNumber(s: Bytes) {
    exists sign: Bytes, whole: Bytes, frac: Bytes, exp: Bytes ::
      s == sign + whole + frac + exp && sign in {[], [MINUS]} && IsInteger(whole) && IsFraction(frac) && IsExponent(exp)
  }

  const TRUE_TEXT: Bytes := [0x74, 0x72, 0x75, 0x65]
  const FALSE_TEXT: Bytes := [0x66, 0x61, 0x6C, 0x73, 0x65]
  const NULL_TEXT: Bytes := [0x6E, 0x75, 0x6C, 0x6C]

  ghost predicate IsScalar(s: Bytes) {
    s in {TRUE_TEXT, FALSE_TEXT, NULL_TEXT} || IsNumber(s)
  }

  predicate IsHex(b: byte) {
    IsDigit(b) || 0x41 <= b <= 0x46 || 0x61 <= b <= 0x66
  }

  /** The bytes between the quotes of a string. */
  predicate IsText(raw: Bytes)
    decreases |raw|
  {
    if raw == [] then true
    else if raw[0] == BACKSLASH then
      if |raw| < 2 then false
      else if raw[1] == LOWER_U then
        |raw| >= 6 && IsHex(raw[2]) && IsHex(raw[3]) && IsHex(raw[4]) && IsHex(raw[5]) && IsText(raw[6..])
      else raw[1] in {QUOTE, BACKSLASH, 0x2F, 0x62, 0x66, 0x6E, 0x72, 0x74} && IsText(raw[2..])
    else raw[0] >= 0x20 && raw[0] != QUOTE && IsText(raw[1..])
  }

  // Well-formed texts

  ghost predicate IsJson(v: Json) {
    match v
    case Scalar(text) => IsScalar(text)
    case Text(raw) => IsText(raw)
    case Array(gap, items) => IsWhitespace(gap) && AreItems(items)
    case Object(gap, members) => IsWhitespace(gap) && AreMembers(members)
  }

  ghost predicate AreItems(items: Items) {
    match items
    case NoItems => true
    case Item(before, value, after, rest) =>
      IsWhitespace(before) && IsJson(value) && IsWhitespace(after) && AreItems(rest)
  }

  ghost predicate AreMembers(members: Members) {
    match members
    case NoMembers => true
    case Member(before, key, afterKey, beforeValue, value, after, rest) =>
      && IsWhitespace(before) && IsText(key) && IsWhitespace(afterKey)
      && IsWhitespace(beforeValue) && IsJson(value) && IsWhitespace(after) && AreMembers(rest)
  }

  ghost predicate IsDocument(d: Document) {
    IsWhitespace(d.before) && IsJson(d.value) && IsWhitespace(d.after)
  }

  // Their bytes

  function Quoted(raw: Bytes): Bytes {
    [QUOTE] + raw + [QUOTE]
  }

  function Render(v: Json): Bytes {
    match v
    case Scalar(text) => text
    case Text(raw) => Quoted(raw)
    case Array(gap, items) => [OPEN_BRACKET] + (if items.NoItems? then gap else RenderItems(items)) + [CLOSE_BRACKET]
    case Object(gap, members) =>
      [OPEN_BRACE] + (if members.NoMembers? then gap else RenderMembers(members)) + [CLOSE_BRACE]
  }

  function RenderItems(items: Items): Bytes {
    match items
    case NoItems => []
    case Item(before, value, after, rest) =>
      before + (Render(value) + (after + (if rest.NoItems? then [] else [COMMA] + RenderItems(rest))))
  }

  function RenderMembers(members: Members): Bytes {
    match members
    case NoMembers => []
    case Member(before, key, afterKey, beforeValue, value, after, rest) =>
      before + (Quoted(key) + (afterKey + ([COLON] + (beforeValue + (Render(value) +
        (after + (if rest.NoMembers? then [] else [COMMA] + RenderMembers(rest))))))))
  }

  function RenderDocument(d: Document): Bytes {
    d.before + (Render(d.value) + d.after)
  }

  // What the limits are about

  /** How many containers are open at the deepest point. */
  function Depth(v: Json): nat {
    match v
    case Scalar(_) => 0
    case Text(_) => 0
    case Array(_, items) => 1 + ItemsDepth(items)
    case Object(_, members) => 1 + MembersDepth(members)
  }

  function ItemsDepth(items: Items): nat {
    match items
    case NoItems => 0
    case Item(_, value, _, rest) => Max(Depth(value), ItemsDepth(rest))
  }

  function MembersDepth(members: Members): nat {
    match members
    case NoMembers => 0
    case Member(_, _, _, _, value, _, rest) => Max(Depth(value), MembersDepth(rest))
  }

  /** The length of the longest object key anywhere, in raw bytes. */
  function LongestKey(v: Json): nat {
    match v
    case Scalar(_) => 0
    case Text(_) => 0
    case Array(_, items) => ItemsLongestKey(items)
    case Object(_, members) => MembersLongestKey(members)
  }

  function ItemsLongestKey(items: Items): nat {
    match items
    case NoItems => 0
    case Item(_, value, _, rest) => Max(LongestKey(value), ItemsLongestKey(rest))
  }

  function MembersLongestKey(members: Members): nat {
    match members
    case NoMembers => 0
    case Member(_, key, _, _, value, _, rest) => Max(Max(|key|, LongestKey(value)), MembersLongestKey(rest))
  }
}
