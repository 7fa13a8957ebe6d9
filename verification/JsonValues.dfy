/** Request and response documents as trees, the form in which struson and serde_json hand them to
    the proxy. Strings are opaque, and so are numbers that are not `u64` values except for how
    serde_json spells them. */
module JsonValues {
  import opened Prelude

  /** The text of a number, and whether struson passes it on: it refuses large exponents. */
  datatype Spelling = Spelling(text: string, passes: bool)

  /** `OtherNumber` carries its text as it came, as serde_json writes it after reading it, and as it
      writes that text after reading it again; None where it refuses to read. `1e2` becomes `100.0`,
      `1e400` is refused, and reading need not be exact enough for the second text to stay. */
  datatype Value =
    | Null
    | Bool(b: bool)
    | Unsigned(n: u64)
    | OtherNumber(token: Spelling, written: Option<Spelling>, rewritten: Option<Spelling>)
    | Str(s: string)
    | Arr(items: seq<Value>)
    | Obj(fields: seq<Field>)

  datatype Field = Field(name: string, value: Value)

  /** `Value::get` on an object with repeated names: the last one wins. */
  function Lookup(fields: seq<Field>, name: string): Option<Value> {
    if fields == [] then None
    else if fields[|fields| - 1].name == name then Some(fields[|fields| - 1].value)
    else Lookup(fields[..|fields| - 1], name)
  }

  function Get(v: Value, name: string): Option<Value> {
    if v.Obj? then Lookup(v.fields, name) else None
  }

  function AsU64(v: Value): Option<u64> {
    if v.Unsigned? then Some(v.n) else None
  }

  function GetU64(v: Value, name: string): Option<u64> {
    match Get(v, name)
    case None => None
    case Some(field) => AsU64(field)
  }

  lemma {:induction false} LookupAt(fields: seq<Field>, k: nat)
    requires k < |fields| && forall j :: k < j < |fields| ==> fields[j].name != fields[k].name
    ensures Lookup(fields, fields[k].name) == Some(fields[k].value)
    decreases |fields|
  {
    if k < |fields| - 1 {
      LookupAt(fields[..|fields| - 1], k);
    }
  }

  lemma {:induction false} LookupNone(fields: seq<Field>, name: string)
    requires forall j :: 0 <= j < |fields| ==> fields[j].name != name
    ensures Lookup(fields, name) == None
    decreases |fields|
  {
    if fields != [] {
      LookupNone(fields[..|fields| - 1], name);
    }
  }

  // serde_json's maps: sorted by name, without repetitions

  predicate Before(a: string, b: string)
    decreases |a|
  {
    if b == [] then false
    else if a == [] then true
    else a[0] < b[0] || (a[0] == b[0] && Before(a[1..], b[1..]))
  }

  lemma {:induction false} BeforeIsTotal(a: string, b: string)
    ensures a != b ==> Before(a, b) || Before(b, a)
    ensures !(Before(a, b) && Before(b, a)) && !Before(a, a)
    decreases |a|
  {
    if a != [] && b != [] {
      BeforeIsTotal(a[1..], b[1..]);
      assert a == [a[0]] + a[1..] && b == [b[0]] + b[1..];
    }
    if a != [] {
      BeforeIsTotal(a[1..], a[1..]);
    }
  }

  lemma {:induction false} BeforeIsTransitive(a: string, b: string, c: string)
    requires Before(a, b) && Before(b, c)
    ensures Before(a, c)
    decreases |a|
  {
    if a != [] && a[0] == b[0] && b[0] == c[0] {
      BeforeIsTransitive(a[1..], b[1..], c[1..]);
    }
  }

  predicate Sorted(fields: seq<Field>) {
    forall i, j :: 0 <= i < j < |fields| ==> Before(fields[i].name, fields[j].name)
  }

  function Inserted(fields: seq<Field>, name: string, value: Value): seq<Field>
    decreases |fields|
  {
    if fields == [] then [Field(name, value)]
    else
      var last := fields[|fields| - 1];
      if last.name == name then fields[..|fields| - 1] + [Field(name, value)]
      else if Before(last.name, name) then fields + [Field(name, value)]
      else Inserted(fields[..|fields| - 1], name, value) + [last]
  }

  /** What parsing into a map and writing it out again makes of a value. */
  function Canonical(v: Value): Value {
    match v
    case OtherNumber(_, written, rewritten) =>
      if written.Some? then OtherNumber(written.value, rewritten, rewritten) else v
    case Arr(items) => Arr(CanonicalItems(items))
    case Obj(fields) => Obj(CanonicalFields(fields))
    case _ => v
  }

  function CanonicalItems(items: seq<Value>): seq<Value> {
    if items == [] then []
    else CanonicalItems(items[..|items| - 1]) + [Canonical(items[|items| - 1])]
  }

  function CanonicalFields(fields: seq<Field>): seq<Field> {
    if fields == [] then []
    else
      var last := fields[|fields| - 1];
      Inserted(CanonicalFields(fields[..|fields| - 1]), last.name, Canonical(last.value))
  }

  lemma {:induction false} InsertedIsSorted(fields: seq<Field>, name: string, value: Value)
    requires Sorted(fields)
    ensures Sorted(Inserted(fields, name, value))
    ensures forall f :: f in Inserted(fields, name, value) ==> f in fields || f == Field(name, value)
    decreases |fields|
  {
    if fields != [] {
      var n := |fields| - 1;
      var last := fields[n];
      BeforeIsTotal(last.name, name);
      if last.name != name {
        if Before(last.name, name) {
          forall i | 0 <= i < n ensures Before(fields[i].name, name) {
            BeforeIsTransitive(fields[i].name, last.name, name);
          }
        } else {
          InsertedIsSorted(fields[..n], name, value);
          var inner := Inserted(fields[..n], name, value);
          forall i | 0 <= i < |inner| ensures Before(inner[i].name, last.name) {
            assert inner[i] in inner;
          }
        }
      }
    }
  }

  lemma {:induction false} LookupInserted(fields: seq<Field>, name: string, value: Value, other: string)
    requires Sorted(fields)
    ensures Lookup(Inserted(fields, name, value), other) == if other == name then Some(value) else Lookup(fields, other)
    decreases |fields|
  {
    if fields != [] {
      var n := |fields| - 1;
      var last := fields[n];
      var result := Inserted(fields, name, value);
      BeforeIsTotal(last.name, name);
      if last.name == name {
        assert result[..n] == fields[..n];
      } else if Before(last.name, name) {
        assert result[..n + 1] == fields;
      } else {
        LookupInserted(fields[..n], name, value, other);
        var inner := Inserted(fields[..n], name, value);
        assert result[..|result| - 1] == inner;
        if other == last.name {
          assert fields == fields[..n] + [last];
        }
      }
    } else {
      assert [Field(name, value)][..0] == [];
    }
  }

  /** Canonical fields are sorted, and looking a name up in them finds the canonical form of what
      the name meant before: the map is the same. */
  lemma {:induction false} CanonicalFieldsKeepMap(fields: seq<Field>, name: string)
    ensures Sorted(CanonicalFields(fields))
    ensures Lookup(CanonicalFields(fields), name) ==
            match Lookup(fields, name) case None => None case Some(v) => Some(Canonical(v))
    decreases |fields|
  {
    if fields != [] {
      var last := fields[|fields| - 1];
      var init := fields[..|fields| - 1];
      CanonicalFieldsKeepMap(init, name);
      InsertedIsSorted(CanonicalFields(init), last.name, Canonical(last.value));
      LookupInserted(CanonicalFields(init), last.name, Canonical(last.value), name);
    }
  }

  predicate IsCanonical(v: Value) {
    Canonical(v) == v
  }

  lemma {:induction false} ItemsAreCanonical(items: seq<Value>)
    ensures |CanonicalItems(items)| == |items|
    ensures forall i :: 0 <= i < |items| ==> CanonicalItems(items)[i] == Canonical(items[i])
    decreases |items|
  {
    if items != [] {
      ItemsAreCanonical(items[..|items| - 1]);
    }
  }

  /** Every canonical field is the canonical form of one that was given. */
  predicate ComesFrom(f: Field, fields: seq<Field>) {
    exists i :: 0 <= i < |fields| && f == Field(fields[i].name, Canonical(fields[i].value))
  }

  lemma {:induction false} FieldsAreCanonical(fields: seq<Field>)
    ensures Sorted(CanonicalFields(fields))
    ensures forall f :: f in CanonicalFields(fields) ==> ComesFrom(f, fields)
    decreases |fields|
  {
    CanonicalFieldsKeepMap(fields, "");
    if fields != [] {
      var n := |fields| - 1;
      var init, last := CanonicalFields(fields[..n]), fields[n];
      FieldsAreCanonical(fields[..n]);
      InsertedIsSorted(init, last.name, Canonical(last.value));
      forall f | f in CanonicalFields(fields) ensures ComesFrom(f, fields) {
        if f in init {
          var i :| 0 <= i < n && f == Field(fields[..n][i].name, Canonical(fields[..n][i].value));
          assert fields[i] == fields[..n][i];
        } else {
          assert f == Field(fields[n].name, Canonical(fields[n].value));
        }
      }
    }
  }

  lemma {:induction false} SortedFieldsStay(fields: seq<Field>)
    requires Sorted(fields)
    ensures |CanonicalFields(fields)| == |fields|
    ensures forall i :: 0 <= i < |fields| ==>
            CanonicalFields(fields)[i] == Field(fields[i].name, Canonical(fields[i].value))
    decreases |fields|
  {
    if fields != [] {
      var n := |fields| - 1;
      var init := CanonicalFields(fields[..n]);
      SortedFieldsStay(fields[..n]);
      if n > 0 {
        assert init[n - 1].name == fields[n - 1].name;
      }
      InsertedAtEnd(init, fields[n].name, Canonical(fields[n].value));
      hide Inserted, Before;
    }
  }

  lemma InsertedAtEnd(fields: seq<Field>, name: string, value: Value)
    requires fields != [] ==> Before(fields[|fields| - 1].name, name)
    ensures Inserted(fields, name, value) == fields + [Field(name, value)]
  {
    BeforeIsTotal(name, name);
  }

  // What the parsers make of numbers

  /** serde_json can read the value. */
  predicate IsReadable(v: Value) {
    match v
    case OtherNumber(_, written, _) => written.Some?
    case Arr(items) => forall i :: 0 <= i < |items| ==> IsReadable(items[i])
    case Obj(fields) => forall i :: 0 <= i < |fields| ==> IsReadable(fields[i].value)
    case _ => true
  }

  /** struson passes it on. */
  predicate IsPassedOn(v: Value) {
    match v
    case OtherNumber(token, _, _) => token.passes
    case Arr(items) => forall i :: 0 <= i < |items| ==> IsPassedOn(items[i])
    case Obj(fields) => forall i :: 0 <= i < |fields| ==> IsPassedOn(fields[i].value)
    case _ => true
  }

  /** What serde_json wrote once it will write again. */
  predicate IsStable(v: Value) {
    match v
    case OtherNumber(_, written, rewritten) => rewritten == written
    case Arr(items) => forall i :: 0 <= i < |items| ==> IsStable(items[i])
    case Obj(fields) => forall i :: 0 <= i < |fields| ==> IsStable(fields[i].value)
    case _ => true
  }

  /** Every number is spelled as serde_json would write it. */
  predicate HasFinalNumbers(v: Value) {
    match v
    case OtherNumber(token, written, rewritten) => written == rewritten == Some(token)
    case Arr(items) => forall i :: 0 <= i < |items| ==> HasFinalNumbers(items[i])
    case Obj(fields) => forall i :: 0 <= i < |fields| ==> HasFinalNumbers(fields[i].value)
    case _ => true
  }

  /** Objects at every depth are in serde_json's order. */
  predicate IsSorted(v: Value) {
    match v
    case Arr(items) => forall i :: 0 <= i < |items| ==> IsSorted(items[i])
    case Obj(fields) => Sorted(fields) && forall i :: 0 <= i < |fields| ==> IsSorted(fields[i].value)
    case _ => true
  }

  lemma {:induction false} CanonicalIsSorted(v: Value)
    ensures IsSorted(Canonical(v))
    decreases v
  {
    match v
    case Arr(items) =>
      ItemsAreCanonical(items);
      forall i | 0 <= i < |items| ensures IsSorted(CanonicalItems(items)[i]) {
        CanonicalIsSorted(items[i]);
      }
    case Obj(fields) =>
      FieldsAreCanonical(fields);
      var c := CanonicalFields(fields);
      forall i | 0 <= i < |c| ensures IsSorted(c[i].value) {
        assert ComesFrom(c[i], fields);
        var k :| 0 <= k < |fields| && c[i] == Field(fields[k].name, Canonical(fields[k].value));
        CanonicalIsSorted(fields[k].value);
      }
    case _ =>
  }

  /** A sorted document that can be read is left alone exactly when its numbers are spelled as
      serde_json would. */
  lemma {:induction false} LeftAlone(v: Value)
    requires IsSorted(v) && IsReadable(v)
    ensures IsCanonical(v) <==> HasFinalNumbers(v)
    decreases v
  {
    match v
    case Arr(items) =>
      ItemsAreCanonical(items);
      forall i | 0 <= i < |items| ensures IsCanonical(items[i]) <==> HasFinalNumbers(items[i]) {
        LeftAlone(items[i]);
      }
      ItemsDecide(items);
    case Obj(fields) =>
      SortedFieldsStay(fields);
      forall i | 0 <= i < |fields| ensures IsCanonical(fields[i].value) <==> HasFinalNumbers(fields[i].value) {
        LeftAlone(fields[i].value);
      }
      FieldsDecide(fields);
    case _ =>
  }

  lemma ItemsDecide(items: seq<Value>)
    ensures IsCanonical(Arr(items)) <==> forall i :: 0 <= i < |items| ==> IsCanonical(items[i])
  {
    ItemsAreCanonical(items);
    if IsCanonical(Arr(items)) {
      assert CanonicalItems(items) == items;
      forall i | 0 <= i < |items| ensures IsCanonical(items[i]) {
        assert CanonicalItems(items)[i] == items[i];
      }
    } else {
      assert CanonicalItems(items) != items;
    }
  }

  lemma FieldsDecide(fields: seq<Field>)
    requires Sorted(fields)
    ensures IsCanonical(Obj(fields)) <==> forall i :: 0 <= i < |fields| ==> IsCanonical(fields[i].value)
  {
    SortedFieldsStay(fields);
    if IsCanonical(Obj(fields)) {
      assert CanonicalFields(fields) == fields;
      forall i | 0 <= i < |fields| ensures IsCanonical(fields[i].value) {
        assert CanonicalFields(fields)[i] == fields[i];
      }
    } else {
      assert CanonicalFields(fields) != fields;
    }
  }

  /** What was read can be read again after writing, and its numbers are final, if they are stable. */
  lemma {:induction false} CanonicalIsReadable(v: Value)
    requires IsReadable(v) && IsStable(v)
    ensures IsReadable(Canonical(v)) && HasFinalNumbers(Canonical(v))
    decreases v
  {
    match v
    case Arr(items) =>
      ItemsAreCanonical(items);
      var c := CanonicalItems(items);
      forall i | 0 <= i < |c| ensures IsReadable(c[i]) && HasFinalNumbers(c[i]) {
        CanonicalIsReadable(items[i]);
      }
    case Obj(fields) =>
      FieldsAreCanonical(fields);
      var c := CanonicalFields(fields);
      forall i | 0 <= i < |c| ensures IsReadable(c[i].value) && HasFinalNumbers(c[i].value) {
        assert ComesFrom(c[i], fields);
        var k :| 0 <= k < |fields| && c[i] == Field(fields[k].name, Canonical(fields[k].value));
        CanonicalIsReadable(fields[k].value);
      }
    case _ =>
  }

  /** Reading and writing stable values twice is doing so once. */
  lemma CanonicalIsFinal(v: Value)
    requires IsReadable(v) && IsStable(v)
    ensures IsCanonical(Canonical(v))
  {
    CanonicalIsReadable(v);
    CanonicalIsSorted(v);
    LeftAlone(Canonical(v));
  }

  // Sizes as written compactly; `quoted` is the written length of a string with its quotes

  function WrittenSize(v: Value, quoted: string -> nat): nat {
    match v
    case Null => 4
    case Bool(b) => if b then 4 else 5
    case Unsigned(n) => |Decimal(n)|
    case OtherNumber(token, _, _) => |token.text|
    case Str(s) => quoted(s)
    case Arr(items) => 2 + ItemsSize(items, quoted)
    case Obj(fields) => 2 + FieldsSize(fields, quoted)
  }

  function ItemsSize(items: seq<Value>, quoted: string -> nat): nat {
    if items == [] then 0
    else
      ItemsSize(items[..|items| - 1], quoted) + (if |items| > 1 then 1 else 0) +
      WrittenSize(items[|items| - 1], quoted)
  }

  function FieldsSize(fields: seq<Field>, quoted: string -> nat): nat {
    if fields == [] then 0
    else
      var last := fields[|fields| - 1];
      FieldsSize(fields[..|fields| - 1], quoted) + (if |fields| > 1 then 1 else 0) + quoted(last.name) + 1 +
      WrittenSize(last.value, quoted)
  }

  function TenTo(n: nat): nat {
    if n == 0 then 1 else 10 * TenTo(n - 1)
  }

  lemma {:induction false} DecimalLength(n: nat, digits: nat)
    requires n < TenTo(digits) && digits > 0
    ensures |Decimal(n)| <= digits
  {
    if n >= 10 {
      DecimalLength(n / 10, digits - 1);
    }
  }

  lemma U64IsShort(n: u64)
    ensures |Decimal(n)| <= 20
  {
    assert TenTo(20) == 10000000000 * TenTo(10);
    DecimalLength(n, 20);
  }
}
