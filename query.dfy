/** utils.go: `encodeQuery`, which turns a struct into URL query values by
    reflection. Here the reflected value is given explicitly: a `Subject`
    (what `reflect.ValueOf` sees) whose struct fields are listed in
    declaration order with their `url` tag text and value. The query is the
    sequence of `url.Values.Add` calls, in order. */
module Query {

  import opened Optional
  import opened Text
  import opened Errors
  import opened Records

  /** One `url.Values.Add(key, value)`. */
  datatype Pair = Pair(key: string, value: string)

  /** A struct field's value, by its reflect.Kind. */
  datatype FieldValue =
    | StringValue(s: string)
      /** Int, Int8, Int16, Int32 and Int64 alike. */
    | IntValue(n: int)
    | BoolValue(b: bool)
      /** Float32 and Float64; `formatted` is the text
          `strconv.FormatFloat(x, 'f', -1, 64)` gives for `x`. */
    | FloatValue(x: real, formatted: string)
    | NilPointer
    | PointerValue
      /** Every kind the switch does not list (unsigned integers, slices,
          maps, structs, ...). */
    | OtherValue

  /** A struct field: the text of its `url` tag ("" when absent) and its value. */
  datatype Field = Field(tag: string, value: FieldValue)

  /** The argument of `encodeQuery`. */
  datatype Subject =
    | Nil
    | Struct(fields: seq<Field>)
      /** A pointer; `None` when it is nil. */
    | Pointer(target: Option<Subject>)
    | NonStruct

  /** The fields the loop walks: those of a struct, or of the struct one
      pointer refers to; none otherwise. */
  function WalkedFields(v: Subject): seq<Field>
  {
    match v
    case Struct(fs) => fs
    case Pointer(Some(Struct(fs))) => fs
    case _ => []
  }

  /** The text the kind switch leaves in `value`; "" means no pair. */
  function ValueText(v: FieldValue): string
  {
    match v
    case StringValue(s) => s
    case IntValue(n) => if n != 0 then IntToDecimal(n) else ""
    case BoolValue(b) => if b then "true" else "false"
    case FloatValue(x, formatted) => if x != 0.0 then formatted else ""
    case NilPointer => ""
    case PointerValue => ""
    case OtherValue => ""
  }

  predicate Tagged(f: Field)
  {
    f.tag != "" && f.tag != "-"
  }

  /** The pair one field contributes, if any. */
  function FieldPair(f: Field): Option<Pair>
  {
    if !Tagged(f) || f.value.NilPointer? || ValueText(f.value) == "" then None
    else Some(Pair(f.tag, ValueText(f.value)))
  }

  function PairList(p: Option<Pair>): seq<Pair>
  {
    if p.Some? then [p.value] else []
  }

  /** The pairs of a field list, field by field. */
  function EncodeFields(fs: seq<Field>): seq<Pair>
  {
    if fs == [] then []
    else EncodeFields(fs[..|fs| - 1]) + PairList(FieldPair(fs[|fs| - 1]))
  }

  /** `encodeQuery(v)`. It never reports an error: a nil or non-struct
      argument gives an empty query. */
  method EncodeQuery(v: Subject) returns (values: seq<Pair>, err: Option<Error>)
    ensures err == None
    ensures values == EncodeFields(WalkedFields(v))
  {
    values, err := [], None;
    if v.Nil? {
      return;
    }
    var val := v;
    if val.Pointer? {
      if val.target.None? {
        return;
      }
      val := val.target.value;
    }
    if !val.Struct? {
      return;
    }
    var fields := val.fields;
    for i := 0 to |fields|
      invariant values == EncodeFields(fields[..i])
    {
      assert fields[..i + 1][..i] == fields[..i];
      var field := fields[i];
      var tag := field.tag;
      if tag == "" || tag == "-" {
        continue;
      }
      if field.value.NilPointer? {
        continue;
      }
      var value := "";
      match field.value {
        case StringValue(s) =>
          if s != "" { value := s; }
        case IntValue(n) =>
          if n != 0 { value := IntToDecimal(n); }
        case BoolValue(b) =>
          value := if b then "true" else "false";
        case FloatValue(x, formatted) =>
          if x != 0.0 { value := formatted; }
        case _ =>
      }
      if value != "" {
        values := values + [Pair(tag, value)];
      }
    }
    assert fields[..|fields|] == fields;
  }

  /** The first value added under `key`, as `url.Values.Get` reads it back
      (`None` where Go returns ""). */
  function FirstValue(q: seq<Pair>, key: string): Option<string>
  {
    if q == [] then None
    else if q[0].key == key then Some(q[0].value)
    else FirstValue(q[1..], key)
  }

  /** No key is added twice. */
  predicate DistinctKeys(q: seq<Pair>)
  {
    forall i, j :: 0 <= i < j < |q| ==> q[i].key != q[j].key
  }

  /** With distinct keys, reading a key back gives exactly the value added
      under it. */
  lemma {:induction false} FirstValueDistinct(q: seq<Pair>, key: string, value: string)
    requires DistinctKeys(q)
    ensures FirstValue(q, key) == Some(value) <==> Pair(key, value) in q
  {
    if q != [] && q[0].key != key {
      assert DistinctKeys(q[1..]) by {
        forall i, j | 0 <= i < j < |q[1..]| ensures q[1..][i].key != q[1..][j].key {
          assert q[1..][i] == q[i + 1] && q[1..][j] == q[j + 1];
        }
      }
      FirstValueDistinct(q[1..], key, value);
      assert q == [q[0]] + q[1..];
    } else if q != [] {
      if Pair(key, value) in q {
        var i :| 0 <= i < |q| && q[i] == Pair(key, value);
        assert i == 0;
      }
    }
  }

  /** A key is read back iff some pair carries it. */
  lemma {:induction false} FirstValuePresent(q: seq<Pair>, key: string)
    ensures FirstValue(q, key).Some? <==> exists i :: 0 <= i < |q| && q[i].key == key
  {
    if q != [] && q[0].key != key {
      FirstValuePresent(q[1..], key);
      assert forall i :: 1 <= i < |q| ==> q[i] == q[1..][i - 1];
      if exists i :: 0 <= i < |q| && q[i].key == key {
        var i :| 0 <= i < |q| && q[i].key == key;
        assert q[1..][i - 1].key == key;
      }
    }
  }

  // ---------------------------------------------------------------------------
  // Properties of the encoding

  function TaggedCount(fs: seq<Field>): nat
  {
    if fs == [] then 0
    else TaggedCount(fs[..|fs| - 1]) + (if Tagged(fs[|fs| - 1]) then 1 else 0)
  }

  /** At most one pair per tagged field. */
  lemma {:induction false} EncodeFieldsBound(fs: seq<Field>)
    ensures |EncodeFields(fs)| <= TaggedCount(fs)
  {
    if fs != [] {
      EncodeFieldsBound(fs[..|fs| - 1]);
    }
  }

  /** Encoding works field by field: a longer field list only appends, so the
      pairs of earlier fields are never changed. */
  lemma {:induction false} EncodeFieldsAppend(fs: seq<Field>, gs: seq<Field>)
    ensures EncodeFields(fs + gs) == EncodeFields(fs) + EncodeFields(gs)
  {
    if gs == [] {
      assert fs + gs == fs;
    } else {
      var last := |gs| - 1;
      assert (fs + gs)[..|fs + gs| - 1] == fs + gs[..last];
      EncodeFieldsAppend(fs, gs[..last]);
    }
  }

  /** A pair is in the query iff some field contributes it. */
  lemma {:induction false} EncodeFieldsMembers(fs: seq<Field>, p: Pair)
    ensures p in EncodeFields(fs) <==> exists i :: 0 <= i < |fs| && FieldPair(fs[i]) == Some(p)
  {
    if fs != [] {
      var init := fs[..|fs| - 1];
      EncodeFieldsMembers(init, p);
      assert forall i :: 0 <= i < |init| ==> init[i] == fs[i];
      if p in EncodeFields(fs) && p !in EncodeFields(init) {
        assert FieldPair(fs[|fs| - 1]) == Some(p);
      }
    }
  }

  /** What each kind of field contributes, under its raw tag text. */
  lemma FieldPairKinds(tag: string)
    requires tag != "" && tag != "-"
    ensures forall s :: FieldPair(Field(tag, StringValue(s))) == if s == "" then None else Some(Pair(tag, s))
    ensures forall n :: n == 0 <==> FieldPair(Field(tag, IntValue(n))).None?
    ensures forall n :: n != 0 ==> FieldPair(Field(tag, IntValue(n))) == Some(Pair(tag, IntToDecimal(n)))
    ensures FieldPair(Field(tag, BoolValue(false))) == Some(Pair(tag, "false"))
    ensures FieldPair(Field(tag, BoolValue(true))) == Some(Pair(tag, "true"))
    ensures FieldPair(Field(tag, NilPointer)) == None
    ensures FieldPair(Field(tag, PointerValue)) == None
    ensures FieldPair(Field(tag, OtherValue)) == None
  {
  }

  /** A field without a usable tag contributes nothing. */
  lemma UntaggedFields(v: FieldValue)
    ensures FieldPair(Field("", v)) == None && FieldPair(Field("-", v)) == None
  {
  }

  /** The text emitted for an int field reads back as the field's value,
      negative values included. */
  lemma IntFieldRoundTrip(tag: string, n: int)
    requires tag != "" && tag != "-" && n != 0
    ensures FieldPair(Field(tag, IntValue(n))).Some?
    ensures ParseDecimal(FieldPair(Field(tag, IntValue(n))).value.value) == Some(n)
  {
    IntToDecimalRoundTrip(n);
  }

  // ---------------------------------------------------------------------------
  // ListTokensRequest, the one caller

  /** The fields of `ListTokensRequest` with their tags, as declared. */
  function ListTokensFields(r: ListTokensRequest): seq<Field>
  {
    [ Field("customer_id,omitempty", StringValue(r.customerId)),
      Field("limit,omitempty", IntValue(r.limit)),
      Field("offset,omitempty", IntValue(r.offset)) ]
  }

  /** The whole tag text is used as the key, ",omitempty" included. */
  lemma ListTokensLimitExample()
    ensures EncodeFields(ListTokensFields(ListTokensRequest("", 10, 0)))
      == [Pair("limit,omitempty", "10")]
  {
    assert NatToDecimal(10) == NatToDecimal(1) + [DigitChar(0)] == "10";
    var a := ListTokensFields(ListTokensRequest("", 10, 0));
    assert a[..3] == a && a[..3][..2] == a[..2] && a[..2][..1] == a[..1] && a[..1][..0] == [];
    assert EncodeFields(a[..1]) == [];
    assert EncodeFields(a[..2]) == [Pair("limit,omitempty", "10")];
  }

  /** A zero field is left out, a negative int is sent. */
  lemma ListTokensNegativeExample()
    ensures EncodeFields(ListTokensFields(ListTokensRequest("cus_1", 0, -5)))
      == [Pair("customer_id,omitempty", "cus_1"), Pair("offset,omitempty", "-5")]
  {
    assert IntToDecimal(-5) == "-" + NatToDecimal(5) == "-5";
    var b := ListTokensFields(ListTokensRequest("cus_1", 0, -5));
    assert b[..3] == b && b[..3][..2] == b[..2] && b[..2][..1] == b[..1] && b[..1][..0] == [];
    assert EncodeFields(b[..1]) == [Pair("customer_id,omitempty", "cus_1")];
    assert EncodeFields(b[..2]) == [Pair("customer_id,omitempty", "cus_1")];
  }

  /** A request with every field zero gives an empty query. */
  lemma ListTokensEmptyExample()
    ensures EncodeFields(ListTokensFields(ListTokensRequest("", 0, 0))) == []
  {
    var c := ListTokensFields(ListTokensRequest("", 0, 0));
    assert c[..3] == c && c[..3][..2] == c[..2] && c[..2][..1] == c[..1] && c[..1][..0] == [];
    assert EncodeFields(c[..1]) == [];
    assert EncodeFields(c[..2]) == [];
  }
}
