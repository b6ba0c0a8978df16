/** The field-level rules of the derived decoders and encoders: how one JSON
    value becomes a string, a boolean, a float or a fixed-width integer, how a
    sequence is decoded element by element, and the three kinds of struct field
    (required, `Option`, `#[serde(default)]`). */
module Serde {
  import opened Json

  newtype uint8 = x: int | 0 <= x < 0x100
  newtype int32 = x: int | -0x8000_0000 <= x < 0x8000_0000
  newtype uint32 = x: int | 0 <= x < 0x1_0000_0000
  newtype uint64 = x: int | 0 <= x < 0x1_0000_0000_0000_0000

  datatype Option<T> = None | Some(value: T)

  /** Why a value did not decode. */
  datatype DecodeError =
    | InvalidType(expected: string)
    | InvalidValue(expected: string)
    | MissingField(field: string)
    | UnknownVariant(name: string)
    | NoVariantMatched

  datatype Result<T> = Ok(value: T) | Err(error: DecodeError) {
    predicate IsFailure() { Err? }

    function PropagateFailure<U>(): Result<U>
      requires Err?
    {
      Err(error)
    }

    function Extract(): T
      requires Ok?
    {
      value
    }
  }

  // ---------------------------------------------------------------------------
  // Which JSON values each primitive field type accepts

  predicate IsString(j: Json) { j.Str? }

  predicate IsBool(j: Json) { j.Bool? }

  /** An `f64` field accepts every JSON number, integer literals included. */
  predicate IsF64(j: Json) { j.Num? }

  /** Integer fields accept integer literals within the type's range only. */
  predicate IsIntIn(j: Json, lo: int, hi: int) { j.Num? && j.n.Int? && lo <= j.n.i < hi }

  predicate IsU8(j: Json) { IsIntIn(j, 0, 0x100) }

  predicate IsI32(j: Json) { IsIntIn(j, -0x8000_0000, 0x8000_0000) }

  predicate IsU32(j: Json) { IsIntIn(j, 0, 0x1_0000_0000) }

  predicate IsU64(j: Json) { IsIntIn(j, 0, 0x1_0000_0000_0000_0000) }

  /** A `Vec<T>` field accepts a JSON array whose every element `T` accepts. */
  function ArrayOf(elem: Json -> bool): Json -> bool {
    (j: Json) => j.Array? && forall i :: 0 <= i < |j.items| ==> elem(j.items[i])
  }

  // ---------------------------------------------------------------------------
  // Which objects a struct field kind accepts

  /** A plain field: the key must be present with an acceptable value. */
  predicate HasRequired(m: map<string, Json>, key: string, ok: Json -> bool) {
    key in m && ok(m[key])
  }

  /** An `Option` field: absent, `null`, or an acceptable value. */
  predicate HasOptional(m: map<string, Json>, key: string, ok: Json -> bool) {
    key !in m || m[key].Null? || ok(m[key])
  }

  /** A `#[serde(default)]` field: absent, or an acceptable value. */
  predicate HasDefaulted(m: map<string, Json>, key: string, ok: Json -> bool) {
    key !in m || ok(m[key])
  }

  // ---------------------------------------------------------------------------
  // Which values a decoded field carries

  /** The key is missing or holds `null`, which an `Option` field reads as
      `None`. */
  predicate Absent(m: map<string, Json>, key: string) { key !in m || m[key].Null? }

  predicate StrAt(m: map<string, Json>, key: string, s: string) { key in m && m[key] == Str(s) }

  predicate BoolAt(m: map<string, Json>, key: string, b: bool) { key in m && m[key] == Bool(b) }

  /** The key holds a number that denotes `x`, whether written as an integer
      or as a fraction. */
  predicate F64At(m: map<string, Json>, key: string, x: real) {
    key in m && m[key].Num? && NumberValue(m[key].n) == x
  }

  /** The key holds the integer literal `x`. */
  predicate IntAt(m: map<string, Json>, key: string, x: int) { key in m && m[key] == Num(Int(x)) }

  predicate OptStrAt(m: map<string, Json>, key: string, o: Option<string>) {
    if o.Some? then StrAt(m, key, o.value) else Absent(m, key)
  }

  predicate OptF64At(m: map<string, Json>, key: string, o: Option<real>) {
    if o.Some? then F64At(m, key, o.value) else Absent(m, key)
  }

  predicate OptI32At(m: map<string, Json>, key: string, o: Option<int32>) {
    if o.Some? then IntAt(m, key, o.value as int) else Absent(m, key)
  }

  /** The key holds an array whose elements decode, in order, to `xs`. */
  predicate SeqAt<T(==)>(m: map<string, Json>, key: string, xs: seq<T>, dec: Json -> Result<T>) {
    && key in m && m[key].Array? && |m[key].items| == |xs|
    && forall i :: 0 <= i < |xs| ==> dec(m[key].items[i]) == Ok(xs[i])
  }

  /** The key holds an array whose elements are, in order, the encodings of
      `xs`. */
  predicate EncodedSeqAt<T>(m: map<string, Json>, key: string, xs: seq<T>, enc: T -> Json) {
    && key in m && m[key].Array? && |m[key].items| == |xs|
    && forall i :: 0 <= i < |xs| ==> m[key].items[i] == enc(xs[i])
  }

  // ---------------------------------------------------------------------------
  // Primitive decoders

  function AsObject(j: Json): (r: Result<map<string, Json>>)
    ensures r.Ok? <==> j.Object?
    ensures r.Ok? ==> Object(r.value) == j
  {
    if j.Object? then Ok(j.fields) else Err(InvalidType("struct"))
  }

  function AsString(j: Json): (r: Result<string>)
    ensures r.Ok? <==> IsString(j)
    ensures r.Ok? ==> Str(r.value) == j
  {
    if j.Str? then Ok(j.s) else Err(InvalidType("a string"))
  }

  function AsBool(j: Json): (r: Result<bool>)
    ensures r.Ok? <==> IsBool(j)
    ensures r.Ok? ==> Bool(r.value) == j
  {
    if j.Bool? then Ok(j.b) else Err(InvalidType("a boolean"))
  }

  /** The real a number denotes: an integer literal converts to a float. */
  function NumberValue(n: Number): real {
    match n
    case Int(i) => i as real
    case Float(r) => r
  }

  function AsF64(j: Json): (r: Result<real>)
    ensures r.Ok? <==> IsF64(j)
    ensures r.Ok? ==> r.value == NumberValue(j.n)
  {
    if j.Num? then Ok(NumberValue(j.n)) else Err(InvalidType("f64"))
  }

  /** An integer literal out of range is an invalid value; any other kind of
      value (a float included) is an invalid type. */
  function AsU8(j: Json): (r: Result<uint8>)
    ensures r.Ok? <==> IsU8(j)
    ensures r.Ok? ==> j == Num(Int(r.value as int))
  {
    if !(j.Num? && j.n.Int?) then Err(InvalidType("u8"))
    else if 0 <= j.n.i < 0x100 then Ok(j.n.i as uint8)
    else Err(InvalidValue("u8"))
  }

  function AsI32(j: Json): (r: Result<int32>)
    ensures r.Ok? <==> IsI32(j)
    ensures r.Ok? ==> j == Num(Int(r.value as int))
  {
    if !(j.Num? && j.n.Int?) then Err(InvalidType("i32"))
    else if -0x8000_0000 <= j.n.i < 0x8000_0000 then Ok(j.n.i as int32)
    else Err(InvalidValue("i32"))
  }

  function AsU32(j: Json): (r: Result<uint32>)
    ensures r.Ok? <==> IsU32(j)
    ensures r.Ok? ==> j == Num(Int(r.value as int))
  {
    if !(j.Num? && j.n.Int?) then Err(InvalidType("u32"))
    else if 0 <= j.n.i < 0x1_0000_0000 then Ok(j.n.i as uint32)
    else Err(InvalidValue("u32"))
  }

  function AsU64(j: Json): (r: Result<uint64>)
    ensures r.Ok? <==> IsU64(j)
    ensures r.Ok? ==> j == Num(Int(r.value as int))
  {
    if !(j.Num? && j.n.Int?) then Err(InvalidType("u64"))
    else if 0 <= j.n.i < 0x1_0000_0000_0000_0000 then Ok(j.n.i as uint64)
    else Err(InvalidValue("u64"))
  }

  /** Decodes the elements of an array in order; the first element that fails
      makes the whole sequence fail. */
  function SeqOf<T>(items: seq<Json>, elem: Json -> Result<T>): (r: Result<seq<T>>)
    ensures r.Ok? <==> forall i :: 0 <= i < |items| ==> elem(items[i]).Ok?
    ensures r.Ok? ==> |r.value| == |items| && forall i :: 0 <= i < |items| ==> elem(items[i]) == Ok(r.value[i])
  {
    if items == [] then Ok([])
    else
      var head :- elem(items[0]);
      var tail :- SeqOf(items[1..], elem);
      assert forall i :: 1 <= i < |items| ==> items[i] == items[1..][i - 1];
      Ok([head] + tail)
  }

  function AsSeq<T>(j: Json, elem: Json -> Result<T>): (r: Result<seq<T>>)
    ensures r.Ok? <==> j.Array? && forall i :: 0 <= i < |j.items| ==> elem(j.items[i]).Ok?
    ensures r.Ok? ==> |r.value| == |j.items| && forall i :: 0 <= i < |j.items| ==> elem(j.items[i]) == Ok(r.value[i])
  {
    if j.Array? then SeqOf(j.items, elem) else Err(InvalidType("a sequence"))
  }

  function AsStringSeq(j: Json): Result<seq<string>> { AsSeq(j, AsString) }

  function AsI32Seq(j: Json): Result<seq<int32>> { AsSeq(j, AsI32) }

  function AsU8Seq(j: Json): Result<seq<uint8>> { AsSeq(j, AsU8) }

  // ---------------------------------------------------------------------------
  // Field decoders, one per field kind

  /** A plain field: a missing key is reported by name, a present value is
      decoded by the field's type. */
  function RequiredField<T>(m: map<string, Json>, key: string, dec: Json -> Result<T>): (r: Result<T>)
    ensures key !in m ==> r == Err(MissingField(key))
    ensures key in m ==> r == dec(m[key])
  {
    if key in m then dec(m[key]) else Err(MissingField(key))
  }

  /** An `Option` field: a missing key and an explicit `null` both give
      `None`; any other value must decode, and gives `Some` of it. */
  function OptionalField<T>(m: map<string, Json>, key: string, dec: Json -> Result<T>): (r: Result<Option<T>>)
    ensures Absent(m, key) ==> r == Ok(None)
    ensures !Absent(m, key) ==> (r.Ok? <==> dec(m[key]).Ok?)
    ensures !Absent(m, key) && r.Ok? ==> r.value == Some(dec(m[key]).value)
  {
    if key !in m || m[key].Null? then Ok(None)
    else
      var v :- dec(m[key]);
      Ok(Some(v))
  }

  /** A `#[serde(default)]` field: only a missing key gives the default; a
      present value, `null` included, must decode. */
  function DefaultedField<T>(m: map<string, Json>, key: string, dec: Json -> Result<T>, default: T): (r: Result<T>)
    ensures key !in m ==> r == Ok(default)
    ensures key in m ==> r == dec(m[key])
  {
    if key in m then dec(m[key]) else Ok(default)
  }

  // ---------------------------------------------------------------------------
  // Encoders: what the derived serialiser writes

  function EncodeF64(x: real): Json { Num(Float(x)) }

  function EncodeInt(x: int): Json { Num(Int(x)) }

  /** `None` is written as `null`; the key is never skipped. */
  function EncodeOption<T>(o: Option<T>, enc: T -> Json): Json {
    match o
    case None => Null
    case Some(x) => enc(x)
  }

  function EncodeSeq<T>(xs: seq<T>, enc: T -> Json): (j: Json)
    ensures j.Array? && |j.items| == |xs|
    ensures forall i :: 0 <= i < |xs| ==> j.items[i] == enc(xs[i])
  {
    Array(seq(|xs|, i requires 0 <= i < |xs| => enc(xs[i])))
  }

  // ---------------------------------------------------------------------------
  // Round trips of the field kinds

  /** Decoding an encoded sequence gives it back when every element does. */
  lemma SeqRoundTrip<T>(xs: seq<T>, enc: T -> Json, dec: Json -> Result<T>)
    requires forall i :: 0 <= i < |xs| ==> dec(enc(xs[i])) == Ok(xs[i])
    ensures AsSeq(EncodeSeq(xs, enc), dec) == Ok(xs)
  {
    var r := AsSeq(EncodeSeq(xs, enc), dec);
    assert r.Ok?;
    assert r.value == xs;
  }

  /** An `Option` field written by the encoder reads back as the same option,
      provided a present value is never written as `null`. */
  lemma OptionalRoundTrip<T>(m: map<string, Json>, key: string, o: Option<T>, enc: T -> Json, dec: Json -> Result<T>)
    requires key in m && m[key] == EncodeOption(o, enc)
    requires o.Some? ==> enc(o.value) != Null && dec(enc(o.value)) == Ok(o.value)
    ensures OptionalField(m, key, dec) == Ok(o)
  {
  }
}
