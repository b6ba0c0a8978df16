/** JSON values as the decoder sees them once the text has been parsed.

    Object members are a map from key to value, so one key carries one value;
    numbers keep the distinction the parser makes between integer literals and
    all other numbers, because integer-typed fields accept only the former. */
module Json {

  /** A parsed JSON number: `Int` is a literal that serde_json reads as a
      64-bit integer (no fraction or exponent, not `-0`, and within the i64
      or u64 range); every other number, `-0` and out-of-range integers
      included, is `Float`, carried as a real. */
  datatype Number = Int(i: int) | Float(r: real)

  datatype Json =
    | Null
    | Bool(b: bool)
    | Num(n: Number)
    | Str(s: string)
    | Array(items: seq<Json>)
    | Object(fields: map<string, Json>)
}
