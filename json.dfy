/** The JSON-like value both translators emit, and the float64 they read
    numbers into. */
module Json {
  import opened Results

  /** A Go float64, kept opaque: the model carries the decimal text it was
      parsed from and does no arithmetic on it. */
  datatype Float64 = Float64(decimal: string)

  predicate IsDigit(c: char) {
    '0' <= c <= '9'
  }

  function CountDots(s: string): nat {
    if s == [] then 0 else (if s[0] == '.' then 1 else 0) + CountDots(s[1..])
  }

  /** The decimal spellings `strconv.ParseFloat` accepts that either lexer
      can produce: digits and at most one '.', with at least one digit. */
  predicate IsDecimalText(s: string) {
    && (forall i :: 0 <= i < |s| ==> IsDigit(s[i]) || s[i] == '.')
    && (exists i :: 0 <= i < |s| && IsDigit(s[i]))
    && CountDots(s) <= 1
  }

  /** `strconv.ParseFloat(s, 64)`: succeeds exactly on decimal text, and the
      float it yields is the one that text denotes. */
  function ParseFloat(s: string): (r: Option<Float64>)
    ensures r.Some? <==> IsDecimalText(s)
    ensures r.Some? ==> r.value.decimal == s
  {
    if IsDecimalText(s) then Some(Float64(s)) else None
  }

  /** `any` as produced by the translators and handed to encoding/json. */
  datatype Value =
    | Null
    | Bool(b: bool)
    | Num(n: Float64)
    | Str(s: string)
    | Arr(items: seq<Value>)
    | Obj(fields: map<string, Value>)

  /** A one-entry object `{key: value}`. */
  function Single(key: string, value: Value): (r: Value)
    ensures r.Obj? && r.fields.Keys == {key} && r.fields[key] == value
  {
    Obj(map[key := value])
  }
}
