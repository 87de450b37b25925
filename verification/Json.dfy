// JSON values. Parsing and printing JSON text is not part of this model.
module Json {
  import opened Wrappers

  datatype Value =
    | Null
    | Bool(b: bool)
    | Int(i: int)
    | Float(r: real)
    | Str(s: string)
    | Arr(items: seq<Value>)
    | Obj(fields: map<string, Value>)
  {
    /** json::contains: false on anything but an object. */
    predicate Has(key: string) {
      Obj? && key in fields
    }

    function At(key: string): Value
      requires Has(key)
    {
      fields[key]
    }
  }

  const PARSE_ERROR := -32700
  const INVALID_REQUEST := -32600
  const METHOD_NOT_FOUND := -32601
  const INVALID_PARAMS := -32602
  const INTERNAL_ERROR := -32603

  const TWO_63: int := 0x8000_0000_0000_0000
  const TWO_64: int := 0x1_0000_0000_0000_0000

  predicate IsInt64(i: int) {
    -TWO_63 <= i < TWO_63
  }

  /** static_cast to std::int64_t, which wraps. */
  function ToInt64(i: int): (r: int)
    ensures IsInt64(r)
    ensures (r - i) % TWO_64 == 0
    ensures IsInt64(i) ==> r == i
  {
    (i + TWO_63) % TWO_64 - TWO_63
  }

  predicate IsInt32(i: int) {
    -0x8000_0000 <= i < 0x8000_0000
  }

  /** static_cast to int, which wraps. */
  function ToInt32(i: int): (r: int)
    ensures IsInt32(r)
    ensures (r - i) % 0x1_0000_0000 == 0
    ensures IsInt32(i) ==> r == i
  {
    (i + 0x8000_0000) % 0x1_0000_0000 - 0x8000_0000
  }

  /** get<int>: any number or boolean, cast. */
  function AsInt32(j: Value): Result<int> {
    match j
    case Int(i) => Ok(ToInt32(i))
    case Float(r) => Ok(ToInt32(if r < 0.0 then -((-r).Floor) else r.Floor))
    case Bool(b) => Ok(if b then 1 else 0)
    case _ => Err(Shape)
  }

  /** A required field: its absence is the library's parse error. */
  function Require(j: Value, key: string): Result<Value> {
    if j.Has(key) then Ok(j.At(key)) else Err(Coded(PARSE_ERROR))
  }

  function AsString(j: Value): Result<string> {
    if j.Str? then Ok(j.s) else Err(Shape)
  }

  function AsBool(j: Value): Result<bool> {
    if j.Bool? then Ok(j.b) else Err(Shape)
  }

  /** get<double>: any number, but not a boolean. */
  function AsReal(j: Value): Result<real> {
    match j
    case Int(i) => Ok(i as real)
    case Float(r) => Ok(r)
    case _ => Err(Shape)
  }

  /** get<std::int64_t>: any number, cast. */
  function AsInt64(j: Value): (r: Result<int>)
    ensures r.Ok? ==> IsInt64(r.value)
  {
    match j
    case Int(i) => Ok(ToInt64(i))
    case Float(r) => Ok(ToInt64(if r < 0.0 then -((-r).Floor) else r.Floor))
    case _ => Err(Shape)
  }

  /** A fractional number is cut toward zero, whatever its sign. */
  lemma CutTowardZero(r: real, n: int)
    requires if r < 0.0 then n as real - 1.0 < r <= n as real else n as real <= r < n as real + 1.0
    ensures IsInt64(n) ==> AsInt64(Float(r)) == Ok(n)
    ensures IsInt32(n) ==> AsInt32(Float(r)) == Ok(n)
  {
    if r < 0.0 {
      assert (-r).Floor == -n;
    } else {
      assert r.Floor == n;
    }
  }

  function RequireString(j: Value, key: string): Result<string> {
    var v :- Require(j, key);
    AsString(v)
  }

  /** An optional raw field: absent and null read the same. */
  function TakeJson(j: Value, key: string): Option<Value> {
    if !j.Has(key) || j.At(key).Null? then None else Some(j.At(key))
  }

  /** An optional typed field. */
  function Take<T>(j: Value, key: string, decode: Value -> Result<T>): Result<Option<T>> {
    if !j.Has(key) || j.At(key).Null? then Ok(None)
    else
      var v :- decode(j.At(key));
      Ok(Some(v))
  }
}
