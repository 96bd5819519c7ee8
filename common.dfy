/** Small shared vocabulary: optional values, Python's `min`/`max`, Python
    truthiness of a nullable Decimal column, and what an HTML form field can
    hold by the time a view reads it. */
module Common {

  datatype Option<T> = None | Some(value: T)

  /** Seconds in a day; timestamps are whole seconds. */
  const Day: int := 86400

  /** Python `min(a, b)`: the first argument unless the second is smaller. */
  function Min(a: real, b: real): (m: real)
    ensures m <= a && m <= b && (m == a || m == b)
  {
    if b < a then b else a
  }

  /** Python `max(a, b)` on integers. */
  function Max(a: int, b: int): (m: int)
    ensures m >= a && m >= b && (m == a || m == b)
  {
    if b > a then b else a
  }

  /** `if x:` on a nullable Decimal: None and zero are false, everything else
      (negative values included) is true. */
  predicate Truthy(x: Option<real>)
  {
    x.Some? && x.value != 0.0
  }

  /** A POSTed form field as `request.POST.get(...)` returns it.
      Absent: the key is missing (None). Blank: the empty string.
      Malformed: a non-empty string that `Decimal` refuses.
      Given(v): a string that `Decimal` reads as the finite number v. */
  datatype FormValue = Absent | Blank | Malformed | Given(value: real)

  /** The outcome of `Decimal(field)`. */
  datatype Parsed = Number(value: real) | RaisedTypeError | RaisedInvalidOperation

  /** `Decimal(None)` raises TypeError; `Decimal("")` and `Decimal("abc")`
      raise decimal.InvalidOperation, an ArithmeticError. */
  function ParseDecimal(v: FormValue): (p: Parsed)
    ensures p.RaisedTypeError? <==> v.Absent?
    ensures p.Number? <==> v.Given?
    ensures v.Given? ==> p == Number(v.value)
  {
    match v
    case Absent => RaisedTypeError
    case Blank => RaisedInvalidOperation
    case Malformed => RaisedInvalidOperation
    case Given(x) => Number(x)
  }

  /** `if field:` on the raw form string: None and "" are false. */
  predicate FieldPresent(v: FormValue)
  {
    !v.Absent? && !v.Blank?
  }
}
