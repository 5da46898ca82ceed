/** The few Python values and builtins the task manager's server code relies on:
    optional values, dates and datetimes, dynamically typed arguments, `isinstance(v, int)`,
    `str(n)` and `int(s)` on decimal integers, and truthiness. */
module Python {

  /** `Optional[T]`: `None` or a value. */
  datatype Option<T> = None | Some(value: T)

  /** A `date`, as the number of its day. The model never computes with it. */
  datatype Date = Date(day: int)

  /** A `datetime`: its calendar date and its time of day (microseconds since
      midnight). The model never computes with either part. */
  datatype Datetime = Datetime(date: Date, timeOfDay: int)

  /** A Python object, as far as the model needs to tell objects apart. */
  datatype Value =
    | IntV(i: int)
    | BoolV(b: bool)
    | StrV(s: string)
    | DatetimeV(dt: Datetime)
    | DateV(d: Date)  // a `date` that is not a `datetime`; it never equals one
    | NoneV
    | OtherV  // any other object: a dict, a list, an unrelated class instance

  /** `isinstance(v, int)`; `bool` is a subclass of `int` in Python. */
  predicate IsInt(v: Value)
  {
    v.IntV? || v.BoolV?
  }

  /** The integer an `int` (or `bool`) object stands for. */
  function AsInt(v: Value): int
    requires IsInt(v)
  {
    if v.IntV? then v.i else if v.b then 1 else 0
  }

  /** `bool(v)`: zero, the empty string and `None` are falsy; objects are truthy. */
  predicate Truthy(v: Value)
  {
    match v
    case IntV(i) => i != 0
    case BoolV(b) => b
    case StrV(s) => s != ""
    case DatetimeV(_) => true
    case DateV(_) => true
    case NoneV => false
    case OtherV => true
  }

  /** An `Optional[int]` as the Python object it is. */
  function OptionalInt(o: Option<int>): Value
  {
    if o.Some? then IntV(o.value) else NoneV
  }

  /** An `Optional[str]` as the Python object it is. */
  function OptionalStr(o: Option<string>): Value
  {
    if o.Some? then StrV(o.value) else NoneV
  }

  predicate IsDigit(c: char)
  {
    '0' <= c <= '9'
  }

  predicate AllDigits(s: string)
  {
    forall i :: 0 <= i < |s| ==> IsDigit(s[i])
  }

  function DigitChar(d: int): (c: char)
    requires 0 <= d < 10
    ensures IsDigit(c) && c as int - '0' as int == d
  {
    (d + '0' as int) as char
  }

  /** The decimal digits of `n`, most significant first, without leading zeros. */
  function NatToDecimal(n: nat): (s: string)
    ensures |s| >= 1 && AllDigits(s)
    ensures s[0] == '0' ==> n == 0 && |s| == 1
    decreases n
  {
    if n < 10 then [DigitChar(n)] else NatToDecimal(n / 10) + [DigitChar(n % 10)]
  }

  /** `str(n)` for an `int`. */
  function IntToDecimal(n: int): string
  {
    if n < 0 then "-" + NatToDecimal(-n) else NatToDecimal(n)
  }

  /** The number a string of decimal digits denotes. */
  function DigitsValue(s: string): nat
    requires AllDigits(s)
  {
    if |s| == 0 then 0
    else DigitsValue(s[..|s| - 1]) * 10 + (s[|s| - 1] as int - '0' as int)
  }

  /** `int(s)` on a string: an optional sign followed by one or more decimal digits.
      `None` stands for the `ValueError` Python raises on any other string. */
  function ParseInt(s: string): Option<int>
  {
    if |s| >= 2 && (s[0] == '-' || s[0] == '+') && AllDigits(s[1..]) then
      var magnitude: int := DigitsValue(s[1..]);
      Some(if s[0] == '-' then -magnitude else magnitude)
    else if |s| >= 1 && AllDigits(s) then
      Some(DigitsValue(s))
    else
      None
  }

  /** `str(v)` for an object that passed `isinstance(v, int)`. */
  function IntStr(v: Value): string
    requires IsInt(v)
  {
    if v.IntV? then IntToDecimal(v.i) else if v.b then "True" else "False"
  }

  lemma {:induction false} DigitsRoundTrip(n: nat)
    ensures DigitsValue(NatToDecimal(n)) == n
  {
    if n >= 10 {
      var s := NatToDecimal(n);
      assert s[..|s| - 1] == NatToDecimal(n / 10);
      DigitsRoundTrip(n / 10);
    }
  }

  /** `int(str(n)) == n`: the decimal string of an integer parses back to it. */
  lemma ParseIntRoundTrip(n: int)
    ensures ParseInt(IntToDecimal(n)) == Some(n)
  {
    if n < 0 {
      var s := IntToDecimal(n);
      assert s[1..] == NatToDecimal(-n);
      DigitsRoundTrip(-n);
    } else {
      DigitsRoundTrip(n);
    }
  }
}
