/** Values as they arrive in a parsed request body, and the two pieces of
    JavaScript semantics the handlers depend on: truthiness (`!x`, `x || d`)
    and the numeric coercion behind the relational operators (`x < 1`). */
module JsValues {
  import opened Options

  /** A field of a request body. `Undefined` is a key that is absent;
      `Other` is a plain object or an array (one whose `toString` and
      `valueOf` are the inherited ones). Numbers are finite, as JSON gives them. */
  datatype JsValue = Undefined | Null | Bool(b: bool) | Num(x: real) | Str(s: string) | Other

  /** JavaScript truthiness: `false`, `0`, `""`, `null` and `undefined` are falsy. */
  predicate Truthy(v: JsValue)
  {
    match v
    case Undefined => false
    case Null => false
    case Bool(b) => b
    case Num(x) => x != 0.0
    case Str(s) => s != ""
    case Other => true
  }

  /** The expression `a || b`. */
  function Or(a: JsValue, b: JsValue): JsValue
  {
    if Truthy(a) then a else b
  }

  predicate IsDigit(c: char)
  {
    '0' <= c <= '9'
  }

  predicate IsBlank(c: char)
  {
    c == ' ' || c == '\t' || c == '\n' || c == '\r'
  }

  /** The value of a string of decimal digits. */
  function DigitsValue(s: string): (n: nat)
    requires forall i :: 0 <= i < |s| ==> IsDigit(s[i])
    decreases |s|
  {
    if s == [] then 0
    else
      assert IsDigit(s[|s| - 1]);
      DigitsValue(s[..|s| - 1]) * 10 + (s[|s| - 1] as int - '0' as int)
  }

  /** Numeric coercion (ToNumber) as `<` and `>` apply it to a value;
      `None` stands for NaN. */
  function ToNumber(v: JsValue): Option<real>
  {
    match v
    case Undefined => None
    case Null => Some(0.0)
    case Bool(b) => Some(if b then 1.0 else 0.0)
    case Num(x) => Some(x)
    case Str(s) =>
      if forall i :: 0 <= i < |s| ==> IsBlank(s[i]) then Some(0.0)
      else if forall i :: 0 <= i < |s| ==> IsDigit(s[i]) then Some(DigitsValue(s) as real)
      else None
    case Other => None
  }

  /** `v < k`: false whenever the coerced value is NaN. */
  predicate LessThan(v: JsValue, k: real)
  {
    match ToNumber(v)
    case None => false
    case Some(x) => x < k
  }

  /** `v > k`: false whenever the coerced value is NaN. */
  predicate GreaterThan(v: JsValue, k: real)
  {
    match ToNumber(v)
    case None => false
    case Some(x) => x > k
  }

  /** A default is only replaced by a truthy value, so `a || b` is truthy
      whenever the default `b` is, and keeps `a` exactly when `a` is truthy. */
  lemma OrKeepsTruthy(a: JsValue, b: JsValue)
    requires Truthy(b)
    ensures Truthy(Or(a, b))
    ensures Or(a, b) == a <==> Truthy(a) || a == b
  {
  }

  /** A digit string that parses as a number compares as that number. */
  lemma DigitStringCompares(s: string)
    requires s != [] && forall i :: 0 <= i < |s| ==> IsDigit(s[i])
    ensures ToNumber(Str(s)) == Some(DigitsValue(s) as real)
  {
    assert !IsBlank(s[0]);
  }
}
