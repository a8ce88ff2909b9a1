/** The few JavaScript value semantics the study app relies on: `undefined`,
    truthiness, template-literal rendering of scalars and array indexing. */
module Values {

  /** A value that may be `undefined`. */
  datatype Option<T> = None | Some(value: T)

  /** The JSON scalars the question files use for `ID` and `Answer`: a
      non-negative integer or a string. */
  datatype Scalar = Num(n: nat) | Text(s: string)

  /** What a template literal renders for `undefined`. */
  const Undefined: string := "undefined"

  predicate IsDigit(ch: char) {
    '0' <= ch <= '9'
  }

  function Digit(d: nat): (ch: char)
    requires d < 10
    ensures IsDigit(ch) && ch as int - '0' as int == d
  {
    ('0' as int + d) as char
  }

  function DigitValue(ch: char): (d: nat)
    requires IsDigit(ch)
    ensures d < 10 && Digit(d) == ch
  {
    ch as int - '0' as int
  }

  /** Decimal notation of `n`, as `${n}` renders a non-negative integer
      below 10^21 (from 10^21 on, `${n}` switches to exponent form). */
  function Decimal(n: nat): (r: string)
    ensures |r| >= 1
    ensures |r| == 1 <==> n < 10
    ensures forall i :: 0 <= i < |r| ==> IsDigit(r[i])
  {
    if n < 10 then [Digit(n)] else Decimal(n / 10) + [Digit(n % 10)]
  }

  /** The number a string of decimal digits denotes (the inverse of Decimal). */
  function DecimalValue(s: string): nat
    requires forall i :: 0 <= i < |s| ==> IsDigit(s[i])
  {
    if s == [] then 0
    else DecimalValue(s[..|s| - 1]) * 10 + DigitValue(s[|s| - 1])
  }

  lemma {:induction false} DecimalRoundTrip(n: nat)
    ensures DecimalValue(Decimal(n)) == n
  {
    if n >= 10 {
      var s := Decimal(n);
      assert s[..|s| - 1] == Decimal(n / 10);
      DecimalRoundTrip(n / 10);
    }
  }

  /** Distinct numbers render as distinct strings. */
  lemma DecimalInjective(m: nat, n: nat)
    ensures Decimal(m) == Decimal(n) <==> m == n
  {
    if Decimal(m) == Decimal(n) {
      DecimalRoundTrip(m);
      DecimalRoundTrip(n);
    }
  }

  /** No number renders as "undefined". */
  lemma DecimalIsNotUndefined(n: nat)
    ensures Decimal(n) != Undefined
  {
    var s := Decimal(n);
    assert IsDigit(s[0]);
    assert !IsDigit(Undefined[0]);
  }

  /** `${v}` for a scalar. */
  function Render(v: Scalar): string {
    match v
    case Num(n) => Decimal(n)
    case Text(s) => s
  }

  /** JavaScript truthiness of a scalar: `0` and `""` are falsy. */
  predicate Truthy(v: Scalar) {
    match v
    case Num(n) => n != 0
    case Text(s) => s != ""
  }

  /** `s[i]` on a JavaScript array: `undefined` outside `0 <= i < s.length`. */
  function Lookup<T>(s: seq<T>, i: int): (r: Option<T>)
    ensures r.Some? <==> 0 <= i < |s|
    ensures r.Some? ==> r.value == s[i]
  {
    if 0 <= i < |s| then Some(s[i]) else None
  }
}
