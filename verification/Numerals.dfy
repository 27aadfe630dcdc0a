/**
 * The text JSON.stringify gives a finite number: Number::toString of section 6.1.6.1.20 of ECMA-262. A nonzero number
 * is represented by the decimal digits and the decimal point that section chooses for it, which determine it.
 */
module Numerals {

  type Unit = u: nat | u < 65536
  type Text = seq<Unit>

  const PLUS: Unit := 43
  const MINUS: Unit := 45
  const DOT: Unit := 46
  const ZERO: Unit := 48
  const LETTER_E: Unit := 101

  /** The value is 0.digits times ten to the power of point; zero and minus zero are one number. */
  datatype Decimal = Zero | Decimal(negative: bool, digits: Text, point: int)
  type Finite = number: Decimal | Normal(number) witness Zero

  predicate IsDigit(u: Unit) {
    ZERO <= u < ZERO + 10
  }

  predicate AllDigits(text: Text) {
    forall i :: 0 <= i < |text| ==> IsDigit(text[i])
  }

  /** No digit can be left out. */
  predicate Normal(number: Decimal) {
    number.Decimal? ==> Significant(number.digits)
  }

  predicate Significant(digits: Text) {
    digits != [] && AllDigits(digits) && digits[0] != ZERO && digits[|digits| - 1] != ZERO
  }

  function Zeros(n: nat): (zeros: Text)
    ensures |zeros| == n && forall i :: 0 <= i < n ==> zeros[i] == ZERO
  {
    seq(n, _ => ZERO)
  }

  function Digits(n: nat): (digits: Text)
    ensures |digits| > 0 && AllDigits(digits)
  {
    if n < 10 then [ZERO + n] else Digits(n / 10) + [ZERO + n % 10]
  }

  /** The four ways a number is written, by where its decimal point lies. */
  datatype Form = INTEGER | POINT | FRACTION | EXPONENT

  function FormOf(digits: Text, point: int): Form {
    if |digits| <= point <= 21 then INTEGER
    else if 0 < point <= 21 then POINT
    else if -6 < point <= 0 then FRACTION
    else EXPONENT
  }

  function Mantissa(digits: Text): Text
    requires digits != []
  {
    if |digits| == 1 then digits else [digits[0], DOT] + digits[1..]
  }

  function Exponent(e: int): Text {
    if e < 0 then [LETTER_E, MINUS] + Digits(-e) else [LETTER_E, PLUS] + Digits(e)
  }

  function Unsigned(digits: Text, point: int): Text
    requires Significant(digits)
  {
    match FormOf(digits, point)
    case INTEGER => digits + Zeros(point - |digits|)
    case POINT => digits[..point] + [DOT] + digits[point..]
    case FRACTION => [ZERO, DOT] + Zeros(-point) + digits
    case EXPONENT => Mantissa(digits) + Exponent(point - 1)
  }

  function Numeral(number: Finite): Text {
    if number.Zero? then [ZERO]
    else if number.negative then [MINUS] + Unsigned(number.digits, number.point)
    else Unsigned(number.digits, number.point)
  }

  // ----- what a numeral is made of -----------------------------------------------------------

  predicate NumberUnit(u: Unit) {
    IsDigit(u) || u == DOT || u == LETTER_E || u == PLUS || u == MINUS
  }

  predicate AllUnits(text: Text) {
    forall i :: 0 <= i < |text| ==> NumberUnit(text[i])
  }

  lemma ExponentUnits(e: int)
    ensures AllUnits(Exponent(e))
  {
  }

  lemma MantissaStarts(digits: Text)
    requires Significant(digits)
    ensures AllUnits(Mantissa(digits)) && |Mantissa(digits)| > 0 && IsDigit(Mantissa(digits)[0])
  {
  }

  lemma PlainUnits(digits: Text, point: int)
    requires Significant(digits) && !FormOf(digits, point).EXPONENT?
    ensures |Unsigned(digits, point)| > 0 && IsDigit(Unsigned(digits, point)[0]) && AllUnits(Unsigned(digits, point))
  {
  }

  lemma UnsignedUnits(digits: Text, point: int)
    requires Significant(digits)
    ensures |Unsigned(digits, point)| > 0 && IsDigit(Unsigned(digits, point)[0]) && AllUnits(Unsigned(digits, point))
  {
    hide Mantissa, Exponent;
    if FormOf(digits, point).EXPONENT? {
      MantissaStarts(digits);
      ExponentUnits(point - 1);
    } else {
      PlainUnits(digits, point);
    }
  }

  lemma NumeralUnits(number: Finite)
    ensures Numeral(number) != [] && AllUnits(Numeral(number))
    ensures IsDigit(Numeral(number)[0]) || Numeral(number)[0] == MINUS
    ensures Numeral(number)[0] == MINUS <==> number.Decimal? && number.negative
  {
    hide Unsigned;
    if number.Decimal? {
      UnsignedUnits(number.digits, number.point);
    }
  }

  /** Which signs a form shows: a point, an exponent, a leading zero. */
  lemma Shape(digits: Text, point: int)
    requires Significant(digits)
    ensures var text := Unsigned(digits, point);
            && (LETTER_E in text <==> FormOf(digits, point).EXPONENT?)
            && (FormOf(digits, point).INTEGER? ==> DOT !in text && text[0] != ZERO)
            && (FormOf(digits, point).POINT? ==> DOT in text && text[0] != ZERO)
            && (FormOf(digits, point).FRACTION? ==> DOT in text && text[0] == ZERO)
  {
    var text := Unsigned(digits, point);
    match FormOf(digits, point)
    case INTEGER =>
    case POINT => assert text[point] == DOT;
    case FRACTION => assert text[1] == DOT;
    case EXPONENT => assert text[|Mantissa(digits)|] == LETTER_E;
  }

  // ----- each form can be read back ----------------------------------------------------------

  lemma {:induction false} DigitsInjective(m: nat, n: nat)
    requires Digits(m) == Digits(n)
    ensures m == n
  {
    var a, b := Digits(m), Digits(n);
    assert m >= 10 ==> a[..|a| - 1] == Digits(m / 10) && a[|a| - 1] == ZERO + m % 10;
    assert n >= 10 ==> b[..|b| - 1] == Digits(n / 10) && b[|b| - 1] == ZERO + n % 10;
    assert |a| > 1 <==> m >= 10;
    assert |b| > 1 <==> n >= 10;
    if m >= 10 {
      DigitsInjective(m / 10, n / 10);
    } else {
      assert a[0] == ZERO + m && b[0] == ZERO + n;
    }
  }

  /** The last digit is no zero, so the zeros that follow can be told apart. */
  lemma IntegerUnique(a: Text, b: Text, m: nat, n: nat)
    requires Significant(a) && Significant(b) && a + Zeros(m) == b + Zeros(n)
    ensures a == b && m == n
  {
    var left, right := a + Zeros(m), b + Zeros(n);
    assert forall i :: |a| <= i < |left| ==> left[i] == ZERO;
    assert forall i :: |b| <= i < |right| ==> right[i] == ZERO;
    assert left[|a| - 1] == a[|a| - 1] && right[|b| - 1] == b[|b| - 1];
    assert a == left[..|a|] && b == right[..|b|];
  }

  lemma PointUnique(a: Text, b: Text, m: nat, n: nat)
    requires AllDigits(a) && AllDigits(b) && m <= |a| && n <= |b|
    requires a[..m] + [DOT] + a[m..] == b[..n] + [DOT] + b[n..]
    ensures a == b && m == n
  {
    var left, right := a[..m] + [DOT] + a[m..], b[..n] + [DOT] + b[n..];
    assert left[m] == DOT && right[n] == DOT;
    assert forall i :: 0 <= i < |left| && i != m ==> IsDigit(left[i]);
    assert forall i :: 0 <= i < |right| && i != n ==> IsDigit(right[i]);
    assert a == left[..m] + left[m + 1..] && b == right[..n] + right[n + 1..];
  }

  lemma FractionUnique(a: Text, b: Text, m: nat, n: nat)
    requires Significant(a) && Significant(b) && [ZERO, DOT] + Zeros(m) + a == [ZERO, DOT] + Zeros(n) + b
    ensures a == b && m == n
  {
    var left, right := [ZERO, DOT] + Zeros(m) + a, [ZERO, DOT] + Zeros(n) + b;
    assert left[2 + m] == a[0] && right[2 + n] == b[0];
    assert forall i :: 2 <= i < 2 + m ==> left[i] == ZERO;
    assert forall i :: 2 <= i < 2 + n ==> right[i] == ZERO;
    assert a == left[2 + m..] && b == right[2 + n..];
  }

  lemma MantissaUnits(digits: Text)
    requires Significant(digits)
    ensures LETTER_E !in Mantissa(digits)
    ensures |digits| > 1 ==>
              |Mantissa(digits)| == |digits| + 1 && digits == [Mantissa(digits)[0]] + Mantissa(digits)[2..]
  {
    if |digits| > 1 {
      assert digits == [digits[0]] + digits[1..];
      assert Mantissa(digits)[2..] == digits[1..];
    }
  }

  lemma MantissaInjective(a: Text, b: Text)
    requires Significant(a) && Significant(b) && Mantissa(a) == Mantissa(b)
    ensures a == b
  {
    MantissaUnits(a);
    MantissaUnits(b);
  }

  lemma ExponentUnique(a: Text, b: Text, m: int, n: int)
    requires LETTER_E !in a && LETTER_E !in b && a + Exponent(m) == b + Exponent(n)
    ensures a == b && m == n
  {
    var left, right := a + Exponent(m), b + Exponent(n);
    assert left[|a|] == LETTER_E && right[|b|] == LETTER_E;
    assert forall i :: 0 <= i < |a| ==> left[i] == a[i] != LETTER_E;
    assert forall i :: 0 <= i < |b| ==> right[i] == b[i] != LETTER_E;
    assert a == left[..|a|] && b == right[..|b|];
    var x, y := left[|a|..], right[|b|..];
    assert x == Exponent(m) && y == Exponent(n);
    assert x[1] == y[1] && x[2..] == y[2..];
    assert x[2..] == Digits(if m < 0 then -m else m) && y[2..] == Digits(if n < 0 then -n else n);
    DigitsInjective(if m < 0 then -m else m, if n < 0 then -n else n);
  }

  lemma UnsignedInjective(a: Text, b: Text, m: int, n: int)
    requires Significant(a) && Significant(b) && Unsigned(a, m) == Unsigned(b, n)
    ensures a == b && m == n
  {
    hide Mantissa, Exponent, Zeros, AllDigits;
    Shape(a, m);
    Shape(b, n);
    assert FormOf(a, m) == FormOf(b, n);
    match FormOf(a, m)
    case INTEGER => IntegerUnique(a, b, m - |a|, n - |b|);
    case POINT => PointUnique(a, b, m, n);
    case FRACTION => FractionUnique(a, b, -m, -n);
    case EXPONENT =>
      MantissaUnits(a);
      MantissaUnits(b);
      ExponentUnique(Mantissa(a), Mantissa(b), m - 1, n - 1);
      MantissaInjective(a, b);
  }

  lemma NumeralInjective(a: Finite, b: Finite)
    requires Numeral(a) == Numeral(b)
    ensures a == b
  {
    hide Unsigned;
    NumeralUnits(a);
    NumeralUnits(b);
    if a.Decimal? && b.Decimal? {
      assert a.negative ==>
               Numeral(a)[1..] == Unsigned(a.digits, a.point) && Numeral(b)[1..] == Unsigned(b.digits, b.point);
      UnsignedInjective(a.digits, b.digits, a.point, b.point);
    } else if a.Decimal? {
      NotZero(a);
    } else if b.Decimal? {
      NotZero(b);
    }
  }

  lemma NotZero(number: Finite)
    requires number.Decimal?
    ensures Numeral(number) != [ZERO]
  {
    UnsignedUnits(number.digits, number.point);
    Shape(number.digits, number.point);
  }
}
