/**
 * The JavaScript primitives the insights engine leans on: numbers with NaN,
 * `parseFloat`, `x.toFixed(2)` read back with `parseFloat`, truthiness, the
 * whitespace set shared by `trim`, `parseFloat` and the regular-expression
 * class `\s`, and decimal printing of integers.
 */
module JsValues {
  import opened Wrappers

  /** A JavaScript number: NaN or a finite value. Infinities are not modelled. */
  datatype Num = NaN | Fin(val: real)

  /** JavaScript `+` on numbers: NaN absorbs. */
  function Add(a: Num, b: Num): Num {
    if a.Fin? && b.Fin? then Fin(a.val + b.val) else NaN
  }

  /** JavaScript `a * k` for a finite factor `k`. */
  function Scale(a: Num, k: real): Num {
    if a.Fin? then Fin(a.val * k) else NaN
  }

  /** JavaScript `a / n` for a positive count `n`. */
  function DivBy(a: Num, n: nat): Num
    requires n > 0
  {
    if a.Fin? then Fin(a.val / n as real) else NaN
  }

  /** A number is truthy unless it is 0 or NaN. */
  predicate Truthy(n: Num) {
    n.Fin? && n.val != 0.0
  }

  /** `x || 0` where `x` may be undefined: undefined, 0 and NaN all become 0. */
  function OrZero(x: Option<Num>): (r: Num)
    ensures r.Fin?
    ensures x.Some? && x.value.Fin? ==> r == x.value
    ensures x.None? ==> r == Fin(0.0)
    ensures x.Some? && x.value.NaN? ==> r == Fin(0.0)
  {
    if x.Some? && Truthy(x.value) then x.value else Fin(0.0)
  }

  // ---------------------------------------------------------------------------
  // Whitespace and digits

  /** WhiteSpace and LineTerminator of ECMAScript: what `trim`, `parseFloat` and `\s` skip. */
  predicate IsSpace(c: char) {
    || c == '\t' || c == '\n' || c == '\U{B}' || c == '\U{C}' || c == '\r' || c == ' '
    || c == '\U{A0}' || c == '\U{1680}' || ('\U{2000}' <= c <= '\U{200A}')
    || c == '\U{2028}' || c == '\U{2029}' || c == '\U{202F}' || c == '\U{205F}'
    || c == '\U{3000}' || c == '\U{FEFF}'
  }

  predicate IsDigit(c: char) {
    '0' <= c <= '9'
  }

  predicate AllDigits(s: string) {
    forall i :: 0 <= i < |s| ==> IsDigit(s[i])
  }

  function DigitValue(c: char): (d: nat)
    requires IsDigit(c)
    ensures d < 10
  {
    c as int - '0' as int
  }

  function DigitChar(d: nat): (c: char)
    requires d < 10
    ensures IsDigit(c) && DigitValue(c) == d
  {
    ('0' as int + d) as char
  }

  /** The value of a string of decimal digits, most significant first. */
  function DigitsValue(ds: string): nat
    requires AllDigits(ds)
  {
    if |ds| == 0 then 0 else DigitsValue(ds[..|ds| - 1]) * 10 + DigitValue(ds[|ds| - 1])
  }

  function Pow10(n: nat): (r: nat)
    ensures r >= 1
  {
    if n == 0 then 1 else 10 * Pow10(n - 1)
  }

  /** Length of the longest prefix of `s` made of decimal digits. */
  function DigitRun(s: string): (n: nat)
    ensures n <= |s|
    ensures AllDigits(s[..n])
    ensures n < |s| ==> !IsDigit(s[n])
  {
    if |s| == 0 || !IsDigit(s[0]) then 0
    else
      var n := 1 + DigitRun(s[1..]);
      assert s[..n] == [s[0]] + s[1..][..n - 1];
      n
  }

  /** `s` without its leading whitespace. */
  function SkipSpaces(s: string): (t: string)
    ensures |t| <= |s| && t == s[|s| - |t|..]
    ensures |t| > 0 ==> !IsSpace(t[0])
    ensures forall i :: 0 <= i < |s| - |t| ==> IsSpace(s[i])
  {
    if |s| > 0 && IsSpace(s[0]) then SkipSpaces(s[1..]) else s
  }

  // ---------------------------------------------------------------------------
  // parseFloat

  /**
   * The exponent part of a decimal literal at the start of `s`: `e` or `E`, an
   * optional sign, then at least one digit. Without such a part the exponent is 0.
   */
  function ExponentPart(s: string): int {
    if |s| == 0 || (s[0] != 'e' && s[0] != 'E') then 0
    else
      var t := s[1..];
      var neg := |t| > 0 && t[0] == '-';
      var u := if |t| > 0 && (t[0] == '-' || t[0] == '+') then t[1..] else t;
      var n := DigitRun(u);
      if n == 0 then 0
      else if neg then -(DigitsValue(u[..n]) as int)
      else DigitsValue(u[..n]) as int
  }

  /**
   * `parseFloat(s)`: skip leading whitespace, read the longest prefix that is a
   * decimal literal (sign, digits, optional fraction, optional exponent) and
   * return its value; NaN when there is no digit before or after the point.
   */
  function ParseFloat(s: string): Num {
    var t := SkipSpaces(s);
    if |t| > 0 && t[0] == '-' then Negate(UnsignedLiteral(t[1..]))
    else if |t| > 0 && t[0] == '+' then UnsignedLiteral(t[1..])
    else UnsignedLiteral(t)
  }

  function Negate(n: Num): Num {
    if n.Fin? then Fin(-n.val) else NaN
  }

  /** The value of the unsigned decimal literal at the start of `u`, NaN without a digit. */
  function UnsignedLiteral(u: string): Num {
    var i := DigitRun(u);
    var hasPoint := i < |u| && u[i] == '.';
    var v := if hasPoint then u[i + 1..] else [];
    var f := DigitRun(v);
    if i == 0 && f == 0 then NaN
    else
      var e := ExponentPart(if hasPoint then v[f..] else u[i..]);
      Fin(Decimal(DigitsValue(u[..i]) as real, e) + Decimal(DigitsValue(v[..f]) as real, e - f))
  }

  /** `m * 10^e` for any integer exponent, by repeated multiplication or division by ten. */
  function Decimal(m: real, e: int): real
    decreases if e >= 0 then e else -e
  {
    if e == 0 then m
    else if e > 0 then Decimal(m * 10.0, e - 1)
    else Decimal(m / 10.0, e + 1)
  }

  // ---------------------------------------------------------------------------
  // toFixed(2)

  /**
   * `parseFloat(x.toFixed(2))` on the exact value: the nearest multiple of 0.01,
   * halves away from zero.
   */
  function Round2(x: real): (r: real)
    ensures x - 0.005 <= r <= x + 0.005
    ensures x >= 0.0 ==> r >= 0.0
    ensures x <= 0.0 ==> r <= 0.0
    ensures (r * 100.0).Floor as real == r * 100.0
    ensures x >= 0.0 ==> x - 0.005 < r
    ensures x < 0.0 ==> r < x + 0.005
  {
    if x >= 0.0 then RoundHalfUp2(x)
    else
      var u := RoundHalfUp2(-x);
      NegateCents(u);
      -u
  }

  /** The negation of a whole number of cents is one. */
  lemma NegateCents(u: real)
    requires (u * 100.0).Floor as real == u * 100.0
    ensures ((-u) * 100.0).Floor as real == (-u) * 100.0
  {
    var k := (u * 100.0).Floor;
    assert (-u) * 100.0 == (-k) as real;
  }

  /** The whole number of cents nearest to `x`, a half cent rounded up. */
  function RoundHalfUp2(x: real): (r: real)
    requires x >= 0.0
    ensures x - 0.005 < r <= x + 0.005
    ensures r >= 0.0
    ensures (r * 100.0).Floor as real == r * 100.0
  {
    var k := (x * 100.0 + 0.5).Floor;
    CentsOf(k);
    k as real / 100.0
  }

  lemma CentsOf(k: int)
    ensures (k as real / 100.0) * 100.0 == k as real
  {
  }

  /** Rounding never carries a value past a whole-number bound it respects. */
  lemma Round2Within(x: real, bound: nat)
    requires 0.0 <= x <= bound as real
    ensures 0.0 <= Round2(x) <= bound as real
  {
    var k := (x * 100.0 + 0.5).Floor;
    assert k as real <= x * 100.0 + 0.5 <= bound as real * 100.0 + 0.5;
    assert k <= bound * 100;
  }

  /** `parseFloat(n.toFixed(2))` on a JavaScript number. */
  function Fixed2(n: Num): (r: Num)
    ensures r.Fin? <==> n.Fin?
    ensures n.Fin? ==> n.val - 0.005 <= r.val <= n.val + 0.005
  {
    if n.Fin? then Fin(Round2(n.val)) else NaN
  }

  // ---------------------------------------------------------------------------
  // Decimal printing: String(n) and padStart

  /** `String(n)` for a natural number. */
  function NatToString(n: nat): (s: string)
    ensures |s| > 0 && AllDigits(s)
    ensures DigitsValue(s) == n
  {
    if n < 10 then [DigitChar(n)]
    else
      var s := NatToString(n / 10) + [DigitChar(n % 10)];
      assert s[..|s| - 1] == NatToString(n / 10);
      s
  }

  /** `String(n)` for an integer. */
  function IntToString(n: int): (s: string)
    ensures |s| > 0
    ensures n >= 0 <==> IsDigit(s[0])
  {
    if n >= 0 then NatToString(n) else "-" + NatToString(-n)
  }

  /** `String(n).padStart(2, '0')`. */
  function PadStart2(s: string): (r: string)
    ensures |r| == if |s| >= 2 then |s| else 2
    ensures r[|r| - |s|..] == s
  {
    if |s| >= 2 then s else seq(2 - |s|, _ => '0') + s
  }

  /** Reading back what `String(n)` printed gives `n`. */
  lemma {:induction false} ParseFloatNatToString(n: nat)
    ensures ParseFloat(NatToString(n)) == Fin(n as real)
  {
    ParseFloatOfDigits(NatToString(n));
  }

  lemma ParseFloatOfDigits(s: string)
    requires |s| > 0 && AllDigits(s)
    ensures ParseFloat(s) == Fin(DigitsValue(s) as real)
  {
    assert IsDigit(s[0]);
    assert SkipSpaces(s) == s;
    UnsignedLiteralOfDigits(s);
  }

  /** A non-empty run of digits reads as its decimal value. */
  lemma {:induction false} UnsignedLiteralOfDigits(s: string)
    requires |s| > 0 && AllDigits(s)
    ensures UnsignedLiteral(s) == Fin(DigitsValue(s) as real)
  {
    DigitRunAll(s);
    assert s[..|s|] == s;
    assert s[|s|..] == [];
    assert DigitRun([]) == 0;
    assert ExponentPart([]) == 0;
  }

  lemma {:induction false} DigitRunAll(s: string)
    requires AllDigits(s)
    ensures DigitRun(s) == |s|
  {
    if |s| > 0 {
      DigitRunAll(s[1..]);
    }
  }
}
