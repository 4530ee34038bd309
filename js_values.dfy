/**
 * The few JavaScript number behaviours the components rely on: the falsy
 * test on an optional counter, `x || 0`, division that may divide by zero,
 * scaling by 100, `>=` against a bound, `Math.min`, and the way a template
 * literal prints an integer or `undefined`.
 *
 * Quotients are exact rationals: the rounding of IEEE doubles is not modelled.
 */
module JsValues {
  import opened Wrappers

  /** `x || 0` on an optional counter (`undefined` and 0 are both falsy). */
  function OrZero(x: Option<int>): int
  {
    match x
    case None => 0
    case Some(v) => v
  }

  /** JavaScript truthiness of an optional integer counter. */
  predicate Truthy(x: Option<int>)
  {
    x.Some? && x.value != 0
  }

  /** The value of a JavaScript number expression built by division. */
  datatype Quotient = Finite(value: real) | PosInfinity | NegInfinity | NaN

  /** `n / d` in JavaScript, for integer operands, without rounding. */
  function Divide(n: int, d: int): (q: Quotient)
    ensures d != 0 ==> q.Finite? && q.value * d as real == n as real
    ensures d == 0 ==> (q == NaN <==> n == 0)
    ensures d == 0 ==> (q == PosInfinity <==> n > 0)
    ensures d == 0 ==> (q == NegInfinity <==> n < 0)
  {
    if d != 0 then Finite(n as real / d as real)
    else if n > 0 then PosInfinity
    else if n < 0 then NegInfinity
    else NaN
  }

  /** `q * 100`: infinities and NaN are unchanged by a positive factor. */
  function Percent(q: Quotient): Quotient
  {
    match q
    case Finite(v) => Finite(v * 100.0)
    case _ => q
  }

  /** With a positive divisor, the percentage grows with the dividend. */
  lemma PercentMonotone(n1: int, n2: int, d: int)
    requires d > 0 && n1 <= n2
    ensures Percent(Divide(n1, d)).value <= Percent(Divide(n2, d)).value
  {
    var gap := (n2 - n1) as real / d as real;
    assert gap >= 0.0;
    assert n2 as real / d as real == n1 as real / d as real + gap;
  }

  /** With a positive divisor, the percentage reaches 100 exactly when the dividend reaches the divisor. */
  lemma PercentReaches100(n: int, d: int)
    requires d > 0
    ensures AtLeast(Percent(Divide(n, d)), 100.0) <==> n >= d
  {
    var q := n as real / d as real;
    assert q * d as real == n as real;
    if n >= d {
      assert q >= 1.0;
    } else {
      assert q < 1.0;
    }
  }

  /** `q >= bound` in JavaScript: false whenever `q` is NaN. */
  predicate AtLeast(q: Quotient, bound: real)
  {
    match q
    case Finite(v) => v >= bound
    case PosInfinity => true
    case NegInfinity => false
    case NaN => false
  }

  /**
   * `Math.min(q, bound)`: the smaller of the two, which is one of them;
   * NaN stays NaN, +Infinity gives the bound, -Infinity stays -Infinity.
   */
  function Min(q: Quotient, bound: real): (r: Quotient)
    ensures r != PosInfinity
    ensures r.Finite? ==> r.value <= bound
    ensures q.Finite? ==> r.Finite? && r.value <= q.value && (r.value == q.value || r.value == bound)
    ensures q == PosInfinity ==> r == Finite(bound)
    ensures q == NegInfinity <==> r == NegInfinity
    ensures q == NaN <==> r == NaN
  {
    match q
    case Finite(v) => Finite(if v <= bound then v else bound)
    case PosInfinity => Finite(bound)
    case NegInfinity => NegInfinity
    case NaN => NaN
  }

  function DigitChar(d: nat): (c: char)
    requires d < 10
    ensures '0' <= c <= '9'
  {
    "0123456789"[d]
  }

  function DigitValue(c: char): (d: nat)
    requires '0' <= c <= '9'
    ensures d < 10 && DigitChar(d) == c
  {
    (c - '0') as nat
  }

  /** The decimal digits of a natural number, no leading zeros. */
  function ShowNat(n: nat): (s: string)
    ensures |s| >= 1
    ensures forall i :: 0 <= i < |s| ==> '0' <= s[i] <= '9'
    ensures |s| > 1 ==> s[0] != '0'
    ensures n > 0 ==> s[0] != '0'
  {
    if n < 10 then [DigitChar(n)] else ShowNat(n / 10) + [DigitChar(n % 10)]
  }

  /** The value of a string of decimal digits. */
  function ParseNat(s: string): nat
    requires forall i :: 0 <= i < |s| ==> '0' <= s[i] <= '9'
  {
    if s == [] then 0 else ParseNat(s[..|s| - 1]) * 10 + DigitValue(s[|s| - 1])
  }

  lemma DigitRoundTrip(d: nat)
    requires d < 10
    ensures DigitValue(DigitChar(d)) == d
  {
  }

  lemma {:induction false} ParseShowNat(n: nat)
    ensures ParseNat(ShowNat(n)) == n
  {
    var s := ShowNat(n);
    if n < 10 {
      assert s[..|s| - 1] == [];
      DigitRoundTrip(n);
    } else {
      var q, r := n / 10, n % 10;
      assert n == q * 10 + r;
      assert s == ShowNat(q) + [DigitChar(r)];
      assert s[..|s| - 1] == ShowNat(q);
      DigitRoundTrip(r);
      ParseShowNat(q);
    }
  }

  /** How a template literal prints an integer-valued number. */
  function ShowInt(i: int): (s: string)
    ensures |s| >= 1
    ensures i < 0 <==> s[0] == '-'
    ensures forall k :: 0 < k < |s| ==> '0' <= s[k] <= '9'
    ensures i >= 0 ==> '0' <= s[0] <= '9' && ParseNat(s) == i
    ensures i < 0 ==> ParseNat(s[1..]) == -i
    ensures i >= 0 && |s| > 1 ==> s[0] != '0'
    ensures i < 0 ==> |s| >= 2 && s[1] != '0'
  {
    if i < 0 then
      ParseShowNat(-i);
      "-" + ShowNat(-i)
    else
      ParseShowNat(i);
      ShowNat(i)
  }

  /**
   * How a template literal prints an optional number: `undefined` when
   * absent, which no printed number can be mistaken for; a present value
   * reads back from its text.
   */
  function ShowOptional(x: Option<int>): (s: string)
    ensures x.None? <==> s == "undefined"
    ensures x.Some? && x.value >= 0 && |s| > 1 ==> s[0] != '0'
    ensures x.Some? && x.value < 0 ==> |s| >= 2 && s[1] != '0'
    ensures x.Some? && x.value >= 0 ==> (forall k :: 0 <= k < |s| ==> '0' <= s[k] <= '9') && ParseNat(s) == x.value
    ensures x.Some? && x.value < 0 ==>
              |s| >= 2 && s[0] == '-' && (forall k :: 0 <= k < |s| - 1 ==> '0' <= s[1..][k] <= '9')
              && ParseNat(s[1..]) == -x.value
  {
    match x
    case None => "undefined"
    case Some(v) => ShowInt(v)
  }

  /** The three pieces of a progress text `${counter}/${threshold}${unit}` can be sliced back out. */
  lemma FractionParts(counter: string, threshold: string, unit: string)
    ensures var t := counter + "/" + threshold + unit;
            |t| == |counter| + 1 + |threshold| + |unit|
            && t[..|counter| + 1] == counter + "/"
            && t[|counter| + 1..|t| - |unit|] == threshold
            && t[|t| - |unit|..] == unit
  {
    var t := counter + "/" + threshold + unit;
    assert t[..|counter| + 1] == counter + "/";
    assert t[|counter| + 1..|t| - |unit|] == threshold;
    assert t[|t| - |unit|..] == unit;
  }
}
