/**
 * The phone-number input formatter of the check-in form: drop every
 * character that is not an ASCII digit, then lay the first ten digits out
 * as "(XXX) XXX-XXXX", as far as the typed digits reach.
 */
module PhoneFormat {

  /** What the regular expression class `\d` matches (no `u` flag: ASCII only). */
  predicate IsDigit(c: char)
  {
    '0' <= c <= '9'
  }

  predicate AllDigits(s: string)
  {
    forall i :: 0 <= i < |s| ==> IsDigit(s[i])
  }

  /** `value.replace(/[^\d]/g, '')`: the digits of `s`, in their order. */
  function DigitsOnly(s: string): (r: string)
    ensures |r| <= |s|
    ensures AllDigits(r)
    ensures AllDigits(s) ==> r == s
  {
    if s == [] then []
    else (if IsDigit(s[0]) then [s[0]] else []) + DigitsOnly(s[1..])
  }

  /** Stripping keeps every digit as often as it occurs and drops every other character. */
  lemma {:induction false} DigitsOnlyCounts(s: string, c: char)
    ensures multiset(DigitsOnly(s))[c] == if IsDigit(c) then multiset(s)[c] else 0
  {
    if s != [] {
      assert s == [s[0]] + s[1..];
      DigitsOnlyCounts(s[1..], c);
    }
  }

  function Min(a: int, b: int): int
  {
    if a <= b then a else b
  }

  /** The largest number of digits the formatter keeps. */
  const MaxDigits := 10

  /** The input field's `maxLength`. */
  const MaxLength := 14

  /** The formatter: `formatPhoneNumber`. */
  function FormatPhoneNumber(value: string): (r: string)
    ensures |r| <= MaxLength
  {
    Layout(DigitsOnly(value))
  }

  /** The layout step of the formatter, applied to the digit string `d`. */
  function Layout(d: string): (r: string)
    ensures |r| <= MaxLength
  {
    if |d| < 4 then d
    else if |d| < 7 then "(" + d[..3] + ") " + d[3..]
    else "(" + d[..3] + ") " + d[3..6] + "-" + d[6..Min(|d|, MaxDigits)]
  }

  /*
   * An independent description of the layout: a mask whose 'X'
   * positions take the digits one by one; the output stops right after
   * the last digit placed, so separators are only shown once a digit
   * follows them.
   */

  const Mask := "(XXX) XXX-XXXX"

  function FillMask(mask: string, digits: string): (r: string)
    decreases |mask|
  {
    if digits == [] || mask == [] then []
    else if mask[0] == 'X' then [digits[0]] + FillMask(mask[1..], digits[1..])
    else [mask[0]] + FillMask(mask[1..], digits)
  }

  lemma {:induction false} DigitsOnlyConcat(a: string, b: string)
    ensures DigitsOnly(a + b) == DigitsOnly(a) + DigitsOnly(b)
  {
    if a == [] {
      assert a + b == b;
    } else {
      assert (a + b)[0] == a[0];
      assert (a + b)[1..] == a[1..] + b;
      DigitsOnlyConcat(a[1..], b);
    }
  }

  /** Filtering twice is filtering once. */
  lemma DigitsOnlyIdempotent(s: string)
    ensures DigitsOnly(DigitsOnly(s)) == DigitsOnly(s)
  {
  }

  /** The characters that are not digits play no part in the result. */
  lemma NonDigitsIrrelevant(s: string)
    ensures FormatPhoneNumber(s) == FormatPhoneNumber(DigitsOnly(s))
  {
    DigitsOnlyIdempotent(s);
  }

  /** Separators of the layout contribute no digits. */
  lemma SeparatorsHaveNoDigits()
    ensures DigitsOnly("(") == [] && DigitsOnly(") ") == [] && DigitsOnly("-") == []
  {
    assert DigitsOnly(") ") == DigitsOnly(" ");
  }

  /** Digits in between separators without digits: only the digits remain. */
  lemma DigitsOfMiddleLayout(p: string, a: string, q: string, b: string)
    requires DigitsOnly(p) == [] && DigitsOnly(q) == [] && AllDigits(a) && AllDigits(b)
    ensures DigitsOnly(p + a + q + b) == a + b
  {
    DigitsOnlyConcat(p, a);
    assert DigitsOnly(p + a) == a;
    DigitsOnlyConcat(p + a, q);
    assert DigitsOnly(p + a + q) == a;
    DigitsOnlyConcat(p + a + q, b);
  }

  lemma DigitsOfFullLayout(p: string, a: string, q: string, b: string, r: string, c: string)
    requires DigitsOnly(p) == [] && DigitsOnly(q) == [] && DigitsOnly(r) == []
    requires AllDigits(a) && AllDigits(b) && AllDigits(c)
    ensures DigitsOnly(p + a + q + b + r + c) == a + b + c
  {
    DigitsOfMiddleLayout(p, a, q, b);
    DigitsOnlyConcat(p + a + q + b, r);
    assert DigitsOnly(p + a + q + b + r) == a + b;
    DigitsOnlyConcat(p + a + q + b + r, c);
  }

  lemma MiddleLayoutDigits(d: string)
    requires AllDigits(d) && 4 <= |d| < 7
    ensures DigitsOnly(Layout(d)) == d
  {
    var a, b := d[..3], d[3..];
    assert AllDigits(a) && AllDigits(b);
    assert Layout(d) == "(" + a + ") " + b;
    SeparatorsHaveNoDigits();
    DigitsOfMiddleLayout("(", a, ") ", b);
    assert a + b == d;
  }

  lemma FullLayoutDigits(d: string)
    requires AllDigits(d) && |d| >= 7
    ensures DigitsOnly(Layout(d)) == d[..Min(|d|, MaxDigits)]
  {
    var m := Min(|d|, MaxDigits);
    var a, b, c := d[..3], d[3..6], d[6..m];
    assert AllDigits(a) && AllDigits(b) && AllDigits(c);
    assert Layout(d) == "(" + a + ") " + b + "-" + c;
    SeparatorsHaveNoDigits();
    DigitsOfFullLayout("(", a, ") ", b, "-", c);
    assert a + b + c == d[..m];
  }

  /** On a digit string, the layout keeps the first ten digits and adds none. */
  lemma LayoutKeepsFirstTenDigits(d: string)
    requires AllDigits(d)
    ensures DigitsOnly(Layout(d)) == d[..Min(|d|, MaxDigits)]
  {
    if |d| < 4 {
      assert d[..Min(|d|, MaxDigits)] == d;
    } else if |d| < 7 {
      MiddleLayoutDigits(d);
      assert d[..Min(|d|, MaxDigits)] == d;
    } else {
      FullLayoutDigits(d);
    }
  }

  /**
   * The digits of the output are the first min(n, 10) digits of the input,
   * in order: nothing is lost before the tenth digit and nothing is added.
   */
  lemma FormatKeepsFirstTenDigits(s: string)
    ensures var d := DigitsOnly(s);
            DigitsOnly(FormatPhoneNumber(s)) == d[..Min(|d|, MaxDigits)]
  {
    LayoutKeepsFirstTenDigits(DigitsOnly(s));
  }

  /** The exact length of the output, which never exceeds the field's maxLength. */
  lemma FormatLength(s: string)
    ensures var n := |DigitsOnly(s)|;
            |FormatPhoneNumber(s)| == (if n < 4 then n else if n < 7 then n + 3 else Min(n, MaxDigits) + 4)
    ensures |FormatPhoneNumber(s)| <= MaxLength
  {
  }

  /** The output is empty exactly when the input holds no digit. */
  lemma FormatEmptyIffNoDigits(s: string)
    ensures FormatPhoneNumber(s) == [] <==> DigitsOnly(s) == []
  {
  }

  /** Only the first ten digits of a digit string matter to the layout. */
  lemma LayoutIgnoresExtraDigits(d: string)
    ensures Layout(d) == Layout(d[..Min(|d|, MaxDigits)])
  {
    var e := d[..Min(|d|, MaxDigits)];
    if |d| >= 7 {
      assert e[..3] == d[..3] && e[3..6] == d[3..6];
      assert e[6..Min(|e|, MaxDigits)] == d[6..Min(|d|, MaxDigits)];
    }
  }

  /** Formatting an already formatted number changes nothing. */
  lemma FormatIdempotent(s: string)
    ensures FormatPhoneNumber(FormatPhoneNumber(s)) == FormatPhoneNumber(s)
  {
    var d := DigitsOnly(s);
    var f := FormatPhoneNumber(s);
    NonDigitsIrrelevant(f);
    FormatKeepsFirstTenDigits(s);
    assert DigitsOnly(f) == d[..Min(|d|, MaxDigits)];
    assert AllDigits(d[..Min(|d|, MaxDigits)]);
    LayoutIgnoresExtraDigits(d);
  }

  predicate NoSlots(s: string)
  {
    forall i :: 0 <= i < |s| ==> s[i] != 'X'
  }

  predicate OnlySlots(s: string)
  {
    forall i :: 0 <= i < |s| ==> s[i] == 'X'
  }

  /** A run of separators is copied through while digits remain to be placed. */
  lemma {:induction false} FillLiteral(lit: string, rest: string, digits: string)
    requires digits != [] && NoSlots(lit)
    ensures FillMask(lit + rest, digits) == lit + FillMask(rest, digits)
  {
    if lit != [] {
      assert (lit + rest)[0] == lit[0];
      assert (lit + rest)[1..] == lit[1..] + rest;
      FillLiteral(lit[1..], rest, digits);
    } else {
      assert lit + rest == rest;
    }
  }

  /** A run of slots takes all the digits when they are no more than its places. */
  lemma {:induction false} FillSlotsShort(slots: string, rest: string, digits: string)
    requires OnlySlots(slots) && |digits| <= |slots|
    ensures FillMask(slots + rest, digits) == digits
  {
    if digits != [] {
      assert (slots + rest)[0] == 'X';
      assert (slots + rest)[1..] == slots[1..] + rest;
      FillSlotsShort(slots[1..], rest, digits[1..]);
      assert [digits[0]] + digits[1..] == digits;
    }
  }

  /** A run of slots takes as many digits as it has places when more are left. */
  lemma {:induction false} FillSlotsLong(slots: string, rest: string, digits: string)
    requires OnlySlots(slots) && |digits| > |slots|
    ensures FillMask(slots + rest, digits) == digits[..|slots|] + FillMask(rest, digits[|slots|..])
  {
    if slots == [] {
      assert slots + rest == rest;
      assert digits[..0] == [] && digits[0..] == digits;
    } else {
      assert (slots + rest)[0] == 'X';
      assert (slots + rest)[1..] == slots[1..] + rest;
      FillSlotsLong(slots[1..], rest, digits[1..]);
      assert digits[1..][..|slots| - 1] == digits[1..|slots|];
      assert digits[1..][|slots| - 1..] == digits[|slots|..];
      assert [digits[0]] + digits[1..|slots|] == digits[..|slots|];
    }
  }

  /** A separator run followed by a slot run takes as many digits as the slots hold. */
  lemma FillGroup(sep: string, slots: string, rest: string, e: string)
    requires NoSlots(sep) && OnlySlots(slots) && e != []
    ensures |e| <= |slots| ==> FillMask(sep + (slots + rest), e) == sep + e
    ensures |e| > |slots| ==>
              FillMask(sep + (slots + rest), e) == sep + (e[..|slots|] + FillMask(rest, e[|slots|..]))
  {
    FillLiteral(sep, slots + rest, e);
    if |e| <= |slots| {
      FillSlotsShort(slots, rest, e);
    } else {
      FillSlotsLong(slots, rest, e);
    }
  }

  /** The mask, cut into its separator runs and its slot runs. */
  lemma MaskParts()
    ensures Mask == "(" + ("XXX" + (") " + ("XXX" + ("-" + ("XXXX" + [])))))
    ensures NoSlots("(") && NoSlots(") ") && NoSlots("-")
    ensures OnlySlots("XXX") && OnlySlots("XXXX")
  {
  }

  /** The mask filled with four to six digits: no dash yet. */
  lemma FillMaskMiddle(e: string)
    requires 4 <= |e| <= 6
    ensures FillMask(Mask, e) == "(" + e[..3] + ") " + e[3..]
  {
    var x, y := e[..3], e[3..];
    var tail := ") " + ("XXX" + ("-" + ("XXXX" + [])));
    MaskParts();
    FillGroup("(", "XXX", tail, e);
    assert FillMask(Mask, e) == "(" + (x + FillMask(tail, y));
    FillGroup(") ", "XXX", "-" + ("XXXX" + []), y);
    assert FillMask(tail, y) == ") " + y;
    Assoc4("(", x, ") ", y);
  }

  /** The mask filled with seven to ten digits. */
  lemma FillMaskFull(e: string)
    requires 7 <= |e| <= 10
    ensures FillMask(Mask, e) == "(" + e[..3] + ") " + e[3..6] + "-" + e[6..]
  {
    var x, y, z := e[..3], e[3..6], e[6..];
    MaskParts();
    FillGroup("(", "XXX", ") " + ("XXX" + ("-" + ("XXXX" + []))), e);
    assert e[3..][..3] == y && e[3..][3..] == z;
    FillGroup(") ", "XXX", "-" + ("XXXX" + []), e[3..]);
    FillGroup("-", "XXXX", [], z);
    Assoc6("(", x, ") ", y, "-", z);
  }

  lemma Assoc4(a: string, b: string, c: string, d: string)
    ensures a + (b + (c + d)) == a + b + c + d
  {
  }

  lemma Assoc6(a: string, b: string, c: string, d: string, e: string, f: string)
    ensures a + (b + (c + (d + (e + f)))) == a + b + c + d + e + f
  {
  }

  /**
   * From four digits on, the layout is the mask filled with the first
   * (at most ten) digits; below four digits it is the bare digit string.
   */
  lemma LayoutFillsMask(d: string)
    ensures Layout(d) == if |d| < 4 then d else FillMask(Mask, d[..Min(|d|, MaxDigits)])
  {
    if 4 <= |d| < 7 {
      MiddleLayoutFillsMask(d);
    } else if |d| >= 7 {
      FullLayoutFillsMask(d);
    }
  }

  lemma MiddleLayoutFillsMask(d: string)
    requires 4 <= |d| < 7
    ensures Layout(d) == FillMask(Mask, d[..Min(|d|, MaxDigits)])
  {
    var e := d[..Min(|d|, MaxDigits)];
    assert e == d;
    FillMaskMiddle(d);
  }

  lemma FullLayoutFillsMask(d: string)
    requires |d| >= 7
    ensures Layout(d) == FillMask(Mask, d[..Min(|d|, MaxDigits)])
  {
    var e := d[..Min(|d|, MaxDigits)];
    FillMaskFull(e);
    assert e[..3] == d[..3] && e[3..6] == d[3..6] && e[6..] == d[6..Min(|d|, MaxDigits)];
  }

  lemma FormatFillsMask(s: string)
    ensures var d := DigitsOnly(s);
            FormatPhoneNumber(s) ==
              if |d| < 4 then d else FillMask(Mask, d[..Min(|d|, MaxDigits)])
  {
    LayoutFillsMask(DigitsOnly(s));
  }
}
