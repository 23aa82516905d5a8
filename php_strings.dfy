/**
 * The PHP string primitives the endpoint relies on: `empty()` on a string,
 * `is_numeric()` on the priority string and the `(int)` cast applied to it.
 * `is_numeric` is modelled for decimal notation (an optional sign, digits and
 * an optional fraction); leading or trailing whitespace and exponents are not.
 */
module PhpStrings {

  /** `empty($s)` for a string: true for "" and for "0", false otherwise. */
  predicate IsEmpty(s: string) {
    |s| == 0 || (|s| == 1 && s[0] == '0')
  }

  predicate IsDigit(c: char) {
    '0' <= c <= '9'
  }

  predicate AllDigits(s: string) {
    forall i :: 0 <= i < |s| ==> IsDigit(s[i])
  }

  /** The length of the run of decimal digits that starts `s`. */
  function LeadingDigits(s: string): (n: nat)
    ensures n <= |s|
    ensures AllDigits(s[..n])
    ensures n < |s| ==> !IsDigit(s[n])
  {
    if s == [] || !IsDigit(s[0]) then 0
    else
      var m := LeadingDigits(s[1..]);
      assert s[..1 + m] == [s[0]] + s[1..][..m];
      1 + m
  }

  /** 1 when `s` starts with a sign character, 0 otherwise. */
  function SignLength(s: string): (n: nat)
    ensures n <= |s|
  {
    if |s| > 0 && (s[0] == '+' || s[0] == '-') then 1 else 0
  }

  /** The string after its sign character, if any. */
  function Unsigned(s: string): string {
    s[SignLength(s)..]
  }

  predicate IsNegative(s: string) {
    SignLength(s) == 1 && s[0] == '-'
  }

  /**
   * `is_numeric($s)` on decimal notation: an optional sign, then whole digits,
   * then optionally a '.' and fraction digits, with at least one digit overall.
   */
  predicate IsNumeric(s: string) {
    IsUnsignedNumeric(Unsigned(s))
  }

  predicate IsUnsignedNumeric(u: string) {
    var whole := LeadingDigits(u);
    var rest := u[whole..];
    (rest == [] && whole > 0) ||
    (rest != [] && rest[0] == '.' && AllDigits(rest[1..]) && (whole > 0 || |rest| > 1))
  }

  /** The value of a string of decimal digits. */
  function DigitsValue(s: string): nat
    requires AllDigits(s)
  {
    if s == [] then 0
    else 10 * DigitsValue(s[..|s| - 1]) + (s[|s| - 1] as int - '0' as int)
  }

  /** The value of the leading whole digits of an unsigned string. */
  function WholeValue(u: string): nat {
    DigitsValue(u[..LeadingDigits(u)])
  }

  /**
   * `(int)$s`: the sign and the leading whole digits. A fraction is dropped,
   * which truncates toward zero; a string without leading digits gives 0.
   */
  function IntCast(s: string): int {
    var magnitude: int := WholeValue(Unsigned(s));
    if IsNegative(s) then -magnitude else magnitude
  }

  /** The decimal digits of a natural number, most significant first. */
  function NatDigits(n: nat): string
    decreases n
  {
    if n < 10 then [('0' as int + n) as char]
    else NatDigits(n / 10) + [('0' as int + n % 10) as char]
  }

  /** The decimal rendering of an integer, as PHP writes it ("-12", "0", "10"). */
  function Render(n: int): string {
    if n < 0 then "-" + NatDigits(-n) else NatDigits(n)
  }

  lemma {:induction false} NatDigitsDenote(n: nat)
    ensures NatDigits(n) != []
    ensures AllDigits(NatDigits(n))
    ensures DigitsValue(NatDigits(n)) == n
    decreases n
  {
    if n >= 10 {
      NatDigitsDenote(n / 10);
      var s := NatDigits(n);
      assert s[..|s| - 1] == NatDigits(n / 10);
    }
  }

  /** A run of digits followed by a non-digit (or nothing) is exactly the leading run. */
  lemma {:induction false} LeadingDigitsOfRun(d: string, t: string)
    requires AllDigits(d)
    requires t == [] || !IsDigit(t[0])
    ensures LeadingDigits(d + t) == |d|
  {
    if d != [] {
      assert (d + t)[1..] == d[1..] + t;
      LeadingDigitsOfRun(d[1..], t);
    } else {
      assert d + t == t;
    }
  }

  /** Every integer's decimal rendering is numeric and casts back to that integer. */
  lemma RenderRoundTrip(n: int)
    ensures IsNumeric(Render(n))
    ensures IntCast(Render(n)) == n
  {
    var digits := if n < 0 then NatDigits(-n) else NatDigits(n);
    NatDigitsDenote(if n < 0 then -n else n);
    LeadingDigitsOfRun(digits, []);
    assert digits + [] == digits;
    var s := Render(n);
    if n < 0 {
      assert s[1..] == digits;
    } else {
      assert SignLength(s) == 0;
    }
    assert s[SignLength(s)..] == digits;
    assert digits[..|digits|] == digits;
  }

  /** A sign in front of a string that does not itself start with a sign is read as the sign. */
  lemma SignSplit(sign: string, u: string)
    requires sign == "" || sign == "-" || sign == "+"
    requires u != [] && u[0] != '+' && u[0] != '-'
    ensures Unsigned(sign + u) == u
    ensures IsNegative(sign + u) <==> sign == "-"
  {
    if sign == "" {
      assert sign + u == u;
    } else {
      assert (sign + u)[0] == sign[0] && (sign + u)[1..] == u;
    }
  }

  /**
   * Whole digits, a point and fraction digits, with at least one digit:
   * numeric, valued by the whole digits alone.
   */
  lemma FractionIgnored(whole: string, fraction: string)
    requires whole != [] || fraction != []
    requires AllDigits(whole) && AllDigits(fraction)
    ensures IsUnsignedNumeric(whole + ("." + fraction))
    ensures WholeValue(whole + ("." + fraction)) == WholeValue(whole)
  {
    var tail := "." + fraction;
    var u := whole + tail;
    LeadingDigitsOfRun(whole, tail);
    LeadingDigitsOfRun(whole, []);
    assert whole + [] == whole;
    assert u[|whole|..] == tail && tail[1..] == fraction;
    assert u[..|whole|] == whole && whole[..|whole|] == whole;
  }

  /** A sign in front of an unsigned string: numeric as that string, valued as its negation or itself. */
  lemma SignedValue(sign: string, u: string)
    requires sign == "" || sign == "-" || sign == "+"
    requires u == [] || (u[0] != '+' && u[0] != '-')
    ensures IsNumeric(sign + u) <==> IsUnsignedNumeric(u)
    ensures IntCast(sign + u) == if sign == "-" then -(WholeValue(u) as int) else WholeValue(u)
  {
    if u == [] {
      assert sign + u == sign;
      assert Unsigned(sign) == [];
    } else {
      SignSplit(sign, u);
    }
  }

  /**
   * A signed decimal with a fraction is numeric, and `(int)` keeps only its
   * whole part: "10.9" casts to 10, "-10.9" to -10, and ".5" and "-.5",
   * which have no whole digits, to 0.
   */
  lemma CastTruncatesFraction(sign: string, whole: string, fraction: string)
    requires sign == "" || sign == "-" || sign == "+"
    requires whole != [] || fraction != []
    requires AllDigits(whole) && AllDigits(fraction)
    ensures IsNumeric(sign + whole + "." + fraction)
    ensures IntCast(sign + whole + "." + fraction) == IntCast(sign + whole)
    ensures whole == [] ==> IntCast(sign + whole + "." + fraction) == 0
  {
    var u := whole + ("." + fraction);
    assert sign + whole + "." + fraction == sign + u;
    SignedValue(sign, u);
    SignedValue(sign, whole);
    FractionIgnored(whole, fraction);
    if whole == [] {
      assert WholeValue(whole) == 0 by {
        assert LeadingDigits(whole) == 0;
      }
    }
  }

  /** A string with no decimal digit at all ("high", "", "-") is not numeric. */
  lemma NoDigitNotNumeric(s: string)
    requires forall i :: 0 <= i < |s| ==> !IsDigit(s[i])
    ensures !IsNumeric(s)
  {
    var k := SignLength(s);
    var unsigned := s[k..];
    assert LeadingDigits(unsigned) == 0 by {
      if unsigned != [] {
        assert unsigned[0] == s[k];
      }
    }
    if |unsigned| > 1 {
      assert unsigned[1] == s[k + 1];
      assert unsigned[0..][1..][0] == unsigned[1];
    }
  }
}
