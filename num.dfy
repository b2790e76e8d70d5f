/**
 * Fixed-width unsigned integers and the decimal reading that Rust's
 * `str::parse::<u16>` performs (the port value of the configuration).
 */
module Num {
  import opened Wrappers

  newtype u8 = x: int | 0 <= x < 0x100
  newtype u16 = x: int | 0 <= x < 0x1_0000

  const U16_MAX: int := 0xFFFF

  /** The kinds of `ParseIntError` that parsing an unsigned integer can report. */
  datatype IntErrorKind = Empty | InvalidDigit | PosOverflow

  predicate IsDigit(c: char) {
    '0' <= c <= '9'
  }

  function DigitValue(c: char): (d: nat)
    requires IsDigit(c)
    ensures d < 10
  {
    (c as int) - ('0' as int)
  }

  predicate AllDigits(s: string) {
    forall j :: 0 <= j < |s| ==> IsDigit(s[j])
  }

  /** The number a string of decimal digits denotes, most significant digit first. */
  function DecimalValue(s: string): nat
    requires AllDigits(s)
  {
    if s == [] then 0 else DecimalValue(s[..|s| - 1]) * 10 + DigitValue(s[|s| - 1])
  }

  /** The index of the first character of `s` that is not a decimal digit, or |s| if there is none. */
  function FirstNonDigit(s: string): (k: nat)
    ensures k <= |s|
    ensures AllDigits(s[..k])
    ensures k < |s| ==> !IsDigit(s[k])
  {
    if s == [] || !IsDigit(s[0]) then 0
    else
      var k := 1 + FirstNonDigit(s[1..]);
      assert forall j :: 1 <= j < k ==> s[..k][j] == s[1..][..k - 1][j - 1];
      k
  }

  /** The text that holds the digits of an unsigned number: all of it after an optional leading '+'. */
  function Magnitude(s: string): (m: string)
    ensures |s| > 0 && s[0] == '+' ==> m == s[1..]
    ensures !(|s| > 0 && s[0] == '+') ==> m == s
  {
    if |s| > 0 && s[0] == '+' then s[1..] else s
  }

  /**
   * What reading the magnitude `m` digit by digit yields, stated on the whole text:
   * overflow if the run of leading digits already exceeds 65535, otherwise an invalid
   * digit if that run stops before the end, otherwise the value of all of `m`.
   */
  function Reading(m: string): Result<u16, IntErrorKind> {
    var k := FirstNonDigit(m);
    if DecimalValue(m[..k]) > U16_MAX then Err(PosOverflow)
    else if k < |m| then Err(InvalidDigit)
    else Ok(DecimalValue(m[..k]) as u16)
  }

  /**
   * The checked accumulation loop of the standard library: each character must be a
   * digit, then `acc * 10 + digit` must still fit in 16 bits.
   */
  function Accumulate(digits: string, acc: u16): Result<u16, IntErrorKind>
  {
    if digits == [] then Ok(acc)
    else if !IsDigit(digits[0]) then Err(InvalidDigit)
    else
      var next := acc as int * 10 + DigitValue(digits[0]);
      if next > U16_MAX then Err(PosOverflow) else Accumulate(digits[1..], next as u16)
  }

  /** A prefix of a digit string denotes a number no larger than the whole string. */
  lemma {:induction false} PrefixValueBounded(s: string, i: nat)
    requires AllDigits(s) && i <= |s|
    ensures AllDigits(s[..i]) && DecimalValue(s[..i]) <= DecimalValue(s)
    decreases |s|
  {
    if i < |s| {
      var t := s[..|s| - 1];
      PrefixValueBounded(t, i);
      assert t[..i] == s[..i];
    } else {
      assert s[..i] == s;
    }
  }

  /** Accumulating from any digit prefix of `m` whose value fits ends in `Reading(m)`. */
  lemma {:induction false} AccumulateReads(m: string, i: nat, acc: u16)
    requires i <= |m| && AllDigits(m[..i]) && acc as int == DecimalValue(m[..i])
    ensures Accumulate(m[i..], acc) == Reading(m)
    decreases |m| - i
  {
    var k := FirstNonDigit(m);
    if i == |m| {
      assert m[..i] == m;
      assert m[i..] == [];
    } else if !IsDigit(m[i]) {
      assert m[i..][0] == m[i];
    } else {
      var p := m[..i + 1];
      assert p[..i] == m[..i];
      assert AllDigits(p) by {
        forall j | 0 <= j < |p| ensures IsDigit(p[j]) {
          if j < i { assert p[j] == m[..i][j]; }
        }
      }
      var next := acc as int * 10 + DigitValue(m[i]);
      assert DecimalValue(p) == next;
      assert m[i..][0] == m[i] && m[i..][1..] == m[i + 1..];
      if next > U16_MAX {
        PrefixValueBounded(m[..k], i + 1);
        assert m[..k][..i + 1] == p;
      } else {
        AccumulateReads(m, i + 1, next as u16);
      }
    }
  }

  /**
   * Rust's `str::parse::<u16>`: an optional leading '+', then one or more ASCII decimal
   * digits (leading zeros allowed) whose value is at most 65535. The empty text, a sign
   * alone, a '-', whitespace or any other character, and values beyond 65535 are errors.
   */
  function ParseU16(s: string): (r: Result<u16, IntErrorKind>)
    ensures r == Err(Empty) <==> s == []
    ensures s == "+" ==> r == Err(InvalidDigit)
    ensures s != [] && s != "+" ==> r == Reading(Magnitude(s))
    ensures r.Ok? <==>
      var m := Magnitude(s); |m| > 0 && AllDigits(m) && DecimalValue(m) <= U16_MAX
    ensures r.Ok? ==> r.value as int == DecimalValue(Magnitude(s))
  {
    if s == [] then Err(Empty)
    else if s == "+" || s == "-" then Err(InvalidDigit)
    else
      var m := Magnitude(s);
      assert m[0..] == m;
      AccumulateReads(m, 0, 0);
      var k := FirstNonDigit(m);
      assert k == |m| ==> m[..k] == m;
      Accumulate(m, 0)
  }

  /** The decimal text of `n` as Rust's `Display` writes it: digits only, no leading zeros. */
  function FormatDecimal(n: nat): (s: string)
    ensures |s| > 0 && AllDigits(s) && DecimalValue(s) == n
    ensures n > 0 ==> s[0] != '0'
  {
    var last := ((n % 10) + ('0' as int)) as char;
    if n < 10 then [last]
    else
      var front := FormatDecimal(n / 10);
      var s := front + [last];
      assert s[..|s| - 1] == front;
      s
  }

  /** A run of zeros denotes zero. */
  lemma {:induction false} ZerosValue(n: nat)
    ensures AllDigits(seq(n, _ => '0')) && DecimalValue(seq(n, _ => '0')) == 0
  {
    if n > 0 {
      var s := seq(n, _ => '0');
      ZerosValue(n - 1);
      assert s[..n - 1] == seq(n - 1, _ => '0');
    }
  }

  /** Reading back the decimal text of any 16-bit value gives that value. */
  lemma ParseFormatRoundTrip(n: u16)
    ensures ParseU16(FormatDecimal(n as nat)) == Ok(n)
  {
    var s := FormatDecimal(n as nat);
    assert Magnitude(s) == s by { assert IsDigit(s[0]); }
  }
}
