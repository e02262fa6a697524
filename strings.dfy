/** The string primitives the client relies on: decimal rendering and parsing of
    integers (`toString`, `padStart`, `Number`), ASCII lower-casing and substring
    search (`toLowerCase`, `includes`). */
module Strings {
  import opened Wrappers

  predicate IsDigit(c: char)
  {
    '0' <= c <= '9'
  }

  predicate AllDigits(s: string)
  {
    forall i :: 0 <= i < |s| ==> IsDigit(s[i])
  }

  function DigitChar(d: nat): (c: char)
    requires d < 10
    ensures IsDigit(c)
  {
    (48 + d) as char
  }

  function DigitValue(c: char): (d: nat)
    requires IsDigit(c)
    ensures d < 10
  {
    c as int - 48
  }

  /** Number of decimal digits of `n` (`0` has one). */
  function NumDigits(n: nat): (k: nat)
    ensures k >= 1
  {
    if n < 10 then 1 else 1 + NumDigits(n / 10)
  }

  /** `n.toString()` for a non-negative integer: its shortest decimal numeral. */
  function NatToString(n: nat): (s: string)
    ensures |s| > 0 && AllDigits(s)
  {
    if n < 10 then [DigitChar(n)] else NatToString(n / 10) + [DigitChar(n % 10)]
  }

  /** The value a string of decimal digits denotes, most significant digit first;
      leading zeros are allowed. */
  function DecimalValue(s: string): nat
    requires AllDigits(s)
  {
    if s == [] then 0 else DecimalValue(s[..|s| - 1]) * 10 + DigitValue(s[|s| - 1])
  }

  /** `i.toString()` for any integer. */
  function IntToString(i: int): (s: string)
    ensures |s| > 0
    ensures i >= 0 ==> AllDigits(s)
    ensures i < 0 ==> s[0] == '-' && AllDigits(s[1..])
  {
    if i < 0 then
      var digits := NatToString(-i);
      assert ("-" + digits)[1..] == digits;
      "-" + digits
    else NatToString(i)
  }

  /** A decimal integer numeral with an optional sign (`-12`, `+12`, `12`);
      anything else reads as no number. */
  function ParseInt(s: string): (n: Option<int>)
    ensures n.Some? ==> |s| > 0 && (IsDigit(s[0]) || s[0] == '+' || s[0] == '-') && AllDigits(s[1..])
    ensures |s| > 0 && AllDigits(s) ==> n == Some(DecimalValue(s) as int)
  {
    if |s| > 1 && s[0] == '-' && AllDigits(s[1..]) then
      var magnitude: int := DecimalValue(s[1..]); Some(-magnitude)
    else if |s| > 1 && s[0] == '+' && AllDigits(s[1..]) then Some(DecimalValue(s[1..]) as int)
    else if |s| > 0 && AllDigits(s) then Some(DecimalValue(s) as int)
    else None
  }

  /** A sign in front of a digit string negates its value (`-`) or leaves it
      unchanged (`+`); a string with a character that is neither a digit nor a
      leading sign is no number. */
  lemma ParseIntSigns(digits: string)
    requires |digits| > 0 && AllDigits(digits)
    ensures ParseInt(digits) == Some(DecimalValue(digits) as int)
    ensures ParseInt("+" + digits) == ParseInt(digits)
    ensures ParseInt("-" + digits) == Some(-(DecimalValue(digits) as int))
    ensures forall c :: c != '+' && c != '-' && !IsDigit(c) ==> ParseInt([c] + digits).None?
  {
    SignedNumeral('+', digits);
    SignedNumeral('-', digits);
    forall c | c != '+' && c != '-' && !IsDigit(c) ensures ParseInt([c] + digits).None? {
      UnsignedNonDigit(c, digits);
    }
  }

  /** A sign followed by digits: the branch that reads the digits after it. */
  lemma SignedNumeral(sign: char, digits: string)
    requires sign == '+' || sign == '-'
    requires |digits| > 0 && AllDigits(digits)
    ensures sign == '+' ==> ParseInt([sign] + digits) == Some(DecimalValue(digits) as int)
    ensures sign == '-' ==> ParseInt([sign] + digits) == Some(-(DecimalValue(digits) as int))
  {
    assert ([sign] + digits)[1..] == digits;
  }

  /** A first character that is neither a sign nor a digit: no branch applies. */
  lemma UnsignedNonDigit(c: char, digits: string)
    requires c != '+' && c != '-' && !IsDigit(c)
    ensures ParseInt([c] + digits).None?
  {
    var s := [c] + digits;
    assert s[0] == c;
    assert !AllDigits(s);
  }

  function Repeat(c: char, n: nat): (s: string)
    ensures |s| == n
    ensures forall i :: 0 <= i < n ==> s[i] == c
  {
    if n == 0 then [] else [c] + Repeat(c, n - 1)
  }

  /** `s.padStart(width, c)` for a one-character pad string. */
  function PadStart(s: string, width: nat, c: char): (r: string)
    ensures |r| == if |s| >= width then |s| else width
    ensures r[|r| - |s|..] == s
    ensures forall i :: 0 <= i < |r| - |s| ==> r[i] == c
  {
    if |s| >= width then s else Repeat(c, width - |s|) + s
  }

  lemma {:induction false} NatToStringLength(n: nat)
    ensures |NatToString(n)| == NumDigits(n)
  {
    if n >= 10 {
      NatToStringLength(n / 10);
    }
  }

  /** Rendering then reading a numeral gives the number back. */
  lemma {:induction false} DecimalRoundTrip(n: nat)
    ensures DecimalValue(NatToString(n)) == n
  {
    var s := NatToString(n);
    if n >= 10 {
      DecimalRoundTrip(n / 10);
      assert s[..|s| - 1] == NatToString(n / 10);
    }
  }

  /** Leading zeros do not change the value of a numeral. */
  lemma {:induction false} LeadingZeros(z: nat, s: string)
    requires AllDigits(s)
    ensures AllDigits(Repeat('0', z) + s)
    ensures DecimalValue(Repeat('0', z) + s) == DecimalValue(s)
  {
    var t := Repeat('0', z) + s;
    if s == [] {
      assert t == Repeat('0', z);
      ZerosValue(z);
    } else {
      var s' := s[..|s| - 1];
      LeadingZeros(z, s');
      assert t[..|t| - 1] == Repeat('0', z) + s';
    }
  }

  lemma {:induction false} ZerosValue(z: nat)
    ensures DecimalValue(Repeat('0', z)) == 0
  {
    if z > 0 {
      var t := Repeat('0', z);
      ZerosValue(z - 1);
      assert t[..|t| - 1] == Repeat('0', z - 1) by {
        RepeatPrefix('0', z);
      }
    }
  }

  lemma RepeatPrefix(c: char, n: nat)
    requires n > 0
    ensures Repeat(c, n)[..n - 1] == Repeat(c, n - 1)
  {
  }

  /** `Number(String(i)) == i`: the page parameter written by the pager reads back
      as the page it encodes. */
  lemma ParseIntRoundTrip(i: int)
    ensures ParseInt(IntToString(i)) == Some(i)
  {
    var s := IntToString(i);
    if i < 0 {
      assert s[1..] == NatToString(-i);
      DecimalRoundTrip(-i);
    } else {
      assert s == NatToString(i);
      assert IsDigit(s[0]);
      DecimalRoundTrip(i);
    }
  }

  /** `String.prototype.toLowerCase` on ASCII letters. */
  function LowerChar(c: char): char
  {
    if 'A' <= c <= 'Z' then (c as int + 32) as char else c
  }

  function ToLower(s: string): (r: string)
    ensures |r| == |s|
    ensures forall i :: 0 <= i < |s| ==> r[i] == LowerChar(s[i])
  {
    if s == [] then [] else [LowerChar(s[0])] + ToLower(s[1..])
  }

  predicate IsPrefix(p: string, s: string)
  {
    |p| <= |s| && s[..|p|] == p
  }

  /** `s.includes(t)`: `t` occurs in `s` at some position (the empty string
      occurs everywhere). */
  predicate Contains(s: string, t: string)
    ensures t == [] ==> Contains(s, t)
    ensures Contains(s, t) ==> |t| <= |s|
  {
    IsPrefix(t, s) || (|s| > 0 && Contains(s[1..], t))
  }

  lemma {:induction false} ToLowerIdempotent(s: string)
    ensures ToLower(ToLower(s)) == ToLower(s)
  {
    var once := ToLower(s);
    var twice := ToLower(once);
    assert forall i :: 0 <= i < |s| ==> twice[i] == LowerChar(LowerChar(s[i])) == once[i];
  }

  /** `t` occurs in `s` starting at index `i`. */
  predicate OccursAt(s: string, t: string, i: int)
  {
    0 <= i && i + |t| <= |s| && s[i..i + |t|] == t
  }

  /** `Contains` agrees with the positional reading of `includes`: `t` occurs in
      `s` iff some window of `s` equals `t`. */
  lemma {:induction false} ContainsOccurs(s: string, t: string)
    ensures Contains(s, t) <==> exists i :: OccursAt(s, t, i)
    decreases |s|
  {
    if IsPrefix(t, s) {
      assert OccursAt(s, t, 0);
    } else if |s| == 0 {
      assert !Contains(s, t);
    } else {
      var rest := s[1..];
      ContainsOccurs(rest, t);
      if Contains(rest, t) {
        var j :| OccursAt(rest, t, j);
        assert s[j + 1..j + 1 + |t|] == rest[j..j + |t|];
        assert OccursAt(s, t, j + 1);
      }
      if i :| OccursAt(s, t, i) {
        assert i != 0;
        assert rest[i - 1..i - 1 + |t|] == s[i..i + |t|];
        assert OccursAt(rest, t, i - 1);
      }
    }
  }
}
