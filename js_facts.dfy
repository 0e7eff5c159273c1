/** Facts about the JavaScript operations of module Js: the string order is
    a strict order, and `parseInt` reads back what `toString` writes. */
module JsFacts {

  import opened Wrappers
  import opened Js

  lemma {:induction false} LessIrreflexive(a: string)
    ensures !Less(a, a)
  {
    if a != [] {
      LessIrreflexive(a[1..]);
    }
  }

  lemma {:induction false} LessTransitive(a: string, b: string, c: string)
    requires Less(a, b) && Less(b, c)
    ensures Less(a, c)
  {
    if a != [] && a[0] == b[0] && b[0] == c[0] {
      LessTransitive(a[1..], b[1..], c[1..]);
    }
  }

  lemma {:induction false} DigitsValueAppend(z: string, c: char, hex: bool)
    requires forall i :: 0 <= i < |z| ==> IsRadixDigit(z[i], hex)
    requires IsRadixDigit(c, hex)
    ensures DigitsValue(z + [c], hex) == DigitsValue(z, hex) * (if hex then 16 else 10) + DigitValue(c, hex)
  {
    assert (z + [c])[..|z + [c]| - 1] == z;
  }

  /** Reading back the digits of `n` gives `n`. */
  lemma {:induction false} NatToStringValue(n: nat)
    ensures DigitsValue(NatToString(n), false) == n
  {
    if n >= 10 {
      NatToStringValue(n / 10);
      DigitsValueAppend(NatToString(n / 10), DigitChar(n % 10), false);
    }
  }

  lemma {:induction false} LeadingDigitsOfDigits(d: string, rest: string, hex: bool)
    requires forall i :: 0 <= i < |d| ==> IsRadixDigit(d[i], hex)
    requires rest == [] || !IsRadixDigit(rest[0], hex)
    ensures LeadingDigits(d + rest, hex) == d
  {
    if d != [] {
      assert (d + rest)[1..] == d[1..] + rest;
      LeadingDigitsOfDigits(d[1..], rest, hex);
    }
  }

  /** `parseInt` reads back the decimal form of an integer followed by any
      text that does not continue the number, e.g. `"20 gramas"`. After a
      bare `"0"` an `x` or `X` would turn the text into a hexadecimal literal,
      so that case is excluded. */
  lemma UnsignedValueOfNat(m: nat, rest: string)
    requires rest == [] || !IsDecimalDigit(rest[0])
    requires m == 0 && rest != [] ==> rest[0] != 'x' && rest[0] != 'X'
    ensures UnsignedValue(NatToString(m) + rest) == Some(m)
  {
    var d := NatToString(m);
    var u := d + rest;
    assert !HasHexPrefix(u) by {
      if |d| >= 2 {
        assert u[1] == d[1];
      } else if m != 0 {
        assert u[0] == d[0];
      }
    }
    LeadingDigitsOfDigits(d, rest, false);
    NatToStringValue(m);
  }

  lemma TrimStartOfNonSpace(s: string)
    requires s != [] && !IsWhiteSpace(s[0])
    ensures TrimStart(s) == s
  {
  }

  lemma StripSignOfDigitLed(u: string)
    requires u != [] && IsDecimalDigit(u[0])
    ensures StripSign(u) == u && StripSign("-" + u) == u
  {
    assert ("-" + u)[1..] == u;
  }

  lemma ParseIntOfTrimmed(t: string, m: nat)
    requires t != [] && TrimStart(t) == t
    requires UnsignedValue(StripSign(t)) == Some(m)
    ensures ParseInt(t) == if t[0] == '-' then Finite(-(m as int)) else Finite(m)
  {
  }

  /** Text that starts with a digit is read without a sign. */
  lemma ParseIntOfDigitLed(u: string, m: nat)
    requires u != [] && IsDecimalDigit(u[0])
    requires UnsignedValue(u) == Some(m)
    ensures ParseInt(u) == Finite(m)
  {
    TrimStartOfNonSpace(u);
    StripSignOfDigitLed(u);
    ParseIntOfTrimmed(u, m);
  }

  /** A minus sign directly before a digit negates the magnitude. */
  lemma ParseIntOfMinus(t: string, u: string, m: nat)
    requires u != [] && IsDecimalDigit(u[0])
    requires UnsignedValue(u) == Some(m)
    requires t == "-" + u
    ensures ParseInt(t) == Finite(-(m as int))
  {
    TrimStartOfNonSpace(t);
    StripSignOfDigitLed(u);
    ParseIntOfTrimmed(t, m);
  }

  lemma ParseIntOfNatToString(m: nat, rest: string)
    requires rest == [] || !IsDecimalDigit(rest[0])
    requires m == 0 && rest != [] ==> rest[0] != 'x' && rest[0] != 'X'
    ensures ParseInt(NatToString(m) + rest) == Finite(m)
  {
    var u := NatToString(m) + rest;
    UnsignedValueOfNat(m, rest);
    assert u[0] == NatToString(m)[0];
    ParseIntOfDigitLed(u, m);
  }

  lemma ConcatAfterMinus(d: string, rest: string, x: string)
    requires x == "-" + d
    ensures x + rest == "-" + (d + rest)
  {
  }

  lemma ParseIntOfNegative(n: int, rest: string)
    requires n < 0
    requires rest == [] || !IsDecimalDigit(rest[0])
    ensures ParseInt(IntToString(n) + rest) == Finite(n)
  {
    var m: nat := -n;
    var d := NatToString(m);
    UnsignedValueOfNat(m, rest);
    assert IntToString(n) == "-" + d;
    ConcatAfterMinus(d, rest, IntToString(n));
    assert (d + rest)[0] == d[0];
    ParseIntOfMinus(IntToString(n) + rest, d + rest, m);
  }

  lemma ParseIntOfIntToString(n: int, rest: string)
    requires rest == [] || !IsDecimalDigit(rest[0])
    requires n == 0 && rest != [] ==> rest[0] != 'x' && rest[0] != 'X'
    ensures ParseInt(IntToString(n) + rest) == Finite(n)
  {
    if n < 0 {
      ParseIntOfNegative(n, rest);
    } else {
      assert IntToString(n) == NatToString(n);
      ParseIntOfNatToString(n, rest);
    }
  }

  lemma ParseIntOfIntToStringExact(n: int)
    ensures ParseInt(IntToString(n)) == Finite(n)
  {
    ParseIntOfIntToString(n, []);
    assert IntToString(n) + [] == IntToString(n);
  }

  /** Text that starts with neither white space, a sign nor a digit has no
      number in it. */
  lemma ParseIntOfNonDigit(s: string)
    requires s != [] && !IsWhiteSpace(s[0]) && !IsDecimalDigit(s[0]) && s[0] != '+' && s[0] != '-'
    ensures ParseInt(s) == NaN
  {
    TrimStartOfNonSpace(s);
    assert StripSign(s) == s;
    assert !HasHexPrefix(s);
    assert LeadingDigits(s, false) == [];
  }

  lemma SingleDigitString(d: nat)
    requires d < 10
    ensures IntToString(d) == [DigitChar(d)]
  {
  }

  /** For one-digit numbers the string order is the numeric order. */
  lemma LessOfSingleDigits(a: nat, b: nat)
    requires a < 10 && b < 10
    ensures Less(IntToString(a), IntToString(b)) <==> a < b
  {
    SingleDigitString(a);
    SingleDigitString(b);
    var x, y := [DigitChar(a)], [DigitChar(b)];
    if a == b {
      LessIrreflexive(x);
    } else {
      assert x[0] != y[0];
    }
  }

  /** Every text that starts with a digit sorts after `"-Infinity"`. */
  lemma DigitLedAfterNegInfinity(k: string)
    requires k != [] && IsDecimalDigit(k[0])
    ensures Less("-Infinity", k)
  {
    assert "-Infinity"[0] == '-';
  }

  /** No text that starts with a digit sorts after `"NaN"`. */
  lemma DigitLedNotAfterNaN(k: string)
    requires k != [] && IsDecimalDigit(k[0])
    ensures !Less("NaN", k)
  {
    assert "NaN"[0] == 'N';
  }

  /** Two strings that agree before position `p` and differ there are ordered
      by their characters at `p`. */
  lemma {:induction false} LessAt(a: string, b: string, p: nat)
    requires p < |a| && p < |b| && a[..p] == b[..p] && a[p] < b[p]
    ensures Less(a, b)
  {
    if p > 0 {
      assert a[0] == a[..p][0] == b[..p][0] == b[0];
      assert a[1..][..p - 1] == a[..p][1..] == b[..p][1..] == b[1..][..p - 1];
      LessAt(a[1..], b[1..], p - 1);
    }
  }

  lemma LessImpliesDifferent(a: string, b: string)
    requires Less(a, b)
    ensures a != b
  {
    if a == b {
      LessIrreflexive(a);
    }
  }
}
