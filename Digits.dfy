/** Decimal digit strings: printing natural numbers and integers the way
    `Long.toString`, JavaScript's number-to-string on integers and the ISO
    date formatter do, and reading digit strings back. */
module Digits {

  predicate IsDigit(c: char) { '0' <= c <= '9' }

  predicate AllDigits(s: string) { forall i :: 0 <= i < |s| ==> IsDigit(s[i]) }

  function DigitChar(d: nat): (c: char)
    requires d < 10
    ensures IsDigit(c)
  {
    ('0' as int + d) as char
  }

  function DigitValue(c: char): (d: nat)
    requires IsDigit(c)
    ensures d < 10
  {
    (c as int - '0' as int) as nat
  }

  lemma DigitRoundTrip(d: nat)
    requires d < 10
    ensures DigitValue(DigitChar(d)) == d
  {
  }

  function Pow10(k: nat): (p: nat)
    ensures p >= 1
  {
    if k == 0 then 1 else 10 * Pow10(k - 1)
  }

  /** The value of a string of digits, most significant first. */
  function DigitsToNat(s: string): nat
    requires AllDigits(s)
  {
    if s == [] then 0 else DigitsToNat(s[..|s| - 1]) * 10 + DigitValue(s[|s| - 1])
  }

  /** The shortest decimal spelling of n: no leading zero, "0" for zero. */
  function NatToDigits(n: nat): (s: string)
    ensures |s| >= 1 && IsDigit(s[0])
    ensures n >= 10 ==> s[0] != '0'
  {
    if n < 10 then [DigitChar(n)] else NatToDigits(n / 10) + [DigitChar(n % 10)]
  }

  /** Exactly w digits: n modulo 10^w, padded on the left with zeros. */
  function PadDigits(n: nat, w: nat): (s: string)
    ensures |s| == w
  {
    if w == 0 then [] else PadDigits(n / 10, w - 1) + [DigitChar(n % 10)]
  }

  /** `Long.toString`: a minus sign before the digits of a negative number. */
  function IntToString(i: int): (s: string)
    ensures |s| >= 1
    ensures i >= 0 <==> IsDigit(s[0])
    ensures i < 0 ==> s[0] == '-' && s[1..] == NatToDigits(-i)
  {
    if i < 0 then "-" + NatToDigits(-i) else NatToDigits(i)
  }

  lemma {:induction false} NatToDigitsDigits(n: nat)
    ensures AllDigits(NatToDigits(n))
  {
    if n >= 10 {
      NatToDigitsDigits(n / 10);
      var s := NatToDigits(n);
      assert forall i :: 0 <= i < |s| - 1 ==> s[i] == NatToDigits(n / 10)[i];
    }
  }

  lemma {:induction false} PadDigitsDigits(n: nat, w: nat)
    ensures AllDigits(PadDigits(n, w))
  {
    if w > 0 {
      PadDigitsDigits(n / 10, w - 1);
      var s := PadDigits(n, w);
      assert forall i :: 0 <= i < |s| - 1 ==> s[i] == PadDigits(n / 10, w - 1)[i];
    }
  }

  lemma {:induction false} NatToDigitsValue(n: nat)
    ensures AllDigits(NatToDigits(n))
    ensures DigitsToNat(NatToDigits(n)) == n
  {
    NatToDigitsDigits(n);
    if n >= 10 {
      var s := NatToDigits(n);
      assert s[..|s| - 1] == NatToDigits(n / 10);
      NatToDigitsValue(n / 10);
    }
  }

  /** A number with more than k digits is spelled with more than k characters. */
  lemma {:induction false} NatToDigitsLength(n: nat, k: nat)
    requires n >= Pow10(k)
    ensures |NatToDigits(n)| > k
  {
    if k > 0 {
      assert n >= 10;
      NatToDigitsLength(n / 10, k - 1);
    }
  }

  /** A number below 10^k is spelled with at most k characters. */
  lemma {:induction false} NatToDigitsShort(n: nat, k: nat)
    requires 1 <= k && n < Pow10(k)
    ensures |NatToDigits(n)| <= k
  {
    if n >= 10 {
      assert Pow10(1) == 10;
      NatToDigitsShort(n / 10, k - 1);
    }
  }

  lemma {:induction false} PadDigitsValue(n: nat, w: nat)
    requires n < Pow10(w)
    ensures AllDigits(PadDigits(n, w))
    ensures DigitsToNat(PadDigits(n, w)) == n
  {
    PadDigitsDigits(n, w);
    if w > 0 {
      var s := PadDigits(n, w);
      assert s[..|s| - 1] == PadDigits(n / 10, w - 1);
      PadDigitsValue(n / 10, w - 1);
    }
  }

  lemma CharRoundTrip(c: char)
    requires IsDigit(c)
    ensures DigitChar(DigitValue(c)) == c
  {
  }

  /** A digit string of length w spells a number below 10^w. */
  lemma {:induction false} DigitsToNatBound(s: string)
    requires AllDigits(s)
    ensures DigitsToNat(s) < Pow10(|s|)
  {
    if s != [] {
      DigitsToNatBound(s[..|s| - 1]);
    }
  }

  /** Without a leading zero, a digit string of length w spells at least 10^(w-1). */
  lemma {:induction false} DigitsToNatLeading(s: string)
    requires AllDigits(s) && |s| >= 1 && s[0] != '0'
    ensures DigitsToNat(s) >= Pow10(|s| - 1)
  {
    if |s| > 1 {
      var t := s[..|s| - 1];
      assert t[0] == s[0];
      DigitsToNatLeading(t);
    }
  }

  /** Padding a digit string's value to the string's own length gives it back. */
  lemma {:induction false} PadDigitsOfValue(s: string)
    requires AllDigits(s)
    ensures PadDigits(DigitsToNat(s), |s|) == s
  {
    if s != [] {
      var t := s[..|s| - 1];
      var c := s[|s| - 1];
      PadDigitsOfValue(t);
      CharRoundTrip(c);
      assert DigitsToNat(s) / 10 == DigitsToNat(t);
      assert DigitsToNat(s) % 10 == DigitValue(c);
      assert s == t + [c];
    }
  }

  /** A digit string without a leading zero (or a single digit) is the
      shortest spelling of its value. */
  lemma {:induction false} NatToDigitsOfValue(s: string)
    requires AllDigits(s) && |s| >= 1 && (|s| == 1 || s[0] != '0')
    ensures NatToDigits(DigitsToNat(s)) == s
  {
    var t := s[..|s| - 1];
    var c := s[|s| - 1];
    CharRoundTrip(c);
    if |s| > 1 {
      DigitsToNatLeading(s);
      assert Pow10(|s| - 1) >= 10 by {
        assert Pow10(|s| - 1) == 10 * Pow10(|s| - 2);
      }
      assert t[0] == s[0];
      NatToDigitsOfValue(t);
      assert DigitsToNat(s) / 10 == DigitsToNat(t);
      assert DigitsToNat(s) % 10 == DigitValue(c);
      assert s == t + [c];
    } else {
      assert DigitsToNat(t) == 0;
    }
  }

  /** Lexicographic order of strings, a proper prefix first: SQLite's BINARY
      collation on text made of these characters. */
  predicate StrLess(a: string, b: string)
  {
    if a == [] then b != []
    else if b == [] then false
    else a[0] < b[0] || (a[0] == b[0] && StrLess(a[1..], b[1..]))
  }

  lemma {:induction false} StrLessIrreflexive(a: string)
    ensures !StrLess(a, a)
  {
    if a != [] { StrLessIrreflexive(a[1..]); }
  }

  lemma {:induction false} StrLessTransitive(a: string, b: string, c: string)
    requires StrLess(a, b) && StrLess(b, c)
    ensures StrLess(a, c)
  {
    if a != [] && b != [] && c != [] && a[0] == b[0] == c[0] {
      StrLessTransitive(a[1..], b[1..], c[1..]);
    }
  }

  lemma {:induction false} StrLessTotal(a: string, b: string)
    ensures a == b || StrLess(a, b) || StrLess(b, a)
  {
    if a != [] && b != [] && a[0] == b[0] {
      StrLessTotal(a[1..], b[1..]);
      if a[1..] == b[1..] {
        assert a == [a[0]] + a[1..] && b == [b[0]] + b[1..];
      }
    }
  }

  lemma {:induction false} StrLessAsymmetric(a: string, b: string)
    requires StrLess(a, b)
    ensures !StrLess(b, a)
  {
    if StrLess(b, a) {
      StrLessTransitive(a, b, a);
      StrLessIrreflexive(a);
    }
  }

  /** Comparing two concatenations whose first parts have equal length
      compares the first parts, then the second parts. */
  lemma {:induction false} StrLessConcat(a1: string, a2: string, b1: string, b2: string)
    requires |a1| == |b1|
    ensures StrLess(a1 + a2, b1 + b2) <==> StrLess(a1, b1) || (a1 == b1 && StrLess(a2, b2))
  {
    if a1 != [] {
      assert (a1 + a2)[1..] == a1[1..] + a2 && (b1 + b2)[1..] == b1[1..] + b2;
      StrLessConcat(a1[1..], a2, b1[1..], b2);
      if a1[0] == b1[0] && a1[1..] == b1[1..] {
        assert a1 == [a1[0]] + a1[1..] && b1 == [b1[0]] + b1[1..];
      }
    } else {
      assert a1 + a2 == a2 && b1 + b2 == b2;
    }
  }

  /** Zero-padded fixed-width digit strings compare like their values. */
  lemma {:induction false} PadDigitsOrder(x: nat, y: nat, w: nat)
    requires x < Pow10(w) && y < Pow10(w)
    ensures StrLess(PadDigits(x, w), PadDigits(y, w)) <==> x < y
    ensures PadDigits(x, w) == PadDigits(y, w) <==> x == y
  {
    if w == 0 {
    } else {
      PadDigitsOrder(x / 10, y / 10, w - 1);
      var px, py := PadDigits(x / 10, w - 1), PadDigits(y / 10, w - 1);
      var cx, cy := DigitChar(x % 10), DigitChar(y % 10);
      StrLessConcat(px, [cx], py, [cy]);
      DigitRoundTrip(x % 10);
      DigitRoundTrip(y % 10);
      assert cx == cy <==> x % 10 == y % 10;
      assert cx < cy <==> x % 10 < y % 10;
      if px + [cx] == py + [cy] {
        assert px == (px + [cx])[..w - 1] && py == (py + [cy])[..w - 1];
        assert cx == (px + [cx])[w - 1];
      }
    }
  }
}
