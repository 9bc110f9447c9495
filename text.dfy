/** Small shared vocabulary: an optional value, and the decimal rendering of
    numbers that JavaScript template strings (`${n}`) and `toString()` perform. */
module Wrappers {

  /** A value that may be missing: JavaScript's `null` / `undefined`. */
  datatype Option<+T> = None | Some(value: T)

  /** The outcome of an operation that either yields a value or throws an error. */
  datatype Result<+T, +E> = Ok(value: T) | Err(error: E)

  /** JavaScript truthiness of a nullable string: present and not empty. */
  predicate Truthy(s: Option<string>) {
    s.Some? && s.value != ""
  }
}

module Text {

  predicate IsDigit(c: char) {
    '0' <= c <= '9'
  }

  predicate AllDigits(s: string) {
    forall i :: 0 <= i < |s| ==> IsDigit(s[i])
  }

  function DigitChar(d: nat): (c: char)
    requires d < 10
    ensures IsDigit(c) && c as int - '0' as int == d
  {
    (d + '0' as int) as char
  }

  /** Decimal rendering of a non-negative integer, without leading zeros. */
  function NatToString(n: nat): (s: string)
    ensures 1 <= |s| && AllDigits(s)
    ensures |s| == 1 <==> n < 10
    ensures |s| > 1 ==> s[0] != '0'
    decreases n
  {
    if n < 10 then [DigitChar(n)] else NatToString(n / 10) + [DigitChar(n % 10)]
  }

  /** The value of a string of decimal digits. */
  function ParseNat(s: string): nat
    requires AllDigits(s)
  {
    if s == [] then 0 else ParseNat(s[..|s| - 1]) * 10 + (s[|s| - 1] as int - '0' as int)
  }

  lemma {:induction false} ParseNatToString(n: nat)
    ensures ParseNat(NatToString(n)) == n
    decreases n
  {
    var s := NatToString(n);
    if n < 10 {
      assert s[..|s| - 1] == [];
    } else {
      assert s[..|s| - 1] == NatToString(n / 10);
      ParseNatToString(n / 10);
    }
  }

  /** Rendering is injective: two numbers print the same exactly when they are equal. */
  lemma NatToStringInjective(a: nat, b: nat)
    ensures NatToString(a) == NatToString(b) <==> a == b
  {
    if NatToString(a) == NatToString(b) {
      ParseNatToString(a);
      ParseNatToString(b);
    }
  }

  lemma {:induction false} NatToStringShort(n: nat)
    ensures n < 100 ==> |NatToString(n)| <= 2
  {
    if 10 <= n < 100 {
      assert n / 10 < 10;
    }
  }

  /** JavaScript's `${n}` for an integer: a minus sign before negative values. */
  function IntToString(i: int): (s: string)
    ensures 1 <= |s|
    ensures i >= 0 ==> s == NatToString(i)
    ensures i < 0 ==> s == "-" + NatToString(-i)
  {
    if i < 0 then "-" + NatToString(-i) else NatToString(i)
  }

  /** Inverse of IntToString on the strings it produces. */
  function ParseInt(s: string): int
    requires 1 <= |s|
    requires AllDigits(s) || (s[0] == '-' && AllDigits(s[1..]))
  {
    if s[0] == '-' then -(ParseNat(s[1..]) as int) else ParseNat(s)
  }

  lemma IntToStringRoundTrip(i: int)
    ensures var s := IntToString(i);
      (AllDigits(s) || (s[0] == '-' && AllDigits(s[1..]))) && ParseInt(s) == i
  {
    var s := IntToString(i);
    if i < 0 {
      assert s[1..] == NatToString(-i);
      ParseNatToString(-i);
    } else {
      ParseNatToString(i);
    }
  }

  /** A leading zero does not change the value of a digit string. */
  lemma {:induction false} ParseNatLeadingZero(s: string)
    requires AllDigits(s)
    ensures AllDigits("0" + s) && ParseNat("0" + s) == ParseNat(s)
    decreases |s|
  {
    if s != [] {
      var t := "0" + s;
      assert t[..|t| - 1] == "0" + s[..|s| - 1];
      ParseNatLeadingZero(s[..|s| - 1]);
    }
  }

  function Pow10(w: nat): nat {
    if w == 0 then 1 else 10 * Pow10(w - 1)
  }

  /** The last `w` decimal digits of `n`, zero-filled on the left. */
  function PadTo(n: nat, w: nat): (s: string)
    ensures |s| == w && AllDigits(s)
  {
    if w == 0 then [] else PadTo(n / 10, w - 1) + [DigitChar(n % 10)]
  }

  /** A number of exactly `w` digits prints as its `w`-digit padding. */
  lemma {:induction false} NatToStringIsPadTo(n: nat, w: nat)
    requires 1 <= w && n < Pow10(w)
    requires w == 1 || Pow10(w - 1) <= n
    ensures NatToString(n) == PadTo(n, w)
  {
    if w == 1 {
      assert PadTo(n / 10, 0) == [];
    } else {
      NatToStringIsPadTo(n / 10, w - 1);
    }
  }

  /** Strict lexicographic order on strings, as JavaScript's `<` compares them. */
  predicate LexLess(a: string, b: string) {
    if b == [] then false
    else if a == [] then true
    else if a[0] != b[0] then a[0] < b[0]
    else LexLess(a[1..], b[1..])
  }

  lemma {:induction false} LexLessIrreflexive(a: string)
    ensures !LexLess(a, a)
  {
    if a != [] {
      LexLessIrreflexive(a[1..]);
    }
  }

  /** A shared prefix does not decide the comparison. */
  lemma {:induction false} LexLessCommonPrefix(p: string, a: string, b: string)
    ensures LexLess(p + a, p + b) == LexLess(a, b)
  {
    if p == [] {
      assert p + a == a && p + b == b;
    } else {
      assert (p + a)[0] == p[0] == (p + b)[0];
      assert (p + a)[1..] == p[1..] + a;
      assert (p + b)[1..] == p[1..] + b;
      LexLessCommonPrefix(p[1..], a, b);
    }
  }

  /** Comparing two concatenations whose first parts have the same length
      compares the first parts, then, when they are equal, the second parts. */
  lemma {:induction false} LexLessConcat(a1: string, a2: string, b1: string, b2: string)
    requires |a1| == |a2|
    ensures LexLess(a1 + b1, a2 + b2) <==> LexLess(a1, a2) || (a1 == a2 && LexLess(b1, b2))
  {
    if a1 == [] {
      assert a1 + b1 == b1 && a2 + b2 == b2;
    } else {
      assert (a1 + b1)[0] == a1[0] && (a2 + b2)[0] == a2[0];
      assert (a1 + b1)[1..] == a1[1..] + b1;
      assert (a2 + b2)[1..] == a2[1..] + b2;
      LexLessConcat(a1[1..], a2[1..], b1, b2);
      if a1[0] == a2[0] {
        assert a1 == a2 <==> a1[1..] == a2[1..] by {
          if a1[1..] == a2[1..] {
            assert a1 == [a1[0]] + a1[1..];
            assert a2 == [a2[0]] + a2[1..];
          }
        }
      }
    }
  }

  /** Zero-filled numbers of the same width compare as strings exactly as they
      compare as numbers, and print the same exactly when they are equal. */
  lemma {:induction false} PadToOrder(m: nat, n: nat, w: nat)
    requires m < Pow10(w) && n < Pow10(w)
    ensures LexLess(PadTo(m, w), PadTo(n, w)) <==> m < n
    ensures PadTo(m, w) == PadTo(n, w) <==> m == n
  {
    if w == 0 {
      LexLessIrreflexive([]);
    } else {
      var pm := PadTo(m / 10, w - 1);
      var pn := PadTo(n / 10, w - 1);
      var dm := DigitChar(m % 10);
      var dn := DigitChar(n % 10);
      PadToOrder(m / 10, n / 10, w - 1);
      LexLessConcat(pm, pn, [dm], [dn]);
      assert LexLess([dm], [dn]) <==> m % 10 < n % 10 by {
        assert [dm][1..] == [] && [dn][1..] == [];
        LexLessIrreflexive([]);
      }
      assert pm + [dm] == pn + [dn] <==> pm == pn && dm == dn by {
        if pm + [dm] == pn + [dn] {
          assert (pm + [dm])[..w - 1] == pm && (pn + [dn])[..w - 1] == pn;
          assert (pm + [dm])[w - 1] == dm && (pn + [dn])[w - 1] == dn;
        }
      }
    }
  }

  /** Two strings built as prefix, shared separator and suffix, with prefixes and
      suffixes of matching lengths, compare by prefix first, then by suffix. */
  lemma LexLessJoin(r1: string, r2: string, sep: string, p1: string, p2: string)
    requires |r1| == |r2| && |p1| == |p2|
    ensures LexLess(r1 + sep + p1, r2 + sep + p2) <==> LexLess(r1, r2) || (r1 == r2 && LexLess(p1, p2))
    ensures r1 + sep + p1 == r2 + sep + p2 <==> r1 == r2 && p1 == p2
  {
    LexLessIrreflexive(sep);
    LexLessConcat(r1, r2, sep, sep);
    LexLessConcat(r1 + sep, r2 + sep, p1, p2);
    ConcatInjective(r1, r2, sep, sep);
    ConcatInjective(r1 + sep, r2 + sep, p1, p2);
  }

  /** Concatenations whose first parts have the same length are equal exactly when both parts are. */
  lemma ConcatInjective(a1: string, a2: string, b1: string, b2: string)
    requires |a1| == |a2|
    ensures a1 + b1 == a2 + b2 <==> a1 == a2 && b1 == b2
  {
    if a1 + b1 == a2 + b2 {
      assert (a1 + b1)[..|a1|] == a1 && (a2 + b2)[..|a2|] == a2;
      assert (a1 + b1)[|a1|..] == b1 && (a2 + b2)[|a2|..] == b2;
    }
  }
}
