/** Calendar days written as ISO `yyyy-MM-dd` strings, which is how the client stores, bounds
    and compares them: `toString()` of a number, `padStart(2, '0')`, and the fixed-width
    digits that `format(date, 'yyyy-MM-dd')` writes. The point of this module is that the
    string order the client compares with is the calendar order. */
module Dates {
  import opened Util

  /** The character for one decimal digit. */
  function Digit(d: nat): (c: char)
    requires d < 10
    ensures '0' <= c <= '9'
  {
    ('0' as int + d) as char
  }

  function Pow10(w: nat): (p: nat)
    ensures p >= 1
  {
    if w == 0 then 1 else 10 * Pow10(w - 1)
  }

  /** `n.toString()` for a non-negative integer: no leading zeros. */
  function Decimal(n: nat): (s: string)
    ensures |s| >= 1
    decreases n
  {
    if n < 10 then [Digit(n)] else Decimal(n / 10) + [Digit(n % 10)]
  }

  /** The last `w` decimal digits of `n`, with leading zeros: a fixed-width field of a
      formatted date. */
  function Digits(n: nat, w: nat): (s: string)
    ensures |s| == w
    decreases w
  {
    if w == 0 then [] else Digits(n / 10, w - 1) + [Digit(n % 10)]
  }

  /** `s.padStart(2, '0')`. */
  function Pad2(s: string): (r: string)
    ensures |s| >= 2 ==> r == s
    ensures |s| < 2 ==> |r| == 2 && r[2 - |s|..] == s && forall i :: 0 <= i < 2 - |s| ==> r[i] == '0'
  {
    if |s| >= 2 then s else seq(2 - |s|, _ => '0') + s
  }

  /** A number written with exactly as many digits as it has needs no padding. */
  lemma {:induction false} DecimalIsDigits(n: nat, w: nat)
    requires 0 < w && n < Pow10(w) && (w == 1 || Pow10(w - 1) <= n)
    ensures Decimal(n) == Digits(n, w)
    decreases w
  {
    if w == 1 {
      assert n < 10;
      assert Digits(n / 10, 0) == [];
    } else {
      assert n >= 10 by {
        PowAtLeast10(w - 1);
      }
      DecimalIsDigits(n / 10, w - 1);
    }
  }

  lemma {:induction false} PowAtLeast10(w: nat)
    requires w >= 1
    ensures Pow10(w) >= 10
  {
    if w > 1 {
      PowAtLeast10(w - 1);
    }
  }

  /** A month number padded to two places is its two-digit field. */
  lemma PaddedMonth(m: nat)
    requires 1 <= m < 100
    ensures Pad2(Decimal(m)) == Digits(m, 2)
  {
    if m < 10 {
      assert Digits(m / 10, 1) == Digits(0, 0) + [Digit(0)];
      assert Pad2(Decimal(m)) == ['0', Digit(m)];
    } else {
      DecimalIsDigits(m, 2);
    }
  }

  /** The ISO day string of a year, month and day. */
  function DayString(y: nat, m: nat, d: nat): (s: string)
    ensures |s| == 10 && s[4] == '-' && s[7] == '-'
  {
    Digits(y, 4) + (['-'] + (Digits(m, 2) + (['-'] + Digits(d, 2))))
  }

  /** Comparing two strings that start with equal-length parts compares the parts first. */
  lemma {:induction false} LexConcatSameLength(p1: string, p2: string, q1: string, q2: string)
    requires |p1| == |p2|
    ensures LexLt(p1 + q1, p2 + q2) <==> LexLt(p1, p2) || (p1 == p2 && LexLt(q1, q2))
    decreases |p1|
  {
    if |p1| == 0 {
      assert p1 + q1 == q1 && p2 + q2 == q2;
    } else {
      assert (p1 + q1)[0] == p1[0] && (p2 + q2)[0] == p2[0];
      assert (p1 + q1)[1..] == p1[1..] + q1 && (p2 + q2)[1..] == p2[1..] + q2;
      LexConcatSameLength(p1[1..], p2[1..], q1, q2);
      assert p1 == [p1[0]] + p1[1..] && p2 == [p2[0]] + p2[1..];
      if p1[0] != p2[0] {
        assert p1 != p2;
      }
    }
  }

  /** Fixed-width digit fields compare as the numbers they write; equal fields write equal
      numbers. */
  lemma {:induction false} DigitsOrder(a: nat, b: nat, w: nat)
    requires a < Pow10(w) && b < Pow10(w)
    ensures LexLt(Digits(a, w), Digits(b, w)) <==> a < b
    ensures Digits(a, w) == Digits(b, w) <==> a == b
    decreases w
  {
    if w > 0 {
      DigitsOrder(a / 10, b / 10, w - 1);
      var p1, p2 := Digits(a / 10, w - 1), Digits(b / 10, w - 1);
      var c1, c2 := Digit(a % 10), Digit(b % 10);
      LexConcatSameLength(p1, p2, [c1], [c2]);
      assert LexLt([c1], [c2]) <==> a % 10 < b % 10 by {
        assert [c1][1..] == [] && [c2][1..] == [];
      }
      assert Digits(a, w) == Digits(b, w) <==> p1 == p2 && c1 == c2 by {
        if Digits(a, w) == Digits(b, w) {
          assert Digits(a, w)[..w - 1] == p1 && Digits(b, w)[..w - 1] == p2;
          assert Digits(a, w)[w - 1] == c1 && Digits(b, w)[w - 1] == c2;
        }
      }
      assert a == 10 * (a / 10) + a % 10 && b == 10 * (b / 10) + b % 10;
    }
  }

  /** Day strings compare as the days do: by year, then month, then day. */
  lemma DayStringOrder(y1: nat, m1: nat, d1: nat, y2: nat, m2: nat, d2: nat)
    requires y1 < 10000 && y2 < 10000 && m1 < 100 && m2 < 100 && d1 < 100 && d2 < 100
    ensures LexLt(DayString(y1, m1, d1), DayString(y2, m2, d2)) <==>
      (y1 < y2 || (y1 == y2 && (m1 < m2 || (m1 == m2 && d1 < d2))))
  {
    assert Pow10(2) == 100 && Pow10(4) == 10000;
    DigitsOrder(y1, y2, 4);
    DigitsOrder(m1, m2, 2);
    DigitsOrder(d1, d2, 2);
    var a1, a2 := ['-'] + Digits(d1, 2), ['-'] + Digits(d2, 2);
    LexConcatSameLength(['-'], ['-'], Digits(d1, 2), Digits(d2, 2));
    LexConcatSameLength(Digits(m1, 2), Digits(m2, 2), a1, a2);
    var b1, b2 := ['-'] + (Digits(m1, 2) + a1), ['-'] + (Digits(m2, 2) + a2);
    LexConcatSameLength(['-'], ['-'], Digits(m1, 2) + a1, Digits(m2, 2) + a2);
    LexConcatSameLength(Digits(y1, 4), Digits(y2, 4), b1, b2);
    assert Digits(m1, 2) + a1 == Digits(m2, 2) + a2 ==> Digits(m1, 2) == Digits(m2, 2) by {
      if Digits(m1, 2) + a1 == Digits(m2, 2) + a2 {
        assert (Digits(m1, 2) + a1)[..2] == Digits(m1, 2);
        assert (Digits(m2, 2) + a2)[..2] == Digits(m2, 2);
      }
    }
  }

  /** Distinct days have distinct strings: string equality on days is day equality. */
  lemma DayStringInjective(y1: nat, m1: nat, d1: nat, y2: nat, m2: nat, d2: nat)
    requires y1 < 10000 && y2 < 10000 && m1 < 100 && m2 < 100 && d1 < 100 && d2 < 100
    ensures DayString(y1, m1, d1) == DayString(y2, m2, d2) <==> y1 == y2 && m1 == m2 && d1 == d2
  {
    DayStringOrder(y1, m1, d1, y2, m2, d2);
    DayStringOrder(y2, m2, d2, y1, m1, d1);
    LexIrreflexive(DayString(y1, m1, d1));
  }
}
