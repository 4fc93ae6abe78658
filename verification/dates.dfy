/** Log dates.  The programs keep a date as the text YYYY-MM-DD, with the empty
    text for "no date yet", and compare dates as text.  The model keeps the
    ordinal of that text; OrdinalOrder shows that nothing is lost. */
module Dates {

  type Date = nat

  /** The cursor date '' of a machine that has sent or received nothing. */
  const NO_DATE: Date := 0

  /** Byte-wise order of strings, as Go, Python and SQLite compare them. */
  predicate TextLess(a: string, b: string)
  {
    b != "" && (a == "" || a[0] < b[0] || (a[0] == b[0] && TextLess(a[1..], b[1..])))
  }

  predicate IsDigit(c: char)
  {
    '0' <= c <= '9'
  }

  predicate IsDash(i: int)
  {
    i == 4 || i == 7
  }

  /** What the pattern \d{4}-\d{2}-\d{2} accepts. */
  predicate IsDateText(s: string)
  {
    |s| == 10 && forall i | 0 <= i < 10 :: if IsDash(i) then s[i] == '-' else IsDigit(s[i])
  }

  function Power10(n: nat): (p: nat)
    ensures p >= 1
  {
    if n == 0 then 1 else 10 * Power10(n - 1)
  }

  function DigitValue(c: char): nat
  {
    if IsDigit(c) then (c - '0') as nat else 0
  }

  /** The decimal number written in `s`, dashes counting as zeros. */
  function Numeral(s: string): nat
  {
    if s == "" then 0 else DigitValue(s[0]) * Power10(|s| - 1) + Numeral(s[1..])
  }

  function Ordinal(s: string): Date
  {
    if s == "" then NO_DATE else 1 + Numeral(s)
  }

  ghost predicate SameShape(a: string, b: string)
  {
    && |a| == |b|
    && forall i | 0 <= i < |a| :: if IsDigit(a[i]) then IsDigit(b[i]) else a[i] == b[i] == '-'
  }

  lemma PlaceBound(x: nat, p: nat, m: nat)
    requires x <= 9 && m < p
    ensures x * p + m < 10 * p
  {
    assert (9 - x) * p >= 0;
  }

  lemma {:induction false} NumeralBound(s: string)
    ensures Numeral(s) < Power10(|s|)
  {
    if s != "" {
      NumeralBound(s[1..]);
      PlaceBound(DigitValue(s[0]), Power10(|s| - 1), Numeral(s[1..]));
    }
  }

  lemma PlaceOrder(x: nat, y: nat, p: nat, m: nat, n: nat)
    requires m < p && n < p
    ensures x * p + m < y * p + n <==> x < y || (x == y && m < n)
    ensures x * p + m == y * p + n ==> x == y && m == n
  {
    if x < y {
      assert (x + 1) * p <= y * p;
    } else if y < x {
      assert (y + 1) * p <= x * p;
    }
  }

  lemma {:induction false} NumeralOrder(a: string, b: string)
    requires SameShape(a, b)
    ensures TextLess(a, b) <==> Numeral(a) < Numeral(b)
    ensures Numeral(a) == Numeral(b) ==> a == b
  {
    if a != "" {
      assert SameShape(a[1..], b[1..]) by {
        assert forall i | 0 <= i < |a| - 1 :: a[1..][i] == a[i + 1] && b[1..][i] == b[i + 1];
      }
      NumeralOrder(a[1..], b[1..]);
      NumeralBound(a[1..]);
      NumeralBound(b[1..]);
      PlaceOrder(DigitValue(a[0]), DigitValue(b[0]), Power10(|a| - 1), Numeral(a[1..]), Numeral(b[1..]));
      assert a[0] == b[0] <==> DigitValue(a[0]) == DigitValue(b[0]);
      assert a[0] < b[0] <==> DigitValue(a[0]) < DigitValue(b[0]);
      assert a == [a[0]] + a[1..] && b == [b[0]] + b[1..];
    }
  }

  /** Comparing ordinals is comparing date texts, with '' below every date; and
      different texts have different ordinals. */
  lemma OrdinalOrder(a: string, b: string)
    requires (a == "" || IsDateText(a)) && (b == "" || IsDateText(b))
    ensures TextLess(a, b) <==> Ordinal(a) < Ordinal(b)
    ensures a == b <==> Ordinal(a) == Ordinal(b)
    ensures a != "" ==> Ordinal(a) > NO_DATE
  {
    if a != "" && b != "" {
      NumeralOrder(a, b);
    }
  }
}
