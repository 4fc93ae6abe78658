/** File names in order. */
module Listing {
  import Dates

  lemma {:induction false} TextLessTotal(a: string, b: string)
    ensures Dates.TextLess(a, b) || Dates.TextLess(b, a) || a == b
    ensures !(Dates.TextLess(a, b) && (Dates.TextLess(b, a) || a == b))
  {
    if a != "" && b != "" && a[0] == b[0] {
      TextLessTotal(a[1..], b[1..]);
      assert a == [a[0]] + a[1..] && b == [b[0]] + b[1..];
    }
  }

  lemma {:induction false} TextLessTrans(a: string, b: string, c: string)
    requires Dates.TextLess(a, b) && Dates.TextLess(b, c)
    ensures Dates.TextLess(a, c)
  {
    if a != "" && a[0] == b[0] && b[0] == c[0] {
      TextLessTrans(a[1..], b[1..], c[1..]);
    }
  }

  ghost predicate Ordered(s: seq<string>)
  {
    forall i, j | 0 <= i < j < |s| :: Dates.TextLess(s[i], s[j])
  }

  lemma OrderedCons(x: string, s: seq<string>)
    requires Ordered(s) && (s != [] ==> Dates.TextLess(x, s[0]) || forall y | y in s :: Dates.TextLess(x, y))
    ensures Ordered([x] + s)
  {
    forall i | 0 <= i < |s| ensures Dates.TextLess(x, s[i]) {
      assert s[i] in s && s[0] in s;
      if i > 0 && Dates.TextLess(x, s[0]) {
        TextLessTrans(x, s[0], s[i]);
      }
    }
  }

  lemma OrderedOnce(s: seq<string>)
    requires Ordered(s)
    ensures forall i, j | 0 <= i < j < |s| :: s[i] != s[j]
  {
    forall i, j | 0 <= i < j < |s| ensures s[i] != s[j] {
      TextLessTotal(s[i], s[j]);
    }
  }

  lemma OrderedTail(s: seq<string>)
    requires Ordered(s) && s != []
    ensures Ordered(s[1..]) && s[0] !in s[1..]
  {
    assert forall i | 0 <= i < |s| - 1 :: s[1..][i] == s[i + 1];
    TextLessTotal(s[0], s[0]);
  }

  function InsertName(s: seq<string>, x: string): (r: seq<string>)
    requires Ordered(s) && x !in s
    ensures Ordered(r)
    ensures forall y :: y in r <==> y == x || y in s
  {
    if s == [] then [x]
    else if Dates.TextLess(x, s[0]) then
      OrderedCons(x, s);
      [x] + s
    else
      OrderedTail(s);
      TextLessTotal(x, s[0]);
      assert s == [s[0]] + s[1..];
      var rest := InsertName(s[1..], x);
      assert forall y | y in s[1..] :: Dates.TextLess(s[0], y);
      OrderedCons(s[0], rest);
      [s[0]] + rest
  }

  ghost function SortedNames(names: set<string>): (r: seq<string>)
    ensures Ordered(r)
    ensures forall x :: x in r <==> x in names
  {
    if names == {} then []
    else
      var x :| x in names;
      InsertName(SortedNames(names - {x}), x)
  }

  lemma NoNames(a: seq<string>)
    ensures a == [] || exists x :: x in a
  {
    if a != [] {
      assert a[0] in a;
    }
  }

  /** There is only one order of a set of names. */
  lemma {:induction false} OneOrder(a: seq<string>, b: seq<string>)
    requires Ordered(a) && Ordered(b) && forall x :: x in a <==> x in b
    ensures a == b
  {
    NoNames(a);
    NoNames(b);
    if a != [] && b != [] {
      assert a[0] in b && b[0] in a;
      TextLessTotal(a[0], b[0]);
      assert a[0] == b[0];
      OrderedTail(a);
      OrderedTail(b);
      assert a == [a[0]] + a[1..] && b == [b[0]] + b[1..];
      forall x ensures x in a[1..] <==> x in b[1..] {
        assert x in a <==> x == a[0] || x in a[1..];
        assert x in b <==> x == b[0] || x in b[1..];
      }
      OneOrder(a[1..], b[1..]);
    }
  }

  /** Sorting whatever order a directory is listed in. */
  method Sort(names: set<string>) returns (r: seq<string>)
    ensures r == SortedNames(names)
  {
    r := [];
    var left := names;
    while left != {}
      invariant left <= names && Ordered(r)
      invariant forall x :: x in r <==> x in names - left
      decreases |left|
    {
      var x :| x in left;
      left := left - {x};
      r := InsertName(r, x);
    }
    OneOrder(r, SortedNames(names));
  }
}
