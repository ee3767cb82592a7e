/** Sorting whole numbers downwards, as the source does with its library sort. */
module Sorting {

  predicate Decreasing(s: seq<int>) {
    s != [] ==> (forall y :: y in s[1..] ==> s[0] > y) && Decreasing(s[1..])
  }

  predicate NoRepeats(s: seq<int>) {
    s != [] ==> s[|s| - 1] !in s[..|s| - 1] && NoRepeats(s[..|s| - 1])
  }

  function InsertDown(x: int, s: seq<int>): (r: seq<int>)
    ensures |r| == |s| + 1 && forall y :: y in r <==> y == x || y in s
    ensures Decreasing(s) && x !in s ==> Decreasing(r)
  {
    if s == [] || x > s[0] then
      assert ([x] + s)[1..] == s && (s != [] ==> s == [s[0]] + s[1..]);
      [x] + s
    else
      var r := InsertDown(x, s[1..]);
      assert s == [s[0]] + s[1..] && ([s[0]] + r)[1..] == r;
      [s[0]] + r
  }

  function SortDown(s: seq<int>): (r: seq<int>)
    ensures |r| == |s| && forall y :: y in r <==> y in s
    ensures NoRepeats(s) ==> Decreasing(r)
  {
    if s == [] then []
    else
      assert s == s[..|s| - 1] + [s[|s| - 1]];
      InsertDown(s[|s| - 1], SortDown(s[..|s| - 1]))
  }

  lemma {:induction false} FewBelow(s: seq<int>, m: int)
    requires Decreasing(s) && m >= 0 && forall y :: y in s ==> 0 <= y < m
    ensures |s| <= m
  {
    if s != [] {
      assert s[0] in s && s == [s[0]] + s[1..];
      forall y | y in s[1..]
        ensures 0 <= y < s[0]
      {
        assert y in s;
      }
      FewBelow(s[1..], s[0]);
    }
  }

  /** As many different numbers as there are below a bound, sorted downwards, count down to 0. */
  lemma {:induction false} Countdown(s: seq<int>)
    requires Decreasing(s) && forall y :: y in s ==> 0 <= y < |s|
    ensures forall i :: 0 <= i < |s| ==> s[i] == |s| - 1 - i
  {
    if s != [] {
      assert s[0] in s && s == [s[0]] + s[1..];
      forall y | y in s[1..]
        ensures 0 <= y < s[0]
      {
        assert y in s;
      }
      FewBelow(s[1..], s[0]);
      Countdown(s[1..]);
    }
  }

  lemma {:induction false} DistinctNoRepeats(s: seq<int>)
    requires forall i, j :: 0 <= i < j < |s| ==> s[i] != s[j]
    ensures NoRepeats(s)
  {
    if s != [] {
      DistinctNoRepeats(s[..|s| - 1]);
    }
  }
}
