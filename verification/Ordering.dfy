/** Sorting of numbers, as the benchmark script's calls to `sorted` perform it. */
module Ordering {

  ghost predicate IsAscending(s: seq<real>) {
    forall i, j :: 0 <= i < j < |s| ==> s[i] <= s[j]
  }

  ghost predicate IsDescending(s: seq<real>) {
    forall i, j :: 0 <= i < j < |s| ==> s[i] >= s[j]
  }

  function Insert(x: real, s: seq<real>): (r: seq<real>)
    requires IsAscending(s)
    ensures IsAscending(r)
    ensures |r| == |s| + 1 && (r[0] == x || (s != [] && r[0] == s[0]))
    ensures multiset(r) == multiset(s) + multiset{x}
  {
    if s == [] || x <= s[0] then
      [x] + s
    else
      assert s == [s[0]] + s[1..];
      [s[0]] + Insert(x, s[1..])
  }

  function Ascending(s: seq<real>): (r: seq<real>)
    ensures IsAscending(r)
    ensures multiset(r) == multiset(s)
    ensures |r| == |s|
  {
    if s == [] then
      []
    else
      assert s == [s[0]] + s[1..];
      var r := Insert(s[0], Ascending(s[1..]));
      assert |multiset(r)| == |r| && |multiset(s)| == |s|;
      r
  }

  function Reverse(s: seq<real>): (r: seq<real>)
    ensures |r| == |s|
    ensures forall i :: 0 <= i < |s| ==> r[i] == s[|s| - 1 - i]
    ensures multiset(r) == multiset(s)
  {
    if s == [] then
      []
    else
      assert s == [s[0]] + s[1..];
      Reverse(s[1..]) + [s[0]]
  }

  /** `sorted(values, reverse=True)` */
  function Descending(s: seq<real>): (r: seq<real>)
    ensures IsDescending(r)
    ensures multiset(r) == multiset(s)
    ensures |r| == |s|
  {
    Reverse(Ascending(s))
  }

  /** An ascending arrangement is determined by its elements alone. */
  lemma {:induction false} AscendingIsUnique(a: seq<real>, b: seq<real>)
    requires IsAscending(a) && IsAscending(b)
    requires multiset(a) == multiset(b)
    ensures a == b
  {
    SameSize(a, b);
    if a == [] {
    } else {
      FirstAndRest(a);
      FirstAndRest(b);
      LeastIsFirst(a, b[0]);
      LeastIsFirst(b, a[0]);
      RestsAgree(a, b);
      AscendingIsUnique(a[1..], b[1..]);
    }
  }

  lemma SameSize(a: seq<real>, b: seq<real>)
    requires multiset(a) == multiset(b)
    ensures |a| == |b|
  {
    assert |a| == |multiset(a)| == |multiset(b)| == |b|;
  }

  lemma RestsAgree(a: seq<real>, b: seq<real>)
    requires a != [] && b != [] && a[0] == b[0]
    requires multiset(a) == multiset(b)
    ensures multiset(a[1..]) == multiset(b[1..])
  {
    assert a == [a[0]] + a[1..] && b == [b[0]] + b[1..];
    assert multiset(a[1..]) == multiset(a) - multiset{a[0]};
  }

  lemma FirstAndRest(s: seq<real>)
    requires s != [] && IsAscending(s)
    ensures IsAscending(s[1..])
    ensures s == [s[0]] + s[1..]
    ensures multiset(s) == multiset{s[0]} + multiset(s[1..])
    ensures s[0] in multiset(s)
  {
  }

  lemma LeastIsFirst(s: seq<real>, x: real)
    requires IsAscending(s) && x in multiset(s)
    ensures s[0] <= x
  {
  }
}
