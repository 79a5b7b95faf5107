/** Sorted sequences of distinct numbers. */
module Sorting {
  predicate Ascending(s: seq<int>) {
    forall i, j :: 0 <= i < j < |s| ==> s[i] < s[j]
  }

  function Insert(x: int, s: seq<int>): (r: seq<int>)
    requires Ascending(s)
    ensures Ascending(r)
    ensures forall y :: y in r <==> y == x || y in s
  {
    if s == [] || x < s[0] then [x] + s
    else if x == s[0] then s
    else
      assert Ascending(s[1..]) && s == [s[0]] + s[1..];
      var r := Insert(x, s[1..]);
      assert forall i :: 0 <= i < |r| ==> r[i] in r && s[0] < r[i];
      [s[0]] + r
  }

  /** The numbers in ascending order, each once. */
  function Sorted(ns: seq<int>): (r: seq<int>)
    ensures Ascending(r)
    ensures forall n :: n in r <==> n in ns
  {
    if ns == [] then []
    else
      var init, last := ns[..|ns| - 1], ns[|ns| - 1];
      assert ns == init + [last];
      Insert(last, Sorted(init))
  }

  lemma {:induction false} InsertLast(x: int, s: seq<int>)
    requires Ascending(s) && forall k :: 0 <= k < |s| ==> s[k] < x
    ensures Insert(x, s) == s + [x]
  {
    if s != [] {
      InsertLast(x, s[1..]);
      assert s == [s[0]] + s[1..];
    }
  }

  lemma {:induction false} AscendingIsSorted(ns: seq<int>)
    requires Ascending(ns)
    ensures Sorted(ns) == ns
  {
    if ns != [] {
      var init := ns[..|ns| - 1];
      AscendingIsSorted(init);
      InsertLast(ns[|ns| - 1], init);
    }
  }

  lemma {:induction false} InsertLength(x: int, s: seq<int>)
    requires Ascending(s) && x !in s
    ensures |Insert(x, s)| == |s| + 1
  {
    if s != [] && x > s[0] { InsertLength(x, s[1..]); }
  }

  lemma {:induction false} SortedLength(ns: seq<int>)
    requires forall j, k :: 0 <= j < k < |ns| ==> ns[j] != ns[k]
    ensures |Sorted(ns)| == |ns|
  {
    if ns != [] {
      SortedLength(ns[..|ns| - 1]);
      InsertLength(ns[|ns| - 1], Sorted(ns[..|ns| - 1]));
    }
  }
}
