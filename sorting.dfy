/** `list.sort(key=...)` on string keys: a stable insertion sort of keyed entries, by
    Python's string order. */
module Sorting {
  import opened PyStrings

  /** Keys never decrease from left to right. */
  predicate SortedByKey<T>(xs: seq<(string, T)>)
  {
    forall i, j :: 0 <= i < j < |xs| ==> LexLe(xs[i].0, xs[j].0)
  }

  /** Places `x` after every entry whose key is not greater than its own, so entries
      with equal keys keep their order. */
  function Insert<T>(xs: seq<(string, T)>, x: (string, T)): (r: seq<(string, T)>)
    ensures |r| == |xs| + 1
    decreases |xs|
  {
    if xs == [] then [x]
    else if LexLe(xs[|xs| - 1].0, x.0) then xs + [x]
    else Insert(xs[..|xs| - 1], x) + [xs[|xs| - 1]]
  }

  /** The entries ordered by key; equal keys stay in their original order. */
  function SortByKey<T>(xs: seq<(string, T)>): (r: seq<(string, T)>)
    ensures SortedByKey(r)
    ensures |r| == |xs|
    decreases |xs|
  {
    if xs == [] then []
    else
      var rest := SortByKey(xs[..|xs| - 1]);
      InsertSorted(rest, xs[|xs| - 1]);
      Insert(rest, xs[|xs| - 1])
  }

  /** Every key of `xs` is at most `b`. */
  predicate KeysAtMost<T>(xs: seq<(string, T)>, b: string)
  {
    forall i :: 0 <= i < |xs| ==> LexLe(xs[i].0, b)
  }

  lemma {:induction false} InsertBound<T>(xs: seq<(string, T)>, x: (string, T), b: string)
    requires KeysAtMost(xs, b) && LexLe(x.0, b)
    ensures KeysAtMost(Insert(xs, x), b)
    decreases |xs|
  {
    if xs != [] && !LexLe(xs[|xs| - 1].0, x.0) {
      InsertBound(xs[..|xs| - 1], x, b);
    }
  }

  /** Inserting into a sorted list keeps it sorted. */
  lemma {:induction false} InsertSorted<T>(xs: seq<(string, T)>, x: (string, T))
    requires SortedByKey(xs)
    ensures SortedByKey(Insert(xs, x))
    decreases |xs|
  {
    if xs != [] {
      var init, last := xs[..|xs| - 1], xs[|xs| - 1];
      if LexLe(last.0, x.0) {
        forall i | 0 <= i < |xs| - 1 ensures LexLe(xs[i].0, x.0) {
          LexLeTransitive(xs[i].0, last.0, x.0);
        }
      } else {
        InsertSorted(init, x);
        LexLeTotal(last.0, x.0);
        InsertBound(init, x, last.0);
      }
    }
  }

  /** The entries without their keys. */
  function Items<T>(xs: seq<(string, T)>): (r: seq<T>)
    ensures |r| == |xs| && forall i :: 0 <= i < |xs| ==> r[i] == xs[i].1
  {
    seq(|xs|, i requires 0 <= i < |xs| => xs[i].1)
  }

  lemma {:induction false} InsertItems<T>(xs: seq<(string, T)>, x: (string, T))
    ensures multiset(Items(Insert(xs, x))) == multiset(Items(xs)) + multiset{x.1}
    decreases |xs|
  {
    if xs == [] {
    } else if LexLe(xs[|xs| - 1].0, x.0) {
      assert Items(xs + [x]) == Items(xs) + [x.1];
    } else {
      var init, last := xs[..|xs| - 1], xs[|xs| - 1];
      InsertItems(init, x);
      assert Items(Insert(init, x) + [last]) == Items(Insert(init, x)) + [last.1];
      assert Items(xs) == Items(init) + [last.1];
    }
  }

  /** Sorting keeps every item, as often as it occurs: the sorted list is a
      permutation of the input. */
  lemma {:induction false} SortPermutes<T>(xs: seq<(string, T)>)
    ensures multiset(Items(SortByKey(xs))) == multiset(Items(xs))
    decreases |xs|
  {
    if xs != [] {
      var init, last := xs[..|xs| - 1], xs[|xs| - 1];
      SortPermutes(init);
      InsertItems(SortByKey(init), last);
      assert Items(xs) == Items(init) + [last.1];
    }
  }

  lemma {:induction false} InsertMembers<T>(xs: seq<(string, T)>, x: (string, T), e: (string, T))
    requires e in Insert(xs, x)
    ensures e in xs || e == x
    decreases |xs|
  {
    if xs != [] && !LexLe(xs[|xs| - 1].0, x.0) {
      var init := xs[..|xs| - 1];
      if e in Insert(init, x) {
        InsertMembers(init, x, e);
      }
    }
  }

  /** Sorting adds no entry: every entry of the result is one of the input's, key and
      item together. */
  lemma {:induction false} SortMembers<T>(xs: seq<(string, T)>, e: (string, T))
    requires e in SortByKey(xs)
    ensures e in xs
    decreases |xs|
  {
    if xs != [] {
      var init, last := xs[..|xs| - 1], xs[|xs| - 1];
      InsertMembers(SortByKey(init), last, e);
      if e != last {
        SortMembers(init, e);
      }
    }
  }
}
