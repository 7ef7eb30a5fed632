/** Sequences without repetitions, subsequences and sizes of sets, shared by several components. */
module Sequences {
  predicate Distinct<T(==)>(s: seq<T>) {
    forall i, j :: 0 <= i < j < |s| ==> s[i] != s[j]
  }

  /** The elements in first-come order, each once. */
  function FirstOccurrences<T(==)>(s: seq<T>): seq<T> {
    if s == [] then []
    else
      var init := s[..|s| - 1];
      var last := s[|s| - 1];
      FirstOccurrences(init) + (if last in init then [] else [last])
  }

  /** The elements that are in `keep`, in their order. */
  function Select<T(==)>(s: seq<T>, keep: set<T>): seq<T> {
    if s == [] then []
    else
      var rest := Select(s[..|s| - 1], keep);
      if s[|s| - 1] in keep then rest + [s[|s| - 1]] else rest
  }

  /** The position where `x` first occurs. */
  function FirstIndex<T(==)>(s: seq<T>, x: T): (i: nat)
    requires x in s
    ensures i < |s| && s[i] == x && x !in s[..i]
  {
    if s[0] == x then 0
    else
      assert forall k :: 1 <= k < |s| ==> s[1..][k - 1] == s[k];
      1 + FirstIndex(s[1..], x)
  }

  lemma {:induction false} FirstIndexIs<T>(s: seq<T>, x: T, i: nat)
    requires i < |s| && s[i] == x
    requires forall k :: 0 <= k < i ==> s[k] != x
    ensures FirstIndex(s, x) == i
  {
    if i > 0 {
      FirstIndexIs(s[1..], x, i - 1);
    }
  }

  lemma FirstIndexOfPrefix<T>(s: seq<T>, more: seq<T>, x: T)
    requires x in s
    ensures x in s + more && FirstIndex(s + more, x) == FirstIndex(s, x)
  {
    var j := FirstIndex(s, x);
    assert (s + more)[j] == x;
    forall k | 0 <= k < j ensures (s + more)[k] != x {
      assert s[..j][k] in s[..j];
    }
    FirstIndexIs(s + more, x, j);
  }

  lemma SplitLast<T>(a: seq<T>, s: seq<T>)
    requires s != []
    ensures a + s == a + s[..|s| - 1] + [s[|s| - 1]]
  {
  }

  lemma InTail<T>(head: seq<T>, tail: seq<T>, k: nat)
    requires k < |tail|
    ensures tail[k] in head + tail
  {
    assert (head + tail)[|head| + k] == tail[k];
  }

  lemma PrefixStep<T>(a: seq<T>, s: seq<T>, i: nat)
    requires i < |s|
    ensures a + s[..i + 1] == a + s[..i] + [s[i]]
  {
  }

  /** Nothing is lost, nothing is repeated. */
  lemma {:induction false} FirstOccurrencesIsASet<T>(s: seq<T>)
    ensures Distinct(FirstOccurrences(s))
    ensures forall x :: x in FirstOccurrences(s) <==> x in s
    ensures forall i :: 0 <= i < |FirstOccurrences(s)| ==> FirstOccurrences(s)[i] in s
  {
    if s != [] {
      var init := s[..|s| - 1];
      assert s == init + [s[|s| - 1]];
      FirstOccurrencesIsASet(init);
    }
  }

  /** The order is that of the first occurrences. */
  lemma {:induction false} FirstOccurrencesKeepOrder<T>(s: seq<T>, p: nat, q: nat)
    requires p < q < |FirstOccurrences(s)|
    ensures var d := FirstOccurrences(s);
            d[p] in s && d[q] in s && FirstIndex(s, d[p]) < FirstIndex(s, d[q])
  {
    var init, last := s[..|s| - 1], s[|s| - 1];
    var d := FirstOccurrences(s);
    assert s == init + [last];
    FirstOccurrencesIsASet(init);
    assert d[p] in init;
    FirstIndexOfPrefix(init, [last], d[p]);
    if q < |FirstOccurrences(init)| {
      FirstOccurrencesKeepOrder(init, p, q);
      FirstIndexOfPrefix(init, [last], d[q]);
    } else {
      assert d[q] == last && last !in init;
      assert forall k :: 0 <= k < |init| ==> init[k] in init && s[k] == init[k];
    }
  }

  lemma {:induction false} DistinctIsUnchanged<T>(s: seq<T>)
    requires Distinct(s)
    ensures FirstOccurrences(s) == s
  {
    if s != [] {
      var init, last := s[..|s| - 1], s[|s| - 1];
      assert s == init + [last];
      assert last !in init;
      DistinctIsUnchanged(init);
    }
  }

  lemma FirstOccurrencesStep<T>(s: seq<T>, x: T)
    ensures FirstOccurrences(s + [x])
            == FirstOccurrences(s) + (if x in FirstOccurrences(s) then [] else [x])
  {
    assert (s + [x])[..|s|] == s;
    FirstOccurrencesIsASet(s);
  }

  lemma SelectStep<T>(s: seq<T>, x: T, keep: set<T>)
    ensures Select(s + [x], keep) == Select(s, keep) + (if x in keep then [x] else [])
  {
    assert (s + [x])[..|s|] == s;
  }

  lemma {:induction false} SelectHolds<T>(s: seq<T>, keep: set<T>)
    ensures forall x :: x in Select(s, keep) <==> x in s && x in keep
    ensures forall i :: 0 <= i < |Select(s, keep)| ==> Select(s, keep)[i] in s
    ensures Distinct(s) ==> Distinct(Select(s, keep))
    ensures |Select(s, keep)| <= |s|
  {
    if s != [] {
      var init, last := s[..|s| - 1], s[|s| - 1];
      assert s == init + [last];
      SelectHolds(init, keep);
      if Distinct(s) {
        assert last !in init;
      }
    }
  }

  /** Selecting twice is selecting the common part. */
  lemma {:induction false} SelectTwice<T>(s: seq<T>, a: set<T>, b: set<T>)
    ensures Select(Select(s, a), b) == Select(s, a * b)
  {
    if s != [] {
      var init, last := s[..|s| - 1], s[|s| - 1];
      SelectTwice(init, a, b);
      SelectStep(Select(init, a), last, b);
    }
  }

  /** Selection and first occurrences commute. */
  lemma {:induction false} SelectOfFirst<T>(s: seq<T>, keep: set<T>)
    ensures Select(FirstOccurrences(s), keep) == FirstOccurrences(Select(s, keep))
  {
    if s != [] {
      var init, last := s[..|s| - 1], s[|s| - 1];
      assert s == init + [last];
      SelectOfFirst(init, keep);
      FirstOccurrencesIsASet(init);
      SelectHolds(init, keep);
      if last in init {
        assert FirstOccurrences(s) == FirstOccurrences(init);
        if last in keep {
          FirstOccurrencesIsASet(Select(init, keep));
          FirstOccurrencesStep(Select(init, keep), last);
        }
      } else {
        SelectStep(FirstOccurrences(init), last, keep);
        if last in keep {
          FirstOccurrencesIsASet(Select(init, keep));
          FirstOccurrencesStep(Select(init, keep), last);
        }
      }
    }
  }

  lemma SubsetSize<T>(small: set<T>, large: set<T>)
    requires small <= large
    ensures |small| <= |large|
  {
    assert large == small + (large - small);
  }
}
