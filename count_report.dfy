/**
 * The order of the per-class image count report that both `dataset.py` and
 * `train_model.py` print: `sorted(counts.items(), key=lambda x: x[1],
 * reverse=True)`. Python's sort is stable, and `reverse=True` keeps that
 * stability, so classes with equal counts stay in the dict's order.
 */
module CountReport {

  type Count = (string, nat)

  /** Put `x` behind every entry whose count is at least its own. */
  function InsertByCount(sorted: seq<Count>, x: Count): seq<Count>
  {
    if sorted == [] then [x]
    else if sorted[0].1 >= x.1 then [sorted[0]] + InsertByCount(sorted[1..], x)
    else [x] + sorted
  }

  /** The report order of `items`. */
  function ByCountDescending(items: seq<Count>): seq<Count>
  {
    if items == [] then []
    else InsertByCount(ByCountDescending(items[..|items| - 1]), items[|items| - 1])
  }

  predicate Descending(s: seq<Count>)
  {
    forall i, j :: 0 <= i < j < |s| ==> s[i].1 >= s[j].1
  }

  /** The entries of `s` with count `n`, in their order in `s`. */
  function WithCount(s: seq<Count>, n: nat): seq<Count>
  {
    if s == [] then []
    else WithCount(s[..|s| - 1], n) + (if s[|s| - 1].1 == n then [s[|s| - 1]] else [])
  }

  lemma {:induction false} WithCountAppend(a: seq<Count>, b: seq<Count>, n: nat)
    ensures WithCount(a + b, n) == WithCount(a, n) + WithCount(b, n)
    decreases |b|
  {
    if b != [] {
      assert (a + b)[..|a + b| - 1] == a + b[..|b| - 1];
      WithCountAppend(a, b[..|b| - 1], n);
    } else {
      assert a + b == a;
    }
  }

  lemma {:induction false} WithCountNone(s: seq<Count>, n: nat)
    requires forall e :: e in s ==> e.1 != n
    ensures WithCount(s, n) == []
    decreases |s|
  {
    if s != [] {
      assert forall e :: e in s[..|s| - 1] ==> e in s;
      WithCountNone(s[..|s| - 1], n);
    }
  }

  lemma {:induction false} InsertByCountMultiset(sorted: seq<Count>, x: Count)
    ensures multiset(InsertByCount(sorted, x)) == multiset(sorted) + multiset{x}
    decreases |sorted|
  {
    if sorted != [] && sorted[0].1 >= x.1 {
      assert sorted == [sorted[0]] + sorted[1..];
      InsertByCountMultiset(sorted[1..], x);
    }
  }

  lemma {:induction false} InsertByCountDescending(sorted: seq<Count>, x: Count)
    requires Descending(sorted)
    ensures Descending(InsertByCount(sorted, x))
    decreases |sorted|
  {
    if sorted != [] && sorted[0].1 >= x.1 {
      var rest := sorted[1..];
      InsertByCountDescending(rest, x);
      InsertByCountMultiset(rest, x);
      var r' := InsertByCount(rest, x);
      forall e | e in r'
        ensures sorted[0].1 >= e.1
      {
        assert e in multiset(r');
        assert e in rest || e == x;
      }
      assert InsertByCount(sorted, x) == [sorted[0]] + r';
    }
  }

  lemma {:induction false} InsertByCountStable(sorted: seq<Count>, x: Count, n: nat)
    requires Descending(sorted)
    ensures WithCount(InsertByCount(sorted, x), n) == WithCount(sorted, n) + (if x.1 == n then [x] else [])
    decreases |sorted|
  {
    if sorted == [] {
      assert [x][..0] == [];
    } else if sorted[0].1 >= x.1 {
      var rest := sorted[1..];
      assert sorted == [sorted[0]] + rest;
      InsertByCountStable(rest, x, n);
      WithCountAppend([sorted[0]], InsertByCount(rest, x), n);
      WithCountAppend([sorted[0]], rest, n);
    } else {
      WithCountAppend([x], sorted, n);
      assert [x][..0] == [];
      if x.1 == n {
        assert forall i :: 0 <= i < |sorted| ==> sorted[i].1 < x.1;
        WithCountNone(sorted, n);
      }
    }
  }

  /**
   * The report lists every class once with its count (a permutation of the
   * items), in descending order of count, and classes with the same count
   * in the order the items had: the stable descending sort.
   */
  lemma {:induction false} ByCountDescendingSpec(items: seq<Count>)
    ensures var r := ByCountDescending(items);
      && Descending(r)
      && multiset(r) == multiset(items)
      && forall n :: WithCount(r, n) == WithCount(items, n)
    decreases |items|
  {
    if items != [] {
      var init := items[..|items| - 1];
      var x := items[|items| - 1];
      ByCountDescendingSpec(init);
      InsertByCountDescending(ByCountDescending(init), x);
      InsertByCountMultiset(ByCountDescending(init), x);
      forall n
        ensures WithCount(ByCountDescending(items), n) == WithCount(items, n)
      {
        InsertByCountStable(ByCountDescending(init), x, n);
      }
      assert items == init + [x];
    }
  }
}
