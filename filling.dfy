// The filling wrappers: a simple posting whose amount is replaced by the sum of
// the numbers handed to it, and a target posting that delegates to such a wrapper.

module Filling {
  import opened Ledger

  /** The sum of a sequence of numbers, added left to right. */
  function Sum(ns: seq<real>): real {
    if |ns| == 0 then 0.0 else Sum(ns[..|ns| - 1]) + ns[|ns| - 1]
  }

  /** The posting emitted for accumulated `number`: the same posting with its units
      number replaced and everything else kept. */
  function Filled(p: Posting, number: real): (r: Posting)
    ensures r.units == Amount(number, p.units.currency)
    ensures r.account == p.account && r.cost == p.cost && r.price == p.price
    ensures r.flag == p.flag && r.meta == p.meta
  {
    p.(units := Amount(number, p.units.currency))
  }

  lemma {:induction false} SumConcat(a: seq<real>, b: seq<real>)
    ensures Sum(a + b) == Sum(a) + Sum(b)
    decreases |b|
  {
    if |b| == 0 {
      assert a + b == a;
    } else {
      var n := |b| - 1;
      assert (a + b)[..|a + b| - 1] == a + b[..n];
      SumConcat(a, b[..n]);
    }
  }

  /** The order in which numbers are added does not matter: any two orders of the
      same numbers give the same total. */
  lemma {:induction false} SumPermutation(a: seq<real>, b: seq<real>)
    requires multiset(a) == multiset(b)
    ensures Sum(a) == Sum(b)
    decreases |a|
  {
    if |a| == 0 {
      assert |b| == |multiset(b)| == 0;
    } else {
      var n := |a| - 1;
      var x := a[n];
      assert x in multiset(b) by { assert a == a[..n] + [x]; }
      var i :| 0 <= i < |b| && b[i] == x;
      var rest := b[..i] + b[i + 1..];
      assert b == b[..i] + [x] + b[i + 1..];
      assert a == a[..n] + [x];
      assert multiset(a[..n]) == multiset(rest) by {
        assert multiset(a) == multiset(a[..n]) + multiset{x};
        assert multiset(b) == multiset(b[..i]) + multiset{x} + multiset(b[i + 1..]);
        assert multiset(rest) == multiset(b[..i]) + multiset(b[i + 1..]);
        assert multiset(a[..n]) == multiset(a) - multiset{x};
        assert multiset(rest) == multiset(b) - multiset{x};
      }
      SumPermutation(a[..n], rest);
      SumConcat(b[..i] + [x], b[i + 1..]);
      SumConcat(b[..i], [x]);
      SumConcat(b[..i], b[i + 1..]);
      assert Sum([x]) == x by { assert [x][..0] == []; }
    }
  }

  /** `filling.SimplePostingWrapper`: an accumulator that starts at zero. */
  class SimplePostingWrapper {
    const posting: Posting
    var number: real

    constructor (posting: Posting)
      ensures this.posting == posting && number == 0.0
    {
      this.posting := posting;
      number := 0.0;
    }

    /** `add_number`: the accumulator grows by `n`. */
    method AddNumber(n: real)
      modifies this
      ensures number == old(number) + n
    {
      number := number + n;
    }

    /** `get_postings`: exactly one posting carrying the accumulated number. */
    method GetPostings() returns (r: seq<Posting>)
      ensures r == [Filled(posting, number)]
    {
      r := [Filled(posting, number)];
    }
  }

  /** After a wrapper is given numbers `ns` in order, it holds their sum. */
  method FillAll(w: SimplePostingWrapper, ns: seq<real>)
    modifies w
    ensures w.number == old(w.number) + Sum(ns)
  {
    var i := 0;
    while i < |ns|
      invariant 0 <= i <= |ns|
      invariant w.number == old(w.number) + Sum(ns[..i])
    {
      assert ns[..i + 1][..i] == ns[..i];
      w.AddNumber(ns[i]);
      i := i + 1;
    }
    assert ns[..i] == ns;
  }

  /** `filling.TargetPostingWrapper`: the ids it was built with, and an inner simple
      wrapper on the same posting that does the accumulating. */
  class TargetPostingWrapper {
    const posting: Posting
    const ids: seq<int>
    const inner: SimplePostingWrapper

    /** The inner wrapper is built on the target's own posting. */
    predicate Valid() {
      inner.posting == posting
    }

    constructor (posting: Posting, ids: seq<int>)
      ensures Valid() && this.posting == posting && this.ids == ids
      ensures fresh(inner) && inner.posting == posting && inner.number == 0.0
    {
      this.posting := posting;
      this.ids := ids;
      inner := new SimplePostingWrapper(posting);
    }

    /** `get_ids`: the constructor's ids. */
    function GetIds(): (r: seq<int>)
      ensures r == ids
    {
      ids
    }

    /** `add_number`: delegated to the inner wrapper. */
    method AddNumber(n: real)
      modifies inner
      ensures inner.number == old(inner.number) + n
    {
      inner.AddNumber(n);
    }

    /** `get_postings`: the inner wrapper's single posting, on the target's account. */
    method GetPostings() returns (r: seq<Posting>)
      requires Valid()
      ensures r == [Filled(posting, inner.number)]
    {
      r := inner.GetPostings();
    }
  }
}
