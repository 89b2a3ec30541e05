/** Facts about sequence concatenation, and what it means for a list to be filtered
    out of another, stated once over an element type so that the proofs that need
    them do not restate them over the ledger's entities. */
module Seqs {

  lemma Assoc<T>(x: seq<T>, y: seq<T>, z: seq<T>)
    ensures (x + y) + z == x + (y + z)
  {
  }

  /** Leaving out index `j + 1` of `[x] + t` is `x` before `t` without index `j`. */
  lemma SkipCons<T>(x: T, t: seq<T>, j: nat)
    requires j < |t|
    ensures [x] + (t[..j] + t[j + 1..]) == ([x] + t)[..j + 1] + ([x] + t)[j + 2..]
  {
    assert ([x] + t)[..j + 1] == [x] + t[..j];
    assert ([x] + t)[j + 2..] == t[j + 1..];
  }

  lemma IndexSnoc<T>(xs: seq<T>, x: T, i: nat)
    requires i < |xs|
    ensures (xs + [x])[i] == xs[i]
  {
  }

  /** `r` is `[x for x in s if keep(x)]`: `idx` lists, strictly ascending, the
      positions of `s` the elements of `r` come from, and those are exactly the
      positions whose element is kept. */
  ghost predicate FilteredAt<T>(r: seq<T>, s: seq<T>, keep: T -> bool, idx: seq<nat>) {
    |idx| == |r|
    && (forall k :: 0 <= k < |idx| ==> idx[k] < |s| && s[idx[k]] == r[k])
    && (forall k1, k2 :: 0 <= k1 < k2 < |idx| ==> idx[k1] < idx[k2])
    && (forall i :: 0 <= i < |s| ==> (keep(s[i]) <==> i in idx))
  }

  ghost predicate Filtered<T>(r: seq<T>, s: seq<T>, keep: T -> bool) {
    exists idx: seq<nat> :: FilteredAt(r, s, keep, idx)
  }

  lemma FilteredEmpty<T>(keep: T -> bool)
    ensures Filtered([], [], keep)
  {
    assert FilteredAt([], [], keep, []);
  }

  lemma FilteredSnocAt<T>(r: seq<T>, s: seq<T>, keep: T -> bool, x: T, idx: seq<nat>)
    requires FilteredAt(r, s, keep, idx)
    ensures keep(x) ==> FilteredAt(r + [x], s + [x], keep, idx + [|s|])
    ensures !keep(x) ==> FilteredAt(r, s + [x], keep, idx)
  {
    assert forall i :: 0 <= i < |s| ==> (s + [x])[i] == s[i];
    assert forall k :: 0 <= k < |idx| ==> idx[k] < |s|;
    if keep(x) {
      var idx' := idx + [|s|];
      assert forall k :: 0 <= k < |idx| ==> idx'[k] == idx[k];
      assert forall i :: 0 <= i < |s| ==> (i in idx' <==> i in idx);
      assert |s| in idx';
    } else {
      assert |s| !in idx;
    }
  }

  /** Filtering one more element keeps it exactly when `keep` does. */
  lemma FilteredSnoc<T>(r: seq<T>, s: seq<T>, keep: T -> bool, x: T)
    requires Filtered(r, s, keep)
    ensures Filtered(r + (if keep(x) then [x] else []), s + [x], keep)
  {
    var idx: seq<nat> :| FilteredAt(r, s, keep, idx);
    FilteredSnocAt(r, s, keep, x, idx);
    if keep(x) {
      assert FilteredAt(r + [x], s + [x], keep, idx + [|s|]);
    } else {
      assert r + [] == r;
      assert FilteredAt(r, s + [x], keep, idx);
    }
  }
}
