/** In-place edits the plugins make to postings and their metadata, stated on
    values: `del meta[key]` for a list of keys, and `postings.remove(p)` after `p`
    was changed in place. */
module PostingEdits {
  import opened Results
  import opened Ledger

  /** The names of a key list. */
  function KeySet(names: seq<string>): (r: set<string>)
    ensures forall i :: 0 <= i < |names| ==> names[i] in r
    ensures forall k :: k in r ==> k in names
  {
    if |names| == 0 then {} else KeySet(names[..|names| - 1]) + {names[|names| - 1]}
  }

  /** `del meta[name]` for each name in turn; a name already gone is a KeyError. */
  function DeleteAll(meta: Meta, names: seq<string>): (r: Result<Meta>)
    ensures r.Ok? ==> r.value == meta - KeySet(names)
    ensures r.Ok? <==> (forall i :: 0 <= i < |names| ==> names[i] in meta)
                       && (forall i, j :: 0 <= i < j < |names| ==> names[i] != names[j])
  {
    if |names| == 0 then Ok(meta)
    else
      var front :- DeleteAll(meta, names[..|names| - 1]);
      var k := names[|names| - 1];
      if k !in front then Err("KeyError: " + k)
      else Ok(front - {k})
  }

  /** Every posting equal to `p` replaced by `s`: the list as the source sees it
      once the relevant posting's metadata is changed in place. */
  function Replace(ps: seq<Posting>, p: Posting, s: Posting): (r: seq<Posting>)
    ensures |r| == |ps| && forall i :: 0 <= i < |ps| ==> r[i] == if ps[i] == p then s else ps[i]
  {
    seq(|ps|, i requires 0 <= i < |ps| => if ps[i] == p then s else ps[i])
  }

  lemma ReplaceSum(ps: seq<Posting>, p: Posting, s: Posting, c: Currency)
    requires s.units == p.units
    ensures CurrencySum(Replace(ps, p, s), c) == CurrencySum(ps, c)
    decreases |ps|
  {
    if |ps| > 0 {
      var n := |ps| - 1;
      assert Replace(ps, p, s)[..n] == Replace(ps[..n], p, s);
      ReplaceSum(ps[..n], p, s, c);
    }
  }

  /** Taking out the relevant posting, as changed in place, and appending a
      transfer of the same units keeps every currency's total. */
  lemma RemoveReplacedSum(ps: seq<Posting>, p: Posting, s: Posting, account: Account, c: Currency)
    requires p in ps && s.units == p.units
    ensures CurrencySum(RemoveFirst(Replace(ps, p, s), s) + [PlainPosting(account, p.units.number, p.units.currency)], c) == CurrencySum(ps, c)
  {
    var replaced := Replace(ps, p, s);
    var i :| 0 <= i < |ps| && ps[i] == p;
    assert replaced[i] == s;
    ReplaceSum(ps, p, s, c);
    CurrencySumRemoveFirst(replaced, s, c);
    CurrencySumConcat(RemoveFirst(replaced, s), [PlainPosting(account, p.units.number, p.units.currency)], c);
    assert CurrencySum([s], c) == CurrencySum([PlainPosting(account, p.units.number, p.units.currency)], c) by {
      CurrencySumCons(s, [], c);
      CurrencySumCons(PlainPosting(account, p.units.number, p.units.currency), [], c);
      assert [s] + [] == [s];
      assert [PlainPosting(account, p.units.number, p.units.currency)] + [] == [PlainPosting(account, p.units.number, p.units.currency)];
    }
  }

  /** A posting and the transfer of its negated units balance. */
  lemma PairBalanced(s: Posting, account: Account)
    ensures Balanced([s, PlainPosting(account, -s.units.number, s.units.currency)])
  {
    var q := PlainPosting(account, -s.units.number, s.units.currency);
    forall c: Currency
      ensures CurrencySum([s, q], c) == 0.0
    {
      assert [s, q] == [s] + [q] && [q] == [q] + [];
      CurrencySumCons(s, [q], c);
      CurrencySumCons(q, [], c);
    }
  }

  /** Removing the replacement of the only copy of `p` removes `p`. */
  lemma {:induction false} ReplaceThenRemove(ps: seq<Posting>, p: Posting, s: Posting)
    requires p in ps && forall i :: 0 <= i < |ps| ==> ps[i] != s
    requires forall i, j :: 0 <= i < j < |ps| && ps[i] == p ==> ps[j] != p
    ensures RemoveFirst(Replace(ps, p, s), s) == RemoveFirst(ps, p)
    decreases |ps|
  {
    var x, rest := ps[0], ps[1..];
    assert ps == [x] + rest;
    var tail := Replace(rest, p, s);
    ReplaceCons(x, rest, p, s);
    RemoveFirstCons(x, rest, p);
    if x != p {
      RemoveFirstCons(x, tail, s);
      TailFacts(ps, p, s);
      ReplaceThenRemove(rest, p, s);
    } else {
      RemoveFirstCons(s, tail, s);
      ReplaceAbsent(ps, p, s);
    }
  }

  lemma ReplaceCons(x: Posting, rest: seq<Posting>, p: Posting, s: Posting)
    ensures Replace([x] + rest, p, s) == [if x == p then s else x] + Replace(rest, p, s)
  {
    var l, r := Replace([x] + rest, p, s), [if x == p then s else x] + Replace(rest, p, s);
    assert |l| == |r|;
    forall i | 0 <= i < |l| ensures l[i] == r[i] {
      if i > 0 {
        assert ([x] + rest)[i] == rest[i - 1];
      }
    }
  }

  lemma RemoveFirstCons(x: Posting, rest: seq<Posting>, q: Posting)
    ensures RemoveFirst([x] + rest, q) == if x == q then rest else [x] + RemoveFirst(rest, q)
  {
    assert ([x] + rest)[0] == x && ([x] + rest)[1..] == rest;
  }

  /** Past a first posting other than `p`, the rest still holds `p` once and `s` nowhere. */
  lemma TailFacts(ps: seq<Posting>, p: Posting, s: Posting)
    requires |ps| > 0 && ps[0] != p && p in ps && forall i :: 0 <= i < |ps| ==> ps[i] != s
    requires forall i, j :: 0 <= i < j < |ps| && ps[i] == p ==> ps[j] != p
    ensures p in ps[1..] && forall i :: 0 <= i < |ps[1..]| ==> ps[1..][i] != s
    ensures forall i, j :: 0 <= i < j < |ps[1..]| && ps[1..][i] == p ==> ps[1..][j] != p
  {
    assert ps == [ps[0]] + ps[1..];
    forall i, j | 0 <= i < j < |ps[1..]| && ps[1..][i] == p ensures ps[1..][j] != p {
      assert ps[1..][i] == ps[i + 1] && ps[1..][j] == ps[j + 1];
    }
  }

  /** When `p` comes first and only there, replacing it leaves the rest as it was. */
  lemma ReplaceAbsent(ps: seq<Posting>, p: Posting, s: Posting)
    requires |ps| > 0 && ps[0] == p
    requires forall i, j :: 0 <= i < j < |ps| && ps[i] == p ==> ps[j] != p
    ensures Replace(ps[1..], p, s) == ps[1..]
  {
    var r := Replace(ps[1..], p, s);
    forall i | 0 <= i < |r| ensures r[i] == ps[1..][i] {
      assert ps[1..][i] == ps[i + 1] != p;
    }
  }

  /** The deletions, one key at a time. */
  method DeleteEach(meta: Meta, names: seq<string>) returns (r: Result<Meta>)
    ensures r == DeleteAll(meta, names)
  {
    var m := meta;
    var i := 0;
    while i < |names|
      invariant 0 <= i <= |names|
      invariant DeleteAll(meta, names[..i]) == Ok(m)
    {
      DeleteAllStep(meta, names, i, m);
      if names[i] !in m {
        DeleteAllPrefixErr(meta, names, i + 1);
        return Err("KeyError: " + names[i]);
      }
      m := m - {names[i]};
      i := i + 1;
    }
    assert names[..i] == names;
    r := Ok(m);
  }

  lemma DeleteAllStep(meta: Meta, names: seq<string>, i: nat, m: Meta)
    requires i < |names| && DeleteAll(meta, names[..i]) == Ok(m)
    ensures DeleteAll(meta, names[..i + 1]) == if names[i] !in m then Err("KeyError: " + names[i]) else Ok(m - {names[i]})
  {
    assert names[..i + 1][..i] == names[..i];
  }

  lemma {:induction false} DeleteAllPrefixErr(meta: Meta, names: seq<string>, k: nat)
    requires k <= |names| && DeleteAll(meta, names[..k]).Err?
    ensures DeleteAll(meta, names) == Err(DeleteAll(meta, names[..k]).error)
    decreases |names| - k
  {
    if k < |names| {
      assert names[..k + 1][..k] == names[..k];
      DeleteAllPrefixErr(meta, names, k + 1);
    } else {
      assert names[..k] == names;
    }
  }
}
