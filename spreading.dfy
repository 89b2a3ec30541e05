/** The accumulators of the spreading consolidator
    (posting_consolidators/spreading/): a wrapper collects the shares it is handed, one
    running total per key, and then rebuilds its posting as the original plus one
    posting per key on a sub-account, registering those sub-accounts with the
    consolidation registry. */
module Spreading {
  import opened Results
  import opened Ledger
  import Dicts
  import Consolidation
  import Distribution

  // ---------------------------------------------------------------------------
  // Running totals per key

  type Totals = Dicts.Dict<string, real>

  /** `numbers[key] = n` for a key not seen yet, `numbers[key] += n` otherwise. */
  function Accumulate(d: Totals, key: string, n: real): (r: Totals)
    ensures d.Valid() ==> r.Valid()
  {
    d.Put(key, if key in d.values then d.values[key] + n else n)
  }

  /** The totals after a sequence of adds, starting empty. */
  function TotalsOf(adds: seq<(string, real)>): (r: Totals)
    ensures r.Valid()
  {
    if |adds| == 0 then Dicts.Empty()
    else
      var n := |adds| - 1;
      Accumulate(TotalsOf(adds[..n]), adds[n].0, adds[n].1)
  }

  /** The sum of the numbers added under `key`. */
  function SumFor(adds: seq<(string, real)>, key: string): real {
    if |adds| == 0 then 0.0
    else
      var n := |adds| - 1;
      SumFor(adds[..n], key) + (if adds[n].0 == key then adds[n].1 else 0.0)
  }

  /** After any sequence of adds, the keys are exactly the keys that were added. */
  lemma {:induction false} TotalsKeys(adds: seq<(string, real)>)
    ensures forall k :: k in TotalsOf(adds).values <==> exists i :: 0 <= i < |adds| && adds[i].0 == k
  {
    if |adds| > 0 {
      var n := |adds| - 1;
      TotalsKeys(adds[..n]);
      var prev := TotalsOf(adds[..n]);
      forall k ensures k in TotalsOf(adds).values <==> exists i :: 0 <= i < |adds| && adds[i].0 == k {
        if k in prev.values {
          var i :| 0 <= i < n && adds[..n][i].0 == k;
          assert adds[i].0 == k;
        }
        if exists i :: 0 <= i < |adds| && adds[i].0 == k {
          var i :| 0 <= i < |adds| && adds[i].0 == k;
          if i < n { assert adds[..n][i].0 == k; }
        }
      }
    }
  }

  /** Each total is the sum of what was added under its key, so adds under one key
      never affect another's total, and the order of the adds does not matter. */
  lemma {:induction false} TotalsValues(adds: seq<(string, real)>)
    ensures forall k :: k in TotalsOf(adds).values ==> TotalsOf(adds).values[k] == SumFor(adds, k)
  {
    if |adds| > 0 {
      var n := |adds| - 1;
      TotalsValues(adds[..n]);
      TotalsKeys(adds[..n]);
      var prev := TotalsOf(adds[..n]);
      var key := adds[n].0;
      if key !in prev.values {
        assert forall i :: 0 <= i < n ==> adds[..n][i].0 != key;
        SumForAbsent(adds[..n], key);
      }
    }
  }

  /** The keys are kept in the order of their first add. */
  lemma {:induction false} TotalsOrder(adds: seq<(string, real)>)
    ensures forall i, j :: 0 <= i < j < |TotalsOf(adds).keys| ==>
      FirstAdd(adds, TotalsOf(adds).keys[i]) < FirstAdd(adds, TotalsOf(adds).keys[j])
  {
    if |adds| > 0 {
      var n := |adds| - 1;
      TotalsOrder(adds[..n]);
      var prev := TotalsOf(adds[..n]);
      PrevFirstAdds(adds);
      KeysInValues(prev);
      OrderStep(adds, prev.keys, prev.values, adds[n].0, TotalsOf(adds).keys);
    }
  }

  /** The keys of the totals before the last add are first added before it, at the
      same place; a key they lack is first added by the last add. */
  lemma PrevFirstAdds(adds: seq<(string, real)>)
    requires |adds| > 0
    ensures var n := |adds| - 1;
      (forall k :: k in TotalsOf(adds[..n]).values ==> FirstAdd(adds, k) == FirstAdd(adds[..n], k) < n)
      && (adds[n].0 !in TotalsOf(adds[..n]).values ==> FirstAdd(adds, adds[n].0) == n)
  {
    var n := |adds| - 1;
    var key := adds[n].0;
    TotalsKeys(adds[..n]);
    var prev := TotalsOf(adds[..n]);
    forall k | k in prev.values
      ensures FirstAdd(adds, k) == FirstAdd(adds[..n], k) < n
    {
      FirstAddPrefix(adds, n, k);
      FirstAddBound(adds[..n], k);
    }
    if key !in prev.values {
      forall i | 0 <= i < n ensures adds[i].0 != key {
        assert adds[i] == adds[..n][i];
      }
      FirstAddLast(adds, key);
    }
  }

  lemma KeysInValues(d: Totals)
    requires d.Valid()
    ensures forall i :: 0 <= i < |d.keys| ==> d.keys[i] in d.values
  {
    forall i | 0 <= i < |d.keys| ensures d.keys[i] in d.values {
      assert d.keys[i] in set k | k in d.keys;
    }
  }

  /** One more add keeps the first-add order: an existing key keeps its place and a
      new key, first added last, goes at the end. */
  lemma OrderStep(adds: seq<(string, real)>, keys: seq<string>, inPrev: map<string, real>, key: string, ks: seq<string>)
    requires |adds| > 0 && (forall i :: 0 <= i < |keys| ==> keys[i] in inPrev)
    requires forall i, j :: 0 <= i < j < |keys| ==>
      FirstAdd(adds[..|adds| - 1], keys[i]) < FirstAdd(adds[..|adds| - 1], keys[j])
    requires forall k :: k in inPrev ==> FirstAdd(adds, k) == FirstAdd(adds[..|adds| - 1], k) < |adds| - 1
    requires key !in inPrev ==> FirstAdd(adds, key) == |adds| - 1
    requires ks == if key in inPrev then keys else keys + [key]
    ensures forall i, j :: 0 <= i < j < |ks| ==> FirstAdd(adds, ks[i]) < FirstAdd(adds, ks[j])
  {
    if key in inPrev {
      forall i, j | 0 <= i < j < |keys|
        ensures FirstAdd(adds, keys[i]) < FirstAdd(adds, keys[j])
      {
        assert keys[i] in inPrev && keys[j] in inPrev;
      }
    } else {
      var m := |keys|;
      forall i, j | 0 <= i < j < m + 1
        ensures FirstAdd(adds, ks[i]) < FirstAdd(adds, ks[j])
      {
        assert ks[i] == keys[i] && keys[i] in inPrev;
        if j < m {
          assert ks[j] == keys[j] && keys[j] in inPrev;
        } else {
          assert ks[j] == key;
        }
      }
    }
  }

  /** The index of the first add under `key`, or the number of adds when there is none. */
  function FirstAdd(adds: seq<(string, real)>, key: string): (r: nat)
    ensures r <= |adds|
    ensures r < |adds| ==> adds[r].0 == key
    ensures forall i :: 0 <= i < r ==> adds[i].0 != key
  {
    if |adds| == 0 then 0
    else if adds[0].0 == key then 0
    else 1 + FirstAdd(adds[1..], key)
  }

  lemma FirstAddBound(adds: seq<(string, real)>, key: string)
    requires exists i :: 0 <= i < |adds| && adds[i].0 == key
    ensures FirstAdd(adds, key) < |adds|
  {
  }

  lemma {:induction false} FirstAddPrefix(adds: seq<(string, real)>, n: nat, key: string)
    requires n <= |adds| && exists i :: 0 <= i < n && adds[i].0 == key
    ensures FirstAdd(adds, key) == FirstAdd(adds[..n], key)
  {
    if adds[0].0 != key {
      var i :| 0 <= i < n && adds[i].0 == key;
      assert adds[1..][i - 1].0 == key;
      FirstAddPrefix(adds[1..], n - 1, key);
      assert adds[..n][1..] == adds[1..][..n - 1];
    }
  }

  lemma {:induction false} SumForAbsent(adds: seq<(string, real)>, key: string)
    requires forall i :: 0 <= i < |adds| ==> adds[i].0 != key
    ensures SumFor(adds, key) == 0.0
  {
    if |adds| > 0 {
      SumForAbsent(adds[..|adds| - 1], key);
    }
  }

  lemma FirstAddLast(adds: seq<(string, real)>, key: string)
    requires |adds| > 0 && adds[|adds| - 1].0 == key
    requires forall i :: 0 <= i < |adds| - 1 ==> adds[i].0 != key
    ensures FirstAdd(adds, key) == |adds| - 1
  {
  }

  // ---------------------------------------------------------------------------
  // Rebuilt postings

  /** The sub-accounts of `account` named by the keys. */
  function SubAccounts(account: Account, keys: seq<string>): set<Account> {
    set k | k in keys :: SubAccount(account, k)
  }

  /** One round of the loop over the keys: a supplementary and an opposition posting
      more, the key's total more in the unit number, and the key's sub-account more. */
  lemma CostStep(p: Posting, c: Cost, keys: seq<string>, values: map<string, real>, i: nat, out: seq<Posting>)
    requires i < |keys| && forall k :: k in keys ==> k in values
    requires out == CostPairs(p, c, keys[..i], values)
    ensures CostPairs(p, c, keys[..i + 1], values)
      == out + [Supplementary(p, c, keys[i], values[keys[i]])] + [Opposition(p, c, values[keys[i]])]
    ensures UnitNumber(p, c, keys[..i + 1], values) == UnitNumber(p, c, keys[..i], values) + values[keys[i]]
    ensures SubAccounts(p.account, keys[..i + 1]) == SubAccounts(p.account, keys[..i]) + {SubAccount(p.account, keys[i])}
  {
    assert keys[..i + 1][..i] == keys[..i];
    assert keys[..i + 1] == keys[..i] + [keys[i]];
    SubAccountsSnoc(p.account, keys[..i], keys[i]);
  }

  lemma SubAccountsSnoc(account: Account, keys: seq<string>, key: string)
    ensures SubAccounts(account, keys + [key]) == SubAccounts(account, keys) + {SubAccount(account, key)}
  {
    assert forall k :: k in keys + [key] <==> k in keys || k == key;
  }

  /** The posting for one key: the key's total on `account:key` in the units currency;
      `keepCostAndPrice` decides whether the original's cost and price are carried. */
  function KeyPosting(p: Posting, key: string, n: real, keepCostAndPrice: bool): Posting {
    Posting(SubAccount(p.account, key), Amount(n, p.units.currency),
            if keepCostAndPrice then p.cost else None, if keepCostAndPrice then p.price else None,
            p.flag, p.meta)
  }

  /** The original posting followed by one posting per key, in key order. */
  function SpreadOutputs(p: Posting, d: Totals, keepCostAndPrice: bool): (r: seq<Posting>)
    requires d.Valid()
  {
    [p] + KeyPostings(p, d.keys, d.values, keepCostAndPrice)
  }

  function KeysTotal(keys: seq<string>, values: map<string, real>): real
    requires forall k :: k in keys ==> k in values
  {
    if |keys| == 0 then 0.0
    else KeysTotal(keys[..|keys| - 1], values) + values[keys[|keys| - 1]]
  }

  /** The rebuilt postings keep the original first and unchanged, put every key's total
      on its own sub-account (distinct, since the keys are), and add exactly the keys'
      grand total in the units currency. */
  lemma {:induction false} SpreadOutputsMeaning(p: Posting, d: Totals, keepCostAndPrice: bool)
    requires d.Valid()
    ensures var r := SpreadOutputs(p, d, keepCostAndPrice);
      |r| == 1 + |d.keys| && r[0] == p
      && (forall i, j :: 1 <= i < j < |r| ==> r[i].account != r[j].account)
      && (forall i :: 1 <= i < |r| ==>
            r[i].account == SubAccount(p.account, d.keys[i - 1])
            && r[i].units == Amount(d.values[d.keys[i - 1]], p.units.currency))
      && CurrencySum(r[1..], p.units.currency) == KeysTotal(d.keys, d.values)
  {
    var r := SpreadOutputs(p, d, keepCostAndPrice);
    var ks := KeyPostings(p, d.keys, d.values, keepCostAndPrice);
    assert r[1..] == ks;
    forall i | 1 <= i < |r|
      ensures r[i].account == SubAccount(p.account, d.keys[i - 1])
      ensures r[i].units == Amount(d.values[d.keys[i - 1]], p.units.currency)
    {
      assert r[i] == ks[i - 1] == KeyPosting(p, d.keys[i - 1], d.values[d.keys[i - 1]], keepCostAndPrice);
    }
    forall i, j | 1 <= i < j < |r|
      ensures r[i].account != r[j].account
    {
      SubAccountInjective(p.account, d.keys[i - 1], d.keys[j - 1]);
    }
    KeyPostingsTotal(p, d.keys, d.values, keepCostAndPrice);
  }

  function KeyPostings(p: Posting, keys: seq<string>, values: map<string, real>, keepCostAndPrice: bool): (r: seq<Posting>)
    requires forall k :: k in keys ==> k in values
    ensures |r| == |keys|
  {
    seq(|keys|, i requires 0 <= i < |keys| => KeyPosting(p, keys[i], values[keys[i]], keepCostAndPrice))
  }

  lemma {:induction false} KeyPostingsTotal(p: Posting, keys: seq<string>, values: map<string, real>, keepCostAndPrice: bool)
    requires forall k :: k in keys ==> k in values
    ensures CurrencySum(KeyPostings(p, keys, values, keepCostAndPrice), p.units.currency) == KeysTotal(keys, values)
  {
    if |keys| > 0 {
      var n := |keys| - 1;
      KeyPostingsTotal(p, keys[..n], values, keepCostAndPrice);
      assert KeyPostings(p, keys, values, keepCostAndPrice)[..n] == KeyPostings(p, keys[..n], values, keepCostAndPrice);
    }
  }

  lemma SubAccountInjective(account: Account, a: string, b: string)
    requires a != b
    ensures SubAccount(account, a) != SubAccount(account, b)
  {
    var prefix := account + ":";
    assert SubAccount(account, a) == prefix + a && SubAccount(account, b) == prefix + b;
    if |a| == |b| {
      var i :| 0 <= i < |a| && a[i] != b[i];
      assert (prefix + a)[|prefix| + i] == a[i];
      assert (prefix + b)[|prefix| + i] == b[i];
    } else {
      assert |prefix + a| != |prefix + b|;
    }
  }

  // ---------------------------------------------------------------------------
  // Rebuilt postings of a target with a cost

  /** The posting moving one key's total onto `account:key`, in the cost currency. */
  function Supplementary(p: Posting, c: Cost, key: string, n: real): Posting {
    Posting(SubAccount(p.account, key), Amount(n, c.currency), None, None, p.flag, p.meta)
  }

  /** The posting taking the same total off the original account. */
  function Opposition(p: Posting, c: Cost, n: real): Posting {
    Posting(p.account, Neg(Amount(n, c.currency)), None, None, p.flag, p.meta)
  }

  function CostPairs(p: Posting, c: Cost, keys: seq<string>, values: map<string, real>): (r: seq<Posting>)
    requires forall k :: k in keys ==> k in values
    ensures |r| == 2 * |keys|
  {
    if |keys| == 0 then []
    else
      var n := |keys| - 1;
      CostPairs(p, c, keys[..n], values)
      + [Supplementary(p, c, keys[n], values[keys[n]]), Opposition(p, c, values[keys[n]])]
  }

  /** `TargetPostingWithCostWrapper.get_postings`: a supplementary and an opposition
      posting per key, then the original posting with its cost per unit raised so that
      the whole holding costs what it did plus the keys' totals. A posting without a
      cost, or with zero units, makes the source raise. */
  function CostOutputs(p: Posting, d: Totals): Result<seq<Posting>>
    requires d.Valid()
  {
    if p.cost.None? then Err("posting has no cost")
    else
      var c := p.cost.value;
      if p.units.number == 0.0 then Err("division by zero")
      else Ok(CostPairs(p, c, d.keys, d.values) + [Rebased(p, c, UnitNumber(p, c, d.keys, d.values))])
  }

  /** `unit_number` after the loop over the keys: the holding's cost plus the keys' totals. */
  function UnitNumber(p: Posting, c: Cost, keys: seq<string>, values: map<string, real>): real
    requires forall k :: k in keys ==> k in values
  {
    if |keys| == 0 then p.units.number * c.number
    else UnitNumber(p, c, keys[..|keys| - 1], values) + values[keys[|keys| - 1]]
  }

  lemma {:induction false} UnitNumberValue(p: Posting, c: Cost, keys: seq<string>, values: map<string, real>)
    requires forall k :: k in keys ==> k in values
    ensures UnitNumber(p, c, keys, values) == p.units.number * c.number + KeysTotal(keys, values)
  {
    if |keys| > 0 {
      UnitNumberValue(p, c, keys[..|keys| - 1], values);
    }
  }

  /** The holding at the cost per unit that makes the whole holding cost `total`. */
  function Rebased(p: Posting, c: Cost, total: real): Posting
    requires p.units.number != 0.0
  {
    p.(cost := Some(c.(number := total / p.units.number)))
  }

  /** Each supplementary posting is cancelled by its opposition posting, in every
      currency; the key's total lands on `account:key`. */
  lemma {:induction false} CostPairsMeaning(p: Posting, c: Cost, keys: seq<string>, values: map<string, real>, currency: Currency)
    requires forall k :: k in keys ==> k in values
    ensures CurrencySum(CostPairs(p, c, keys, values), currency) == 0.0
    ensures forall i :: 0 <= i < |keys| ==>
      CostPairs(p, c, keys, values)[2 * i] == Supplementary(p, c, keys[i], values[keys[i]])
      && CostPairs(p, c, keys, values)[2 * i + 1] == Opposition(p, c, values[keys[i]])
  {
    if |keys| > 0 {
      var n := |keys| - 1;
      var front := CostPairs(p, c, keys[..n], values);
      var pair := [Supplementary(p, c, keys[n], values[keys[n]]), Opposition(p, c, values[keys[n]])];
      CostPairsMeaning(p, c, keys[..n], values, currency);
      CurrencySumConcat(front, pair, currency);
      PairCancels(pair[0], pair[1], currency);
      assert pair == [pair[0], pair[1]];
    }
  }

  /** The rebuilt holding keeps account, units, price, flag and metadata, and its cost
      keeps currency, date and label; units times the new cost per unit is units times
      the old one plus everything the key postings moved. */
  lemma {:induction false} CostOutputsMeaning(p: Posting, d: Totals)
    requires d.Valid()
    ensures CostOutputs(p, d).Err? <==> p.cost.None? || p.units.number == 0.0
    ensures CostOutputs(p, d).Ok? ==>
      var r := CostOutputs(p, d).value;
      var last := r[|r| - 1];
      |r| == 2 * |d.keys| + 1
      && last == p.(cost := last.cost)
      && last.cost.Some? && last.cost.value == p.cost.value.(number := last.cost.value.number)
      && p.units.number * last.cost.value.number == p.units.number * p.cost.value.number + KeysTotal(d.keys, d.values)
      && Balanced(r[..|r| - 1])
  {
    if CostOutputs(p, d).Ok? {
      var c := p.cost.value;
      var r := CostOutputs(p, d).value;
      var total := UnitNumber(p, c, d.keys, d.values);
      UnitNumberValue(p, c, d.keys, d.values);
      DivBack(total, p.units.number);
      assert r[..|r| - 1] == CostPairs(p, c, d.keys, d.values);
      forall cur ensures CurrencySum(CostPairs(p, c, d.keys, d.values), cur) == 0.0 {
        CostPairsMeaning(p, c, d.keys, d.values, cur);
      }
    }
  }

  /** Without any share to move, the holding comes back alone with its cost unchanged. */
  lemma CostOutputsNothingToMove(p: Posting, d: Totals)
    requires d.Valid() && d.keys == [] && p.cost.Some? && p.units.number != 0.0
    ensures CostOutputs(p, d) == Ok([p])
  {
    var c := p.cost.value;
    var u := p.units.number;
    var r := CostOutputs(p, d).value;
    assert |r| == 1;
    DivMul(c.number, u);
    assert UnitNumber(p, c, d.keys, d.values) == u * c.number;
    assert r[0].cost.value.number == (u * c.number) / u == c.number;
    assert r[0].cost.value == c;
    assert r[0] == p;
    assert r == [p];
  }

  lemma PairCancels(a: Posting, b: Posting, currency: Currency)
    requires a.units.currency == b.units.currency && a.units.number + b.units.number == 0.0
    ensures CurrencySum([a, b], currency) == 0.0
  {
    assert [a, b][..1] == [a] && [a][..0] == [];
    assert CurrencySum([a], currency) == (if a.units.currency == currency then a.units.number else 0.0);
    assert CurrencySum([a, b], currency)
      == CurrencySum([a], currency) + (if b.units.currency == currency then b.units.number else 0.0);
  }

  lemma DivBack(x: real, d: real)
    requires d != 0.0
    ensures d * (x / d) == x
  {
  }

  lemma DivMul(x: real, d: real)
    requires d != 0.0
    ensures d * x / d == x
  {
  }

  // ---------------------------------------------------------------------------
  // The wrappers (spreading/simple_posting_wrapper.py, spreading/target_posting_wrapper.py
  // and its two subclasses)

  /** A simple posting that receives shares keyed by the source's postfix. Every first
      add under a new key registers `account -> account:accountPostfix` afresh, and the
      wrapper keeps the record it registered last. */
  class SimplePostingWrapper {
    const manager: Consolidation.AccountConsolidationDataManager
    const accountPostfix: string
    const posting: Posting
    var numbers: Totals
    var consolidation: Consolidation.AccountConsolidationData?

    /** A record has been registered as soon as there is any total. */
    ghost predicate Valid()
      reads this
    {
      numbers.Valid() && (numbers.keys != [] ==> consolidation != null)
    }

    constructor (manager: Consolidation.AccountConsolidationDataManager, accountPostfix: string, posting: Posting)
      ensures Valid() && numbers == Dicts.Empty() && consolidation == null
      ensures this.manager == manager && this.accountPostfix == accountPostfix && this.posting == posting
    {
      this.manager := manager;
      this.accountPostfix := accountPostfix;
      this.posting := posting;
      numbers := Dicts.Empty();
      consolidation := null;
    }

    method AddPosting(key: string, n: real)
      requires Valid() && manager.Valid()
      modifies this, manager
      ensures Valid() && manager.Valid()
      ensures numbers == Accumulate(old(numbers), key, n)
      ensures key !in old(numbers.values) ==>
        fresh(consolidation)
        && consolidation.originalAccount == posting.account
        && consolidation.toAccount == SubAccount(posting.account, accountPostfix)
        && consolidation.additionalAccounts == {}
        && manager.consolidators == old(manager.consolidators).Put(SubAccount(posting.account, accountPostfix), consolidation)
      ensures key in old(numbers.values) ==>
        consolidation == old(consolidation) && manager.consolidators == old(manager.consolidators)
    {
      if key !in numbers.values {
        numbers := numbers.Put(key, n);
        consolidation := manager.AddNewConsolidator(posting.account, SubAccount(posting.account, accountPostfix));
      } else {
        numbers := numbers.Put(key, numbers.values[key] + n);
      }
    }

    /** The original posting, then one posting per key keeping cost and price; every
        new sub-account is added to the record registered last. */
    method GetPostings() returns (r: seq<Posting>)
      requires Valid()
      modifies consolidation
      ensures r == SpreadOutputs(posting, numbers, true)
      ensures consolidation != null ==>
        consolidation.additionalAccounts == old(consolidation.additionalAccounts) + SubAccounts(posting.account, numbers.keys)
      ensures consolidation != null ==>
        consolidation.originalAccount == old(consolidation.originalAccount) && consolidation.toAccount == old(consolidation.toAccount)
    {
      r := [posting];
      var i := 0;
      while i < |numbers.keys|
        invariant 0 <= i <= |numbers.keys|
        invariant r == [posting] + KeyPostings(posting, numbers.keys[..i], numbers.values, true)
        invariant consolidation != null ==>
          consolidation.additionalAccounts == old(consolidation.additionalAccounts) + SubAccounts(posting.account, numbers.keys[..i])
        invariant consolidation != null ==>
          consolidation.originalAccount == old(consolidation.originalAccount) && consolidation.toAccount == old(consolidation.toAccount)
      {
        var key := numbers.keys[i];
        var account := SubAccount(posting.account, key);
        r := r + [Posting(account, Amount(numbers.values[key], posting.units.currency),
                          posting.cost, posting.price, posting.flag, posting.meta)];
        consolidation.AddAdditionalAccounts({account});
        assert numbers.keys[..i + 1] == numbers.keys[..i] + [key];
        i := i + 1;
      }
      assert numbers.keys[..i] == numbers.keys;
    }
  }

  /** A target posting of the newer layer that receives shares keyed by the source's
      postfix and registers `account -> account:targetPostfix` on each new key. The two
      subclasses differ only in `get_postings`; `withCost` says which one this is. */
  class TargetPostingWrapper {
    const manager: Consolidation.AccountConsolidationDataManager
    const posting: Posting
    const matchData: seq<string>
    const withCost: bool
    var numbers: Totals
    var consolidation: Consolidation.AccountConsolidationData?

    ghost predicate Valid()
      reads this
    {
      numbers.Valid() && (numbers.keys != [] ==> consolidation != null)
    }

    constructor (manager: Consolidation.AccountConsolidationDataManager, posting: Posting, matchData: seq<string>, withCost: bool)
      ensures Valid() && numbers == Dicts.Empty() && consolidation == null
      ensures this.manager == manager && this.posting == posting && this.matchData == matchData && this.withCost == withCost
    {
      this.manager := manager;
      this.posting := posting;
      this.matchData := matchData;
      this.withCost := withCost;
      numbers := Dicts.Empty();
      consolidation := null;
    }

    method AddPosting(sourcePostfix: string, targetPostfix: string, n: real)
      requires Valid() && manager.Valid()
      modifies this, manager
      ensures Valid() && manager.Valid()
      ensures numbers == Accumulate(old(numbers), sourcePostfix, n)
      ensures sourcePostfix !in old(numbers.values) ==>
        fresh(consolidation)
        && consolidation.originalAccount == posting.account
        && consolidation.toAccount == SubAccount(posting.account, targetPostfix)
        && consolidation.additionalAccounts == {}
        && manager.consolidators == old(manager.consolidators).Put(SubAccount(posting.account, targetPostfix), consolidation)
      ensures sourcePostfix in old(numbers.values) ==>
        consolidation == old(consolidation) && manager.consolidators == old(manager.consolidators)
    {
      if sourcePostfix !in numbers.values {
        numbers := numbers.Put(sourcePostfix, n);
        consolidation := manager.AddNewConsolidator(posting.account, SubAccount(posting.account, targetPostfix));
      } else {
        numbers := numbers.Put(sourcePostfix, numbers.values[sourcePostfix] + n);
      }
    }

    /** `get_number`: the weight the `unit` policy reads. */
    function GetNumber(): (r: real)
      ensures r == Distribution.UnitSum([posting])
    {
      posting.units.number
    }

    /** `get_meta`: the metadata value under `name`, or nothing when it is absent. */
    function GetMeta(name: string): (r: Option<MetaValue>)
      ensures r.Some? <==> name in posting.meta
      ensures r.Some? ==> r.value == posting.meta[name]
    {
      if name in posting.meta then Some(posting.meta[name]) else None
    }

    /** The basic wrapper: the original posting, then one posting per key without
        cost or price, every new sub-account added to the record registered last. */
    method GetPostingsBasic() returns (r: seq<Posting>)
      requires Valid() && !withCost
      modifies consolidation
      ensures r == SpreadOutputs(posting, numbers, false)
      ensures consolidation != null ==>
        consolidation.additionalAccounts == old(consolidation.additionalAccounts) + SubAccounts(posting.account, numbers.keys)
      ensures consolidation != null ==>
        consolidation.originalAccount == old(consolidation.originalAccount) && consolidation.toAccount == old(consolidation.toAccount)
    {
      r := [posting];
      var i := 0;
      while i < |numbers.keys|
        invariant 0 <= i <= |numbers.keys|
        invariant r == [posting] + KeyPostings(posting, numbers.keys[..i], numbers.values, false)
        invariant consolidation != null ==>
          consolidation.additionalAccounts == old(consolidation.additionalAccounts) + SubAccounts(posting.account, numbers.keys[..i])
        invariant consolidation != null ==>
          consolidation.originalAccount == old(consolidation.originalAccount) && consolidation.toAccount == old(consolidation.toAccount)
      {
        var key := numbers.keys[i];
        var account := SubAccount(posting.account, key);
        r := r + [Posting(account, Amount(numbers.values[key], posting.units.currency),
                          None, None, posting.flag, posting.meta)];
        consolidation.AddAdditionalAccounts({account});
        assert numbers.keys[..i + 1] == numbers.keys[..i] + [key];
        i := i + 1;
      }
      assert numbers.keys[..i] == numbers.keys;
    }

    /** The with-cost wrapper: a supplementary and an opposition posting per key, then
        the holding at its rebased cost. Without a cost it fails before registering
        anything; with zero units it fails after registering the sub-accounts. */
    method GetPostingsWithCost() returns (r: Result<seq<Posting>>)
      requires Valid() && withCost
      modifies consolidation
      ensures r == CostOutputs(posting, numbers)
      ensures consolidation != null ==>
        consolidation.additionalAccounts == old(consolidation.additionalAccounts)
          + (if posting.cost.Some? then SubAccounts(posting.account, numbers.keys) else {})
      ensures consolidation != null ==>
        consolidation.originalAccount == old(consolidation.originalAccount) && consolidation.toAccount == old(consolidation.toAccount)
    {
      if posting.cost.None? {
        return Err("posting has no cost");
      }
      var c := posting.cost.value;
      var out: seq<Posting> := [];
      var unitNumber := posting.units.number * c.number;
      var i := 0;
      while i < |numbers.keys|
        invariant 0 <= i <= |numbers.keys|
        invariant out == CostPairs(posting, c, numbers.keys[..i], numbers.values)
        invariant unitNumber == UnitNumber(posting, c, numbers.keys[..i], numbers.values)
        invariant consolidation != null ==>
          consolidation.additionalAccounts == old(consolidation.additionalAccounts) + SubAccounts(posting.account, numbers.keys[..i])
        invariant consolidation != null ==>
          consolidation.originalAccount == old(consolidation.originalAccount) && consolidation.toAccount == old(consolidation.toAccount)
      {
        var key := numbers.keys[i];
        var n := numbers.values[key];
        var account := SubAccount(posting.account, key);
        CostStep(posting, c, numbers.keys, numbers.values, i, out);
        out := out + [Posting(account, Amount(n, c.currency), None, None, posting.flag, posting.meta)];
        consolidation.AddAdditionalAccounts({account});
        out := out + [Posting(posting.account, Neg(Amount(n, c.currency)), None, None, posting.flag, posting.meta)];
        unitNumber := unitNumber + n;
        i := i + 1;
      }
      assert numbers.keys[..i] == numbers.keys;
      if posting.units.number == 0.0 {
        return Err("division by zero");
      }
      assert out == CostPairs(posting, c, numbers.keys, numbers.values);
      assert CostOutputs(posting, numbers).Ok?;
      assert CostOutputs(posting, numbers).value == out + [Rebased(posting, c, unitNumber)];
      r := Ok(out + [Rebased(posting, c, unitNumber)]);
    }
  }
}
