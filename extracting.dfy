// The extracting consolidators: postings tagged with a discount or an original
// price are expanded into several postings, and each tagged account gets a
// consolidation record whose additional account is the split-off discount account.

module Extracting {
  import opened Results
  import opened Ledger
  import Consolidation

  /** `PostingConsolidatorDiscounter` or `PostingConsolidatorOriginalPrice`. */
  datatype Kind = Discounter | OriginalPrice

  datatype ExtractConfig = ExtractConfig(
    kind: Kind,
    priceAccountPostfix: string,     // consolidate-price-account-postfix
    discountAccountPostfix: string,  // consolidate-discount-account-postfix
    metadataName: string)            // metadata-name-discount / metadata-name-original-price

  /** `posting.meta and name in posting.meta` */
  predicate Tagged(cfg: ExtractConfig, p: Posting) {
    cfg.metadataName in p.meta
  }

  /** `posting.account + ':' + consolidate_discount_account_postfix` */
  function DiscountAccount(cfg: ExtractConfig, p: Posting): Account {
    SubAccount(p.account, cfg.discountAccountPostfix)
  }

  /** Some posting of `ps` on `account` is tagged. */
  ghost predicate TaggedOn(cfg: ExtractConfig, ps: seq<Posting>, account: Account) {
    exists i :: 0 <= i < |ps| && Tagged(cfg, ps[i]) && ps[i].account == account
  }

  /** `get_relevant_accounts`: the accounts of the tagged postings. */
  method GetRelevantAccounts(cfg: ExtractConfig, ps: seq<Posting>) returns (r: set<Account>)
    ensures forall a :: a in r <==> TaggedOn(cfg, ps, a)
  {
    r := {};
    var i := 0;
    while i < |ps|
      invariant 0 <= i <= |ps|
      invariant forall a :: a in r <==> exists j :: 0 <= j < i && Tagged(cfg, ps[j]) && ps[j].account == a
    {
      if Tagged(cfg, ps[i]) {
        r := r + {ps[i].account};
      }
      i := i + 1;
    }
  }

  /** `get_postings_from_posting`. An untagged posting stays as it is. A tagged one
      loses the metadata key and, for the discounter, is followed by the discount on
      its own account and the negated discount on the discount account; for the
      original price, it is replaced by a posting of the original price and one of
      the difference on the discount account. A metadata value that is not an amount
      makes Python fail (unary minus on it, or `.number` of it). */
  function GetPostingsFromPosting(cfg: ExtractConfig, p: Posting): (r: Result<seq<Posting>>)
    ensures !Tagged(cfg, p) ==> r == Ok([p])
    ensures Tagged(cfg, p) ==> (r.Ok? <==> p.meta[cfg.metadataName].AmountValue?)
    ensures r.Ok? && Tagged(cfg, p) ==> forall q :: q in r.value ==> cfg.metadataName !in q.meta
  {
    if !Tagged(cfg, p) then Ok([p])
    else
      var v := p.meta[cfg.metadataName];
      var stripped := p.meta - {cfg.metadataName};
      if !v.AmountValue? then Err("TypeError: metadata value is not an amount")
      else match cfg.kind
        case Discounter =>
          Ok([p.(meta := stripped),
              Posting(p.account, v.amount, None, None, None, map[]),
              Posting(DiscountAccount(cfg, p), Neg(v.amount), None, None, None, map[])])
        case OriginalPrice =>
          Ok([Posting(p.account, v.amount, p.cost, p.price, p.flag, stripped),
              Posting(DiscountAccount(cfg, p), Amount(p.units.number - v.amount.number, p.units.currency),
                      p.cost, p.price, p.flag, map[])])
  }

  /** The discounter keeps the posting, less the tag, and adds the tagged discount on
      the posting's account and its negation on the discount account, both bare; the
      two cancel, so every currency's total is unchanged. */
  lemma DiscounterBalanced(cfg: ExtractConfig, p: Posting, c: Currency)
    requires cfg.kind.Discounter? && GetPostingsFromPosting(cfg, p).Ok?
    ensures Tagged(cfg, p) ==>
      var r := GetPostingsFromPosting(cfg, p).value;
      var d := p.meta[cfg.metadataName].amount;
      |r| == 3 && r[0] == p.(meta := p.meta - {cfg.metadataName})
      && r[1] == Posting(p.account, d, None, None, None, map[])
      && r[2] == Posting(DiscountAccount(cfg, p), Neg(d), None, None, None, map[])
    ensures CurrencySum(GetPostingsFromPosting(cfg, p).value, c) == CurrencySum([p], c)
  {
    var r := GetPostingsFromPosting(cfg, p).value;
    if Tagged(cfg, p) {
      var d := p.meta[cfg.metadataName].amount;
      assert r == [p.(meta := p.meta - {cfg.metadataName}),
                   Posting(p.account, d, None, None, None, map[]),
                   Posting(DiscountAccount(cfg, p), Neg(d), None, None, None, map[])];
      CurrencySumConcat([r[0]], [r[1], r[2]], c);
      CurrencySumConcat([r[1]], [r[2]], c);
      assert r == [r[0]] + [r[1], r[2]] && [r[1], r[2]] == [r[1]] + [r[2]];
      assert [r[0]][..0] == [] && [r[1]][..0] == [] && [r[2]][..0] == [];
    }
  }

  /** A tagged posting becomes two: the original-price posting, which is the posting
      with the original price as its units and without the tag, and the discount
      posting on the discount account with the rest of the units in the posting's
      currency, the same cost, price and flag and no metadata. Their numbers add up
      to the posting's; when the original price is in the posting's currency the
      transaction stays balanced. */
  lemma OriginalPriceSplitsUnits(cfg: ExtractConfig, p: Posting)
    requires cfg.kind.OriginalPrice? && Tagged(cfg, p) && GetPostingsFromPosting(cfg, p).Ok?
    ensures var r := GetPostingsFromPosting(cfg, p).value;
      var v := p.meta[cfg.metadataName].amount;
      |r| == 2
      && r[0] == Posting(p.account, v, p.cost, p.price, p.flag, p.meta - {cfg.metadataName})
      && r[1] == Posting(DiscountAccount(cfg, p), Amount(p.units.number - v.number, p.units.currency),
                         p.cost, p.price, p.flag, map[])
      && r[0].units.number + r[1].units.number == p.units.number
  {
  }

  lemma OriginalPriceBalanced(cfg: ExtractConfig, p: Posting, c: Currency)
    requires cfg.kind.OriginalPrice? && GetPostingsFromPosting(cfg, p).Ok?
    requires Tagged(cfg, p) && p.meta[cfg.metadataName].AmountValue? ==>
      p.meta[cfg.metadataName].amount.currency == p.units.currency
    ensures CurrencySum(GetPostingsFromPosting(cfg, p).value, c) == CurrencySum([p], c)
  {
    var r := GetPostingsFromPosting(cfg, p).value;
    if Tagged(cfg, p) {
      assert |r| == 2;
      assert r[..1] == [r[0]] && r[..1][..0] == [] && [p][..0] == [];
    }
  }

  /** `get_postings`: each posting's expansion, in order. */
  function ExpandAll(cfg: ExtractConfig, ps: seq<Posting>): Result<seq<Posting>> {
    if |ps| == 0 then Ok([])
    else
      var n := |ps| - 1;
      var front :- ExpandAll(cfg, ps[..n]);
      var last :- GetPostingsFromPosting(cfg, ps[n]);
      Ok(front + last)
  }

  /** `execute`: the transaction with its postings expanded, everything else kept. */
  function Extract(cfg: ExtractConfig, e: Transaction): Result<Transaction> {
    var ps :- ExpandAll(cfg, e.postings);
    Ok(e.(postings := ps))
  }

  /** The expansion keeps every currency's total when each step does. */
  lemma {:induction false} ExpandAllBalanced(cfg: ExtractConfig, ps: seq<Posting>, c: Currency)
    requires ExpandAll(cfg, ps).Ok?
    requires cfg.kind.OriginalPrice? ==>
      forall i :: 0 <= i < |ps| && Tagged(cfg, ps[i]) && ps[i].meta[cfg.metadataName].AmountValue? ==>
        ps[i].meta[cfg.metadataName].amount.currency == ps[i].units.currency
    ensures CurrencySum(ExpandAll(cfg, ps).value, c) == CurrencySum(ps, c)
  {
    if |ps| > 0 {
      var n := |ps| - 1;
      ExpandAllBalanced(cfg, ps[..n], c);
      var last := GetPostingsFromPosting(cfg, ps[n]).value;
      if cfg.kind.Discounter? {
        DiscounterBalanced(cfg, ps[n], c);
      } else {
        OriginalPriceBalanced(cfg, ps[n], c);
      }
      CurrencySumConcat(ExpandAll(cfg, ps[..n]).value, last, c);
      assert ps == ps[..n] + [ps[n]];
      CurrencySumConcat(ps[..n], [ps[n]], c);
    }
  }

  /** An expansion that fails on a prefix fails on the whole with the same error. */
  lemma {:induction false} ExpandAllPrefixErr(cfg: ExtractConfig, ps: seq<Posting>, k: nat)
    requires k <= |ps| && ExpandAll(cfg, ps[..k]).Err?
    ensures ExpandAll(cfg, ps) == Err(ExpandAll(cfg, ps[..k]).error)
    decreases |ps| - k
  {
    if k < |ps| {
      assert ps[..k + 1][..k] == ps[..k];
      ExpandAllPrefixErr(cfg, ps, k + 1);
    } else {
      assert ps[..k] == ps;
    }
  }

  /** The discount accounts registered for `account` by the tagged postings. */
  ghost function Registered(cfg: ExtractConfig, ps: seq<Posting>, account: Account): set<Account> {
    set i | 0 <= i < |ps| && Tagged(cfg, ps[i]) && ps[i].account == account :: DiscountAccount(cfg, ps[i])
  }

  lemma RegisteredStep(cfg: ExtractConfig, ps: seq<Posting>, i: nat, account: Account)
    requires i < |ps|
    ensures Registered(cfg, ps[..i + 1], account) ==
      Registered(cfg, ps[..i], account) + (if Tagged(cfg, ps[i]) && ps[i].account == account then {DiscountAccount(cfg, ps[i])} else {})
  {
    var a := ps[..i + 1];
    assert forall j :: 0 <= j < i ==> a[j] == ps[..i][j];
  }

  /** A relevant account registers exactly its own discount account. */
  lemma RegisteredOfRelevant(cfg: ExtractConfig, ps: seq<Posting>, account: Account)
    requires TaggedOn(cfg, ps, account)
    ensures Registered(cfg, ps, account) == {SubAccount(account, cfg.discountAccountPostfix)}
  {
    var i :| 0 <= i < |ps| && Tagged(cfg, ps[i]) && ps[i].account == account;
    assert DiscountAccount(cfg, ps[i]) in Registered(cfg, ps, account);
  }

  /** `get_account_consolidators`: one fresh record per relevant account, to
      account:price-postfix, in the order the set yields them. */
  method GetAccountConsolidators(cfg: ExtractConfig, relevant: set<Account>)
    returns (keys: seq<Account>, byAccount: map<Account, Consolidation.AccountConsolidationData>)
    ensures byAccount.Keys == relevant && |keys| == |relevant|
    ensures forall a :: a in relevant <==> a in keys
    ensures forall i, j :: 0 <= i < j < |keys| ==> keys[i] != keys[j]
    ensures forall a :: a in byAccount ==>
      fresh(byAccount[a]) && byAccount[a].originalAccount == a
      && byAccount[a].toAccount == SubAccount(a, cfg.priceAccountPostfix) && byAccount[a].additionalAccounts == {}
  {
    keys := [];
    byAccount := map[];
    var rest := relevant;
    while rest != {}
      invariant Consolidation.Taken(relevant, rest, keys) && byAccount.Keys == relevant - rest
      invariant forall a :: a in byAccount ==> fresh(byAccount[a])
      invariant forall a :: a in byAccount ==>
        byAccount[a].originalAccount == a
        && byAccount[a].toAccount == SubAccount(a, cfg.priceAccountPostfix) && byAccount[a].additionalAccounts == {}
      decreases |rest|
    {
      var a :| a in rest;
      Consolidation.PickStep(relevant, rest, keys, a);
      var d := new Consolidation.AccountConsolidationData(a, SubAccount(a, cfg.priceAccountPostfix), None);
      byAccount := byAccount[a := d];
      keys := keys + [a];
      rest := rest - {a};
    }
  }

  /** `get_postings` with the records at hand: every posting is expanded in order
      and each tagged posting adds its discount account to its account's record. */
  method GetPostings(cfg: ExtractConfig, ps: seq<Posting>, byAccount: map<Account, Consolidation.AccountConsolidationData>)
    returns (res: Result<seq<Posting>>)
    requires forall a :: a in byAccount ==> byAccount[a].originalAccount == a && byAccount[a].additionalAccounts == {}
    requires forall i :: 0 <= i < |ps| && Tagged(cfg, ps[i]) ==> ps[i].account in byAccount
    modifies byAccount.Values
    ensures res == ExpandAll(cfg, ps)
    ensures forall a :: a in byAccount ==>
      byAccount[a].originalAccount == a && byAccount[a].toAccount == old(byAccount[a].toAccount)
    ensures res.Ok? ==> forall a :: a in byAccount ==> byAccount[a].additionalAccounts == Registered(cfg, ps, a)
  {
    var out := [];
    var i := 0;
    while i < |ps|
      invariant 0 <= i <= |ps|
      invariant ExpandAll(cfg, ps[..i]) == Ok(out)
      invariant forall a :: a in byAccount ==>
        byAccount[a].originalAccount == a && byAccount[a].toAccount == old(byAccount[a].toAccount)
        && byAccount[a].additionalAccounts == Registered(cfg, ps[..i], a)
    {
      var p := ps[i];
      assert ps[..i + 1][..i] == ps[..i] && ps[..i + 1][i] == p;
      var more := GetPostingsFromPosting(cfg, p);
      if more.Err? {
        ExpandAllPrefixErr(cfg, ps, i + 1);
        return Err(more.error);
      }
      RegisterDiscount(cfg, ps, i, byAccount);
      out := out + more.value;
      i := i + 1;
    }
    assert ps[..i] == ps;
    res := Ok(out);
  }

  /** The record of a tagged posting's account gains its discount account; no other
      record changes. */
  method RegisterDiscount(cfg: ExtractConfig, ps: seq<Posting>, i: nat, byAccount: map<Account, Consolidation.AccountConsolidationData>)
    requires i < |ps| && (Tagged(cfg, ps[i]) ==> ps[i].account in byAccount)
    requires forall a :: a in byAccount ==>
      byAccount[a].originalAccount == a && byAccount[a].additionalAccounts == Registered(cfg, ps[..i], a)
    modifies byAccount.Values
    ensures forall a :: a in byAccount ==>
      byAccount[a].originalAccount == a && byAccount[a].toAccount == old(byAccount[a].toAccount)
      && byAccount[a].additionalAccounts == Registered(cfg, ps[..i + 1], a)
  {
    forall a | a in byAccount {
      RegisteredStep(cfg, ps, i, a);
    }
    if Tagged(cfg, ps[i]) {
      byAccount[ps[i].account].AddAdditionalAccounts({DiscountAccount(cfg, ps[i])});
    }
  }

  /** `list(account_consolidators.values())`, read off once every posting has been
      expanded. */
  method RecordsOf(cfg: ExtractConfig, ps: seq<Posting>, keys: seq<Account>,
                   byAccount: map<Account, Consolidation.AccountConsolidationData>)
    returns (records: seq<Consolidation.AccountConsolidationData>)
    requires forall a :: a in keys <==> TaggedOn(cfg, ps, a)
    requires forall i, j :: 0 <= i < j < |keys| ==> keys[i] != keys[j]
    requires forall a :: a in keys ==> a in byAccount
    requires forall a :: a in byAccount ==>
      byAccount[a].originalAccount == a && byAccount[a].toAccount == SubAccount(a, cfg.priceAccountPostfix)
      && byAccount[a].additionalAccounts == Registered(cfg, ps, a)
    ensures forall k :: 0 <= k < |records| ==> TaggedOn(cfg, ps, records[k].originalAccount)
    ensures forall i :: 0 <= i < |ps| && Tagged(cfg, ps[i]) ==>
      exists k :: 0 <= k < |records| && records[k].originalAccount == ps[i].account
    ensures forall k :: 0 <= k < |records| ==>
      records[k].toAccount == SubAccount(records[k].originalAccount, cfg.priceAccountPostfix)
      && records[k].additionalAccounts == {SubAccount(records[k].originalAccount, cfg.discountAccountPostfix)}
    ensures forall i, j :: 0 <= i < j < |records| ==> records[i].originalAccount != records[j].originalAccount
  {
    records := seq(|keys|, k requires 0 <= k < |keys| => byAccount[keys[k]]);
    forall k | 0 <= k < |records|
      ensures records[k].originalAccount == keys[k]
      ensures TaggedOn(cfg, ps, records[k].originalAccount)
      ensures records[k].additionalAccounts == {SubAccount(records[k].originalAccount, cfg.discountAccountPostfix)}
    {
      assert keys[k] in keys;
      RegisteredOfRelevant(cfg, ps, keys[k]);
    }
    forall i | 0 <= i < |ps| && Tagged(cfg, ps[i])
      ensures exists k :: 0 <= k < |records| && records[k].originalAccount == ps[i].account
    {
      assert ps[i].account in keys;
      var k :| 0 <= k < |keys| && keys[k] == ps[i].account;
      assert records[k].originalAccount == keys[k];
    }
  }

  /** `execute` of the extracting base: the expanded transaction, and the records of
      the relevant accounts, each holding exactly its discount account. */
  method Execute(cfg: ExtractConfig, entry: Transaction)
    returns (r: Result<Transaction>, records: seq<Consolidation.AccountConsolidationData>)
    ensures r == Extract(cfg, entry)
    ensures r.Ok? ==> forall k :: 0 <= k < |records| ==> TaggedOn(cfg, entry.postings, records[k].originalAccount)
    ensures r.Ok? ==> forall i :: 0 <= i < |entry.postings| && Tagged(cfg, entry.postings[i]) ==>
      exists k :: 0 <= k < |records| && records[k].originalAccount == entry.postings[i].account
    ensures r.Ok? ==> forall k :: 0 <= k < |records| ==>
      records[k].toAccount == SubAccount(records[k].originalAccount, cfg.priceAccountPostfix)
      && records[k].additionalAccounts == {SubAccount(records[k].originalAccount, cfg.discountAccountPostfix)}
    ensures r.Ok? ==> forall i, j :: 0 <= i < j < |records| ==> records[i].originalAccount != records[j].originalAccount
  {
    var ps := entry.postings;
    var relevant := GetRelevantAccounts(cfg, ps);
    var keys, byAccount := GetAccountConsolidators(cfg, relevant);
    var res := GetPostings(cfg, ps, byAccount);
    if res.Err? {
      return Err(res.error), [];
    }
    r := Ok(entry.(postings := res.value));
    records := RecordsOf(cfg, ps, keys, byAccount);
  }
}
