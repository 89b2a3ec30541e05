/** The first-generation posting consolidator: a posting tagged with a sub-account
    postfix moves to that sub-account of its account, the other postings of a tagged
    account move to the account's consolidation account, and each tagged account
    gets a record listing the sub-accounts used. */
module LegacyConsolidator {
  import opened Results
  import opened Ledger
  import Consolidation

  datatype ConsolidatorConfig = ConsolidatorConfig(
    consolidateAccountPostfix: Option<string>,          // consolidate-account-postfix
    metadataNameConsolidateAccountPostfix: Option<string>) // metadata-name-consolidate-account-postfix

  /** The posting's metadata holds the postfix key. */
  predicate Tagged(cfg: ConsolidatorConfig, p: Posting) {
    cfg.metadataNameConsolidateAccountPostfix.Some? && cfg.metadataNameConsolidateAccountPostfix.value in p.meta
  }

  /** `__get_relevant_accounts`: the accounts of the tagged postings. */
  function RelevantAccounts(cfg: ConsolidatorConfig, ps: seq<Posting>): (r: set<Account>)
    ensures forall i :: 0 <= i < |ps| && Tagged(cfg, ps[i]) ==> ps[i].account in r
  {
    set i | 0 <= i < |ps| && Tagged(cfg, ps[i]) :: ps[i].account
  }

  /** Every relevant account is the account of some tagged posting, so together with
      the postcondition of `RelevantAccounts` the set is exactly those accounts. */
  lemma RelevantAccountsTagged(cfg: ConsolidatorConfig, ps: seq<Posting>, a: Account)
    requires a in RelevantAccounts(cfg, ps)
    ensures exists i :: 0 <= i < |ps| && Tagged(cfg, ps[i]) && ps[i].account == a
  {
  }

  /** `get_posting`: a tagged posting moves to `account:<its postfix>`; any other
      posting of a relevant account moves to `account:<configured postfix>`; the rest
      stay. Only the account changes. A postfix value that is not a string makes the
      concatenation fail. */
  function GetPosting(cfg: ConsolidatorConfig, relevant: set<Account>, postfix: string, p: Posting): (r: Result<Posting>)
    ensures r.Ok? ==> r.value == p.(account := r.value.account)
    ensures Tagged(cfg, p) ==>
      var v := p.meta[cfg.metadataNameConsolidateAccountPostfix.value];
      (v.Text? ==> r == Ok(p.(account := SubAccount(p.account, v.text)))) && (!v.Text? ==> r.Err?)
    ensures !Tagged(cfg, p) && p.account in relevant ==> r == Ok(p.(account := SubAccount(p.account, postfix)))
    ensures !Tagged(cfg, p) && p.account !in relevant ==> r == Ok(p)
  {
    if Tagged(cfg, p) then
      match p.meta[cfg.metadataNameConsolidateAccountPostfix.value]
      case Text(v) => Ok(p.(account := SubAccount(p.account, v)))
      case _ => Err("TypeError: consolidate account postfix is not a string")
    else if p.account in relevant then Ok(p.(account := SubAccount(p.account, postfix)))
    else Ok(p)
  }

  /** Every posting through `get_posting`, in order. */
  function GetPostings(cfg: ConsolidatorConfig, relevant: set<Account>, postfix: string, ps: seq<Posting>): Result<seq<Posting>> {
    if |ps| == 0 then Ok([])
    else
      var n := |ps| - 1;
      var front :- GetPostings(cfg, relevant, postfix, ps[..n]);
      var last :- GetPosting(cfg, relevant, postfix, ps[n]);
      Ok(front + [last])
  }

  /** `execute`: the transaction with its postings moved. Building a record for a
      relevant account without a configured postfix fails. */
  function Consolidate(cfg: ConsolidatorConfig, t: Transaction): Result<Transaction> {
    var relevant := RelevantAccounts(cfg, t.postings);
    if relevant != {} && cfg.consolidateAccountPostfix.None? then Err("TypeError: no consolidate account postfix")
    else
      var ps :- GetPostings(cfg, relevant, cfg.consolidateAccountPostfix.GetOr(""), t.postings);
      Ok(t.(postings := ps))
  }

  /** The moved postings line up with the originals: same number, and each differs
      from its original in the account alone, as `get_posting` says. */
  lemma {:induction false} GetPostingsPointwise(cfg: ConsolidatorConfig, relevant: set<Account>, postfix: string, ps: seq<Posting>)
    requires GetPostings(cfg, relevant, postfix, ps).Ok?
    ensures var r := GetPostings(cfg, relevant, postfix, ps).value;
      |r| == |ps| && forall i :: 0 <= i < |ps| ==> GetPosting(cfg, relevant, postfix, ps[i]) == Ok(r[i])
  {
    if |ps| > 0 {
      var n := |ps| - 1;
      GetPostingsPointwise(cfg, relevant, postfix, ps[..n]);
      var front := GetPostings(cfg, relevant, postfix, ps[..n]).value;
      var r := GetPostings(cfg, relevant, postfix, ps).value;
      assert forall i :: 0 <= i < n ==> r[i] == front[i] && ps[i] == ps[..n][i];
    }
  }

  /** Moving postings between accounts keeps every currency's total. */
  lemma {:induction false} GetPostingsBalanced(cfg: ConsolidatorConfig, relevant: set<Account>, postfix: string, ps: seq<Posting>, c: Currency)
    requires GetPostings(cfg, relevant, postfix, ps).Ok?
    ensures CurrencySum(GetPostings(cfg, relevant, postfix, ps).value, c) == CurrencySum(ps, c)
  {
    if |ps| > 0 {
      var n := |ps| - 1;
      GetPostingsBalanced(cfg, relevant, postfix, ps[..n], c);
      var front := GetPostings(cfg, relevant, postfix, ps[..n]).value;
      var last := GetPosting(cfg, relevant, postfix, ps[n]).value;
      var r := front + [last];
      assert r[..|r| - 1] == front && r[|r| - 1] == last;
    }
  }

  /** A consolidated transaction balances exactly when the original does. */
  lemma ConsolidateBalanced(cfg: ConsolidatorConfig, t: Transaction)
    requires Consolidate(cfg, t).Ok?
    ensures Balanced(Consolidate(cfg, t).value.postings) <==> Balanced(t.postings)
  {
    var relevant := RelevantAccounts(cfg, t.postings);
    forall c: Currency
      ensures CurrencySum(Consolidate(cfg, t).value.postings, c) == CurrencySum(t.postings, c)
    {
      GetPostingsBalanced(cfg, relevant, cfg.consolidateAccountPostfix.GetOr(""), t.postings, c);
    }
  }

  lemma GetPostingsStep(cfg: ConsolidatorConfig, relevant: set<Account>, postfix: string, ps: seq<Posting>, i: nat, out: seq<Posting>)
    requires i < |ps| && GetPostings(cfg, relevant, postfix, ps[..i]) == Ok(out)
    ensures GetPosting(cfg, relevant, postfix, ps[i]).Ok? ==>
      GetPostings(cfg, relevant, postfix, ps[..i + 1]) == Ok(out + [GetPosting(cfg, relevant, postfix, ps[i]).value])
    ensures GetPosting(cfg, relevant, postfix, ps[i]).Err? ==>
      GetPostings(cfg, relevant, postfix, ps[..i + 1]) == Err(GetPosting(cfg, relevant, postfix, ps[i]).error)
  {
    assert ps[..i + 1][..i] == ps[..i];
  }

  lemma {:induction false} GetPostingsPrefixErr(cfg: ConsolidatorConfig, relevant: set<Account>, postfix: string, ps: seq<Posting>, k: nat)
    requires k <= |ps| && GetPostings(cfg, relevant, postfix, ps[..k]).Err?
    ensures GetPostings(cfg, relevant, postfix, ps) == Err(GetPostings(cfg, relevant, postfix, ps[..k]).error)
    decreases |ps| - k
  {
    if k < |ps| {
      assert ps[..k + 1][..k] == ps[..k];
      GetPostingsPrefixErr(cfg, relevant, postfix, ps, k + 1);
    } else {
      assert ps[..k] == ps;
    }
  }

  /** The sub-account one posting registers for `account`: none unless it is a tagged
      posting of that account with a text postfix. */
  function Added(cfg: ConsolidatorConfig, p: Posting, account: Account): set<Account> {
    if Tagged(cfg, p) && p.account == account && p.meta[cfg.metadataNameConsolidateAccountPostfix.value].Text?
    then {SubAccount(account, p.meta[cfg.metadataNameConsolidateAccountPostfix.value].text)} else {}
  }

  /** The sub-accounts the tagged postings of `account` register, posting by posting. */
  function Registered(cfg: ConsolidatorConfig, ps: seq<Posting>, account: Account): set<Account> {
    if |ps| == 0 then {} else Registered(cfg, ps[..|ps| - 1], account) + Added(cfg, ps[|ps| - 1], account)
  }

  /** The sub-account a tagged posting of `account` names with a text postfix. */
  predicate Names(cfg: ConsolidatorConfig, p: Posting, account: Account, sub: Account) {
    Tagged(cfg, p) && p.account == account && p.meta[cfg.metadataNameConsolidateAccountPostfix.value].Text?
    && sub == SubAccount(account, p.meta[cfg.metadataNameConsolidateAccountPostfix.value].text)
  }

  /** An account is registered for `account` exactly when some tagged posting of
      `account` carries it as its postfix. */
  lemma {:induction false} RegisteredMeaning(cfg: ConsolidatorConfig, ps: seq<Posting>, account: Account, sub: Account)
    ensures sub in Registered(cfg, ps, account) <==> exists i :: 0 <= i < |ps| && Names(cfg, ps[i], account, sub)
  {
    if |ps| > 0 {
      var n := |ps| - 1;
      RegisteredMeaning(cfg, ps[..n], account, sub);
      assert sub in Added(cfg, ps[n], account) <==> Names(cfg, ps[n], account, sub);
      if sub in Registered(cfg, ps[..n], account) {
        var i :| 0 <= i < n && Names(cfg, ps[..n][i], account, sub);
        assert ps[i] == ps[..n][i];
      }
      if exists i :: 0 <= i < |ps| && Names(cfg, ps[i], account, sub) {
        var i :| 0 <= i < |ps| && Names(cfg, ps[i], account, sub);
        if i < n {
          assert ps[..n][i] == ps[i];
        }
      }
    }
  }

  lemma RegisteredStep(cfg: ConsolidatorConfig, ps: seq<Posting>, i: nat, account: Account)
    requires i < |ps|
    ensures Registered(cfg, ps[..i + 1], account) == Registered(cfg, ps[..i], account) + Added(cfg, ps[i], account)
  {
    assert ps[..i + 1][..i] == ps[..i];
  }

  /** `get_account_consolidators`: one fresh record per relevant account, to
      `account:postfix` and without additional accounts, in the order the set
      yields them. */
  method GetAccountConsolidators(relevant: set<Account>, postfix: string)
    returns (keys: seq<Account>, byAccount: map<Account, Consolidation.AccountConsolidationData>)
    ensures byAccount.Keys == relevant && |keys| == |relevant|
    ensures forall a :: a in relevant <==> a in keys
    ensures forall i, j :: 0 <= i < j < |keys| ==> keys[i] != keys[j]
    ensures forall a :: a in byAccount ==>
      fresh(byAccount[a]) && byAccount[a].originalAccount == a
      && byAccount[a].toAccount == SubAccount(a, postfix) && byAccount[a].additionalAccounts == {}
  {
    keys := [];
    byAccount := map[];
    var rest := relevant;
    while rest != {}
      invariant Consolidation.Taken(relevant, rest, keys) && byAccount.Keys == relevant - rest
      invariant forall a :: a in byAccount ==>
        fresh(byAccount[a]) && byAccount[a].originalAccount == a
        && byAccount[a].toAccount == SubAccount(a, postfix) && byAccount[a].additionalAccounts == {}
      decreases |rest|
    {
      var a :| a in rest;
      Consolidation.PickStep(relevant, rest, keys, a);
      var d := new Consolidation.AccountConsolidationData(a, SubAccount(a, postfix), None);
      byAccount := byAccount[a := d];
      keys := keys + [a];
      rest := rest - {a};
    }
  }

  /** The posting loop of `execute`: each posting through `get_posting`, a tagged one
      adding its sub-account to its account's record. */
  method MovePostings(cfg: ConsolidatorConfig, postfix: string, ps: seq<Posting>,
                      byAccount: map<Account, Consolidation.AccountConsolidationData>)
    returns (res: Result<seq<Posting>>)
    requires forall a :: a in byAccount ==>
      byAccount[a].originalAccount == a && byAccount[a].toAccount == SubAccount(a, postfix) && byAccount[a].additionalAccounts == {}
    requires forall i :: 0 <= i < |ps| && Tagged(cfg, ps[i]) ==> ps[i].account in byAccount
    modifies byAccount.Values
    ensures res == GetPostings(cfg, byAccount.Keys, postfix, ps)
    ensures forall a :: a in byAccount ==>
      byAccount[a].originalAccount == a && byAccount[a].toAccount == SubAccount(a, postfix)
    ensures res.Ok? ==> forall a :: a in byAccount ==> byAccount[a].additionalAccounts == Registered(cfg, ps, a)
  {
    var relevant := byAccount.Keys;
    var out := [];
    var i := 0;
    while i < |ps|
      invariant 0 <= i <= |ps|
      invariant GetPostings(cfg, relevant, postfix, ps[..i]) == Ok(out)
      invariant forall a :: a in byAccount ==>
        byAccount[a].originalAccount == a && byAccount[a].toAccount == SubAccount(a, postfix)
        && byAccount[a].additionalAccounts == Registered(cfg, ps[..i], a)
    {
      forall a | a in byAccount {
        RegisteredStep(cfg, ps, i, a);
      }
      GetPostingsStep(cfg, relevant, postfix, ps, i, out);
      var moved := GetPostingInPlace(cfg, postfix, ps[i], byAccount);
      if moved.Err? {
        GetPostingsPrefixErr(cfg, relevant, postfix, ps, i + 1);
        return Err(moved.error);
      }
      out := out + [moved.value];
      i := i + 1;
    }
    assert ps[..i] == ps;
    res := Ok(out);
  }

  /** `get_posting`: a tagged posting moves to `account:<its postfix>`, which is
      registered with its account's record (a postfix that is not text fails before
      the lookup, and an account without a record fails at it); another posting of a
      relevant account moves to the record's target; any other posting stays. No
      other record changes. */
  method GetPostingInPlace(cfg: ConsolidatorConfig, postfix: string, p: Posting,
                           byAccount: map<Account, Consolidation.AccountConsolidationData>)
    returns (r: Result<Posting>)
    requires forall a :: a in byAccount ==> byAccount[a].originalAccount == a && byAccount[a].toAccount == SubAccount(a, postfix)
    modifies byAccount.Values
    ensures Tagged(cfg, p) && p.account !in byAccount ==> r.Err?
    ensures !Tagged(cfg, p) || p.account in byAccount ==> r == GetPosting(cfg, byAccount.Keys, postfix, p)
    ensures forall a :: a in byAccount ==>
      byAccount[a].originalAccount == a && byAccount[a].toAccount == SubAccount(a, postfix)
      && byAccount[a].additionalAccounts == old(byAccount[a].additionalAccounts) + (if r.Ok? then Added(cfg, p, a) else {})
  {
    if Tagged(cfg, p) {
      var v := p.meta[cfg.metadataNameConsolidateAccountPostfix.value];
      if !v.Text? {
        return Err("TypeError: consolidate account postfix is not a string");
      }
      if p.account !in byAccount {
        return Err("KeyError: " + p.account);
      }
      var account := SubAccount(p.account, v.text);
      var rec := byAccount[p.account];
      rec.AddAdditionalAccounts({account});
      r := Ok(p.(account := account));
    } else if p.account in byAccount {
      r := Ok(p.(account := byAccount[p.account].toAccount));
    } else {
      r := Ok(p);
    }
  }

  /** `list(account_consolidators.values())` once every posting has been moved. */
  method RecordsOf(relevant: set<Account>, keys: seq<Account>, byAccount: map<Account, Consolidation.AccountConsolidationData>)
    returns (records: seq<Consolidation.AccountConsolidationData>)
    requires byAccount.Keys == relevant && |keys| == |relevant|
    requires forall a :: a in relevant <==> a in keys
    requires forall a :: a in byAccount ==> byAccount[a].originalAccount == a
    ensures |records| == |relevant|
    ensures forall a :: a in relevant <==> exists k :: 0 <= k < |records| && records[k].originalAccount == a
    ensures forall k :: 0 <= k < |records| ==> records[k] == byAccount[records[k].originalAccount]
  {
    records := seq(|keys|, k requires 0 <= k < |keys| => byAccount[keys[k]]);
    forall a | a in relevant
      ensures exists k :: 0 <= k < |records| && records[k].originalAccount == a
    {
      var k :| 0 <= k < |keys| && keys[k] == a;
      assert records[k] == byAccount[a];
    }
    forall k | 0 <= k < |records|
      ensures records[k].originalAccount in relevant && records[k] == byAccount[records[k].originalAccount]
    {
      assert records[k] == byAccount[keys[k]] && keys[k] in keys;
    }
  }

  /** `execute`: the moved postings and, per relevant account, its record: to
      `account:postfix`, with exactly the sub-accounts its tagged postings moved to. */
  method Execute(cfg: ConsolidatorConfig, entry: Transaction)
    returns (r: Result<Transaction>, records: seq<Consolidation.AccountConsolidationData>)
    ensures r == Consolidate(cfg, entry)
    ensures r.Ok? ==> |records| == |RelevantAccounts(cfg, entry.postings)|
    ensures r.Ok? ==> forall a :: a in RelevantAccounts(cfg, entry.postings) <==>
      exists k :: 0 <= k < |records| && records[k].originalAccount == a
    ensures r.Ok? ==> forall k :: 0 <= k < |records| ==>
      records[k].toAccount == SubAccount(records[k].originalAccount, cfg.consolidateAccountPostfix.value)
      && records[k].additionalAccounts == Registered(cfg, entry.postings, records[k].originalAccount)
  {
    var ps := entry.postings;
    var relevant := RelevantAccounts(cfg, ps);
    if relevant != {} && cfg.consolidateAccountPostfix.None? {
      return Err("TypeError: no consolidate account postfix"), [];
    }
    var postfix := cfg.consolidateAccountPostfix.GetOr("");
    var keys, byAccount := GetAccountConsolidators(relevant, postfix);
    var res := MovePostings(cfg, postfix, ps, byAccount);
    if res.Err? {
      return Err(res.error), [];
    }
    r := Ok(entry.(postings := res.value));
    records := RecordsOf(relevant, keys, byAccount);
    if relevant == {} {
      assert |records| == 0;
    }
  }
}
