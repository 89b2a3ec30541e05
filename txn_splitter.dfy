/** The txn splitter plugin: for every rule, a transaction with exactly one dated
    posting has that posting moved into a new transaction of its own, balanced by a
    transfer posting; the original keeps a transfer posting of the same units in
    its place. The originals are changed in place and the new transactions are
    appended after all entries. */
module TxnSplitting {
  import opened Results
  import opened Ledger
  import opened PostingEdits
  import Seqs

  datatype TxnRule = TxnRule(
    metadataNameDate: string,
    metadataNameTransferAccount: Option<string>,
    transferAccount: Option<Account>,
    narration: Option<string>)

  /** The configuration text: the rules it holds, or text that does not parse. */
  datatype ConfigText = Parsed(rules: seq<TxnRule>) | Malformed(text: string)

  datatype PluginError = PluginError(message: string)

  predicate Configured(rule: TxnRule) {
    rule.metadataNameTransferAccount.Some? || rule.transferAccount.Some?
  }

  /** The relevance filter: dated, and carrying the transfer-account key when the
      rule takes the account from metadata. */
  predicate Relevant(rule: TxnRule, q: Posting) {
    rule.metadataNameDate in q.meta
    && (rule.metadataNameTransferAccount.Some? ==> rule.metadataNameTransferAccount.value in q.meta)
  }

  function Relevants(rule: TxnRule, ps: seq<Posting>): (r: seq<Posting>)
    ensures |r| <= |ps|
    ensures forall i :: 0 <= i < |r| ==> Relevant(rule, r[i])
  {
    if |ps| == 0 then []
    else Relevants(rule, ps[..|ps| - 1]) + (if Relevant(rule, ps[|ps| - 1]) then [ps[|ps| - 1]] else [])
  }
  /** The relevance test as a value, for `Seqs.Filtered`. */
  function Keep(rule: TxnRule): Posting -> bool {
    q => Relevant(rule, q)
  }

  /** The relevant postings are exactly the postings that pass the test, in input
      order: `[q for q in postings if relevant(q)]`. */
  lemma {:induction false} RelevantsFiltered(rule: TxnRule, ps: seq<Posting>)
    ensures Seqs.Filtered(Relevants(rule, ps), ps, Keep(rule))
  {
    if |ps| == 0 {
      Seqs.FilteredEmpty(Keep(rule));
    } else {
      var n := |ps| - 1;
      RelevantsFiltered(rule, ps[..n]);
      Seqs.FilteredSnoc(Relevants(rule, ps[..n]), ps[..n], Keep(rule), ps[n]);
      assert ps[..n] + [ps[n]] == ps;
    }
  }


  /** The keys to delete, in order: the date key, then the transfer-account key. */
  function Removal(rule: TxnRule): seq<string> {
    [rule.metadataNameDate] + (if rule.metadataNameTransferAccount.Some? then [rule.metadataNameTransferAccount.value] else [])
  }

  /** `__try_create_txn`: the changed original and the new transaction, or nothing
      when the rule names no transfer account or the transaction does not have
      exactly one relevant posting. */
  function TryCreate(rule: TxnRule, t: Transaction): (r: Result<Option<(Transaction, Transaction)>>)
    ensures r == Ok(None) <==> !Configured(rule) || |Relevants(rule, t.postings)| != 1
  {
    var rel := Relevants(rule, t.postings);
    if !Configured(rule) || |rel| != 1 then Ok(None)
    else
      var p := rel[0];
      var account :- TransferAccountOf(rule, p);
      var date :- DateOf(rule, p);
      var narration := rule.narration.GetOr(t.narration);
      var meta :- DeleteAll(p.meta, Removal(rule));
      var s := p.(meta := meta);
      var original := t.(postings := RemoveFirst(Replace(t.postings, p, s), s) + [PlainPosting(account, p.units.number, p.units.currency)]);
      Ok(Some((original, NewTxn(original, s, date, narration, account))))
  }

  /** `__create_new_txn`: a copy of the changed original without payee, with the
      rule's narration, the posting's date, the posting and its negated transfer. */
  function NewTxn(original: Transaction, s: Posting, date: Date, narration: string, account: Account): Transaction {
    original.(payee := None, narration := narration, date := date, postings := [s, PlainPosting(account, -s.units.number, s.units.currency)])
  }

  function TransferAccountOf(rule: TxnRule, p: Posting): Result<Account>
    requires Relevant(rule, p)
  {
    if rule.metadataNameTransferAccount.Some? then
      var v := p.meta[rule.metadataNameTransferAccount.value];
      if v.Text? then Ok(v.text) else Err("transfer account is not a string")
    else if rule.transferAccount.Some? then Ok(rule.transferAccount.value)
    else Err("no transfer account")
  }

  function DateOf(rule: TxnRule, p: Posting): Result<Date>
    requires Relevant(rule, p)
  {
    var v := p.meta[rule.metadataNameDate];
    if v.DateValue? then Ok(v.date) else Err("split date is not a date")
  }

  /** The rules applied in turn to one transaction, each to the result of the
      ones before: the final original and the new transactions, in rule order. */
  function ApplyRules(rules: seq<TxnRule>, t: Transaction): Result<(Transaction, seq<Transaction>)> {
    if |rules| == 0 then Ok((t, []))
    else
      var front :- ApplyRules(rules[..|rules| - 1], t);
      var made :- TryCreate(rules[|rules| - 1], front.0);
      if made.None? then Ok(front) else Ok((made.value.0, front.1 + [made.value.1]))
  }

  /** The loop over the entries: each entry as it ends up, and the new transactions. */
  function ProcessEntries(rules: seq<TxnRule>, entries: seq<Entry>): (r: Result<(seq<Entry>, seq<Transaction>)>)
    ensures r.Ok? ==> |r.value.0| == |entries|
  {
    if |entries| == 0 then Ok(([], []))
    else
      var n := |entries| - 1;
      var front :- ProcessEntries(rules, entries[..n]);
      if entries[n].TxnEntry? then
        var (t, news) :- ApplyRules(rules, entries[n].txn);
        Ok((front.0 + [TxnEntry(t)], front.1 + news))
      else Ok((front.0 + [entries[n]], front.1))
  }

  function Entries(ts: seq<Transaction>): (r: seq<Entry>)
    ensures |r| == |ts| && forall i :: 0 <= i < |ts| ==> r[i] == TxnEntry(ts[i])
  {
    if |ts| == 0 then [] else Entries(ts[..|ts| - 1]) + [TxnEntry(ts[|ts| - 1])]
  }

  /** `TxnSplitter.split`: the entries as changed, followed by the new transactions;
      a configuration that does not parse gives back the entries and one error. */
  function Run(config: ConfigText, entries: seq<Entry>): (r: Result<(seq<Entry>, seq<PluginError>)>)
    ensures config.Malformed? ==> r.Ok? && r.value.0 == entries && |r.value.1| == 1
    ensures config.Parsed? && r.Ok? ==> r.value.1 == [] && |r.value.0| >= |entries|
  {
    match config
    case Malformed(text) => Ok((entries, [PluginError("Syntax error in config: " + text)]))
    case Parsed(rules) =>
      var (changed, news) :- ProcessEntries(rules, entries);
      Ok((changed + Entries(news), []))
  }

  // Properties.

  lemma DeleteAllRemoval(rule: TxnRule, p: Posting)
    requires Relevant(rule, p)
    ensures DeleteAll(p.meta, Removal(rule)).Ok? <==>
      rule.metadataNameTransferAccount.None? || rule.metadataNameTransferAccount.value != rule.metadataNameDate
  {
    var names := Removal(rule);
    if rule.metadataNameTransferAccount.Some? {
      assert names == [rule.metadataNameDate, rule.metadataNameTransferAccount.value];
    } else {
      assert names == [rule.metadataNameDate];
    }
  }

  /** A split moves the relevant posting, without the consumed keys, into a new
      transaction that balances; the original keeps its totals in every currency
      and its other fields. */
  lemma TryCreateSplits(rule: TxnRule, t: Transaction)
    requires TryCreate(rule, t).Ok? && TryCreate(rule, t).value.Some?
    ensures var (original, n) := TryCreate(rule, t).value.value;
      var p := Relevants(rule, t.postings)[0];
      |Relevants(rule, t.postings)| == 1
      && n.payee == None && n.narration == rule.narration.GetOr(t.narration)
      && n.meta == t.meta && n.flag == t.flag && n.tags == t.tags && n.links == t.links
      && DateOf(rule, p) == Ok(n.date)
      && |n.postings| == 2 && n.postings[0] == p.(meta := p.meta - KeySet(Removal(rule)))
      && n.postings[1].units == Neg(p.units) && n.postings[1].account == original.postings[|original.postings| - 1].account
      && original.postings[|original.postings| - 1].units == p.units
      && original.(postings := t.postings) == t
  {
    var p := Relevants(rule, t.postings)[0];
    var meta := DeleteAll(p.meta, Removal(rule)).value;
    assert meta == p.meta - KeySet(Removal(rule));
  }

  /** Both halves keep the books: the new transaction balances, and the original sums
      in every currency to what it summed to before. */
  lemma TryCreateBalances(rule: TxnRule, t: Transaction)
    requires TryCreate(rule, t).Ok? && TryCreate(rule, t).value.Some?
    ensures var (original, n) := TryCreate(rule, t).value.value;
      Balanced(n.postings) && forall c :: CurrencySum(original.postings, c) == CurrencySum(t.postings, c)
  {
    var p := Relevants(rule, t.postings)[0];
    var account := TransferAccountOf(rule, p).value;
    var date := DateOf(rule, p).value;
    var meta := DeleteAll(p.meta, Removal(rule)).value;
    var s := p.(meta := meta);
    var kept := RemoveFirst(Replace(t.postings, p, s), s) + [PlainPosting(account, p.units.number, p.units.currency)];
    var original := t.(postings := kept);
    var n := NewTxn(original, s, date, rule.narration.GetOr(t.narration), account);
    assert TryCreate(rule, t).value.value == (original, n);
    RelevantsMember(rule, t.postings, 0);
    forall c ensures CurrencySum(kept, c) == CurrencySum(t.postings, c) {
      RemoveReplacedSum(t.postings, p, s, account, c);
    }
    PairBalanced(s, account);
  }

  /** When no other posting equals the relevant one without its consumed keys, the
      original loses exactly that posting and gains the transfer. */
  lemma TryCreateMovesPosting(rule: TxnRule, t: Transaction)
    requires TryCreate(rule, t).Ok? && TryCreate(rule, t).value.Some?
    requires var s := TryCreate(rule, t).value.value.1.postings[0];
      forall i :: 0 <= i < |t.postings| ==> t.postings[i] != s
    ensures var (original, n) := TryCreate(rule, t).value.value;
      var p := Relevants(rule, t.postings)[0];
      original.postings == RemoveFirst(t.postings, p) + [original.postings[|original.postings| - 1]]
  {
    var p := Relevants(rule, t.postings)[0];
    var s := TryCreate(rule, t).value.value.1.postings[0];
    RelevantsMember(rule, t.postings, 0);
    forall i, j | 0 <= i < j < |t.postings| && t.postings[i] == p
      ensures t.postings[j] != p
    {
      if t.postings[j] == p {
        TwoRelevant(rule, t.postings, i, j);
      }
    }
    ReplaceThenRemove(t.postings, p, s);
  }

  lemma {:induction false} RelevantsMember(rule: TxnRule, ps: seq<Posting>, k: nat)
    requires k < |Relevants(rule, ps)|
    ensures Relevants(rule, ps)[k] in ps
    decreases |ps|
  {
    var n := |ps| - 1;
    var front := Relevants(rule, ps[..n]);
    if k < |front| {
      RelevantsMember(rule, ps[..n], k);
    }
  }

  lemma {:induction false} TwoRelevant(rule: TxnRule, ps: seq<Posting>, i: nat, j: nat)
    requires i < j < |ps| && Relevant(rule, ps[i]) && Relevant(rule, ps[j])
    ensures |Relevants(rule, ps)| >= 2
    decreases |ps|
  {
    var n := |ps| - 1;
    if j == n {
      OneRelevant(rule, ps[..n], i);
    } else {
      TwoRelevant(rule, ps[..n], i, j);
    }
  }

  lemma {:induction false} OneRelevant(rule: TxnRule, ps: seq<Posting>, i: nat)
    requires i < |ps| && Relevant(rule, ps[i])
    ensures |Relevants(rule, ps)| >= 1
    decreases |ps|
  {
    var n := |ps| - 1;
    if i < n {
      OneRelevant(rule, ps[..n], i);
    }
  }

  /** Splitting keeps the books: starting from a balanced transaction, the final
      original and every new transaction balance. */
  lemma {:induction false} ApplyRulesBalanced(rules: seq<TxnRule>, t: Transaction)
    requires Balanced(t.postings) && ApplyRules(rules, t).Ok?
    ensures var (final, news) := ApplyRules(rules, t).value;
      Balanced(final.postings) && forall i :: 0 <= i < |news| ==> Balanced(news[i].postings)
  {
    if |rules| > 0 {
      var front := ApplyRules(rules[..|rules| - 1], t).value;
      ApplyRulesBalanced(rules[..|rules| - 1], t);
      var made := TryCreate(rules[|rules| - 1], front.0).value;
      if made.Some? {
        TryCreateBalances(rules[|rules| - 1], front.0);
      }
    }
  }

  /** The entries keep their places: every entry comes back at its index, other
      entries unchanged, and the new transactions follow. */
  lemma {:induction false} ProcessEntriesInPlace(rules: seq<TxnRule>, entries: seq<Entry>)
    requires ProcessEntries(rules, entries).Ok?
    ensures var (changed, _) := ProcessEntries(rules, entries).value;
      |changed| == |entries|
      && forall i :: 0 <= i < |entries| ==>
           (entries[i].TxnEntry? ==> ApplyRules(rules, entries[i].txn).Ok?
                                     && changed[i] == TxnEntry(ApplyRules(rules, entries[i].txn).value.0))
           && (!entries[i].TxnEntry? ==> changed[i] == entries[i])
  {
    if |entries| > 0 {
      ProcessEntriesInPlace(rules, entries[..|entries| - 1]);
    }
  }

  /** Every transaction the plugin returns balances when every transaction it was
      given does. */
  lemma RunBalanced(rules: seq<TxnRule>, entries: seq<Entry>)
    requires forall i :: 0 <= i < |entries| && entries[i].TxnEntry? ==> Balanced(entries[i].txn.postings)
    requires Run(Parsed(rules), entries).Ok?
    ensures var out := Run(Parsed(rules), entries).value.0;
      forall i :: 0 <= i < |out| && out[i].TxnEntry? ==> Balanced(out[i].txn.postings)
  {
    var (changed, news) := ProcessEntries(rules, entries).value;
    ProcessEntriesInPlace(rules, entries);
    forall i | 0 <= i < |entries| && entries[i].TxnEntry?
      ensures Balanced(changed[i].txn.postings)
    {
      ApplyRulesBalanced(rules, entries[i].txn);
    }
    ProcessEntriesBalanced(rules, entries);
    var out := changed + Entries(news);
    forall i | 0 <= i < |out| && out[i].TxnEntry?
      ensures Balanced(out[i].txn.postings)
    {
      if i >= |changed| {
        assert out[i] == TxnEntry(news[i - |changed|]);
      }
    }
  }

  lemma {:induction false} ProcessEntriesBalanced(rules: seq<TxnRule>, entries: seq<Entry>)
    requires forall i :: 0 <= i < |entries| && entries[i].TxnEntry? ==> Balanced(entries[i].txn.postings)
    requires ProcessEntries(rules, entries).Ok?
    ensures var news := ProcessEntries(rules, entries).value.1;
      forall i :: 0 <= i < |news| ==> Balanced(news[i].postings)
  {
    if |entries| > 0 {
      var n := |entries| - 1;
      ProcessEntriesBalanced(rules, entries[..n]);
      if entries[n].TxnEntry? {
        ApplyRulesBalanced(rules, entries[n].txn);
      }
    }
  }

  // The loops the source runs.

  /** `__try_create_txn` */
  method TryCreateTxn(rule: TxnRule, t: Transaction) returns (r: Result<Option<(Transaction, Transaction)>>)
    ensures r == TryCreate(rule, t)
  {
    var rel := Relevants(rule, t.postings);
    if !Configured(rule) || |rel| != 1 {
      return Ok(None);
    }
    var p := rel[0];
    var account := TransferAccountOf(rule, p);
    if account.Err? {
      return Err(account.error);
    }
    var date := DateOf(rule, p);
    if date.Err? {
      return Err(date.error);
    }
    var narration := if rule.narration.Some? then rule.narration.value else t.narration;
    var meta := DeleteEach(p.meta, Removal(rule));
    if meta.Err? {
      return Err(meta.error);
    }
    var s := p.(meta := meta.value);
    var postings := RemoveFirst(Replace(t.postings, p, s), s) + [PlainPosting(account.value, p.units.number, p.units.currency)];
    var original := t.(postings := postings);
    r := Ok(Some((original, NewTxn(original, s, date.value, narration, account.value))));
  }

  /** The rules loop for one transaction. */
  method SplitTransaction(rules: seq<TxnRule>, t0: Transaction) returns (r: Result<(Transaction, seq<Transaction>)>)
    ensures r == ApplyRules(rules, t0)
  {
    var t := t0;
    var news := [];
    var j := 0;
    while j < |rules|
      invariant 0 <= j <= |rules|
      invariant ApplyRules(rules[..j], t0) == Ok((t, news))
    {
      assert rules[..j + 1][..j] == rules[..j] && rules[..j + 1][j] == rules[j];
      var made := TryCreateTxn(rules[j], t);
      if made.Err? {
        ApplyRulesPrefixErr(rules, t0, j + 1);
        return Err(made.error);
      }
      if made.value.Some? {
        t := made.value.value.0;
        news := news + [made.value.value.1];
      }
      j := j + 1;
    }
    assert rules[..j] == rules;
    r := Ok((t, news));
  }

  lemma {:induction false} ApplyRulesPrefixErr(rules: seq<TxnRule>, t: Transaction, k: nat)
    requires k <= |rules| && ApplyRules(rules[..k], t).Err?
    ensures ApplyRules(rules, t) == Err(ApplyRules(rules[..k], t).error)
    decreases |rules| - k
  {
    if k < |rules| {
      assert rules[..k + 1][..k] == rules[..k];
      ApplyRulesPrefixErr(rules, t, k + 1);
    } else {
      assert rules[..k] == rules;
    }
  }

  /** `TxnSplitter.split` */
  method Split(config: ConfigText, entries: seq<Entry>) returns (r: Result<(seq<Entry>, seq<PluginError>)>)
    ensures r == Run(config, entries)
  {
    if config.Malformed? {
      return Ok((entries, [PluginError("Syntax error in config: " + config.text)]));
    }
    var rules := config.rules;
    var changed := [];
    var news := [];
    var i := 0;
    while i < |entries|
      invariant 0 <= i <= |entries|
      invariant ProcessEntries(rules, entries[..i]) == Ok((changed, news))
    {
      assert entries[..i + 1][..i] == entries[..i] && entries[..i + 1][i] == entries[i];
      if entries[i].TxnEntry? {
        var split := SplitTransaction(rules, entries[i].txn);
        if split.Err? {
          ProcessEntriesPrefixErr(rules, entries, i + 1);
          return Err(split.error);
        }
        changed := changed + [TxnEntry(split.value.0)];
        news := news + split.value.1;
      } else {
        changed := changed + [entries[i]];
      }
      i := i + 1;
    }
    assert entries[..i] == entries;
    r := Ok((changed + Entries(news), []));
  }

  lemma {:induction false} ProcessEntriesPrefixErr(rules: seq<TxnRule>, entries: seq<Entry>, k: nat)
    requires k <= |entries| && ProcessEntries(rules, entries[..k]).Err?
    ensures ProcessEntries(rules, entries) == Err(ProcessEntries(rules, entries[..k]).error)
    decreases |entries| - k
  {
    if k < |entries| {
      assert entries[..k + 1][..k] == entries[..k];
      ProcessEntriesPrefixErr(rules, entries, k + 1);
    } else {
      assert entries[..k] == entries;
    }
  }
}
