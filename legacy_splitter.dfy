/** The first-generation transaction splitter: every dated posting of a transaction
    is taken out into a transaction of its own, balanced by a transfer posting, and
    the original keeps a transfer posting of the same units in its place. */
module LegacySplitter {
  import opened Results
  import Seqs
  import opened Ledger

  /** One splitting rule. `invertedDateMode` is `inverted-date-mode is True`. */
  datatype LegacyRule = LegacyRule(
    metadataNameDate: string,
    metadataNameTransferAccount: Option<string>,
    transferAccount: Option<Account>,
    account: Option<Account>,
    invertedDateMode: bool,
    metadataNameNarration: Option<string>,
    narration: Option<string>)

  /** The rule names a transfer account, literally or through metadata. */
  predicate Configured(rule: LegacyRule) {
    rule.metadataNameTransferAccount.Some? || rule.transferAccount.Some?
  }

  /** The relevance filters: dated, carrying the transfer-account key when that is
      configured, and otherwise on the rule's account when one is given. */
  predicate Relevant(rule: LegacyRule, p: Posting) {
    rule.metadataNameDate in p.meta
    && (rule.metadataNameTransferAccount.Some? ==> rule.metadataNameTransferAccount.value in p.meta)
    && (rule.metadataNameTransferAccount.None? && rule.account.Some? ==> p.account == rule.account.value)
  }

  /** The relevant postings, in order. */
  function Keep(rule: LegacyRule, ps: seq<Posting>): (r: seq<Posting>)
    ensures |r| <= |ps|
    ensures forall i :: 0 <= i < |r| ==> Relevant(rule, r[i])
  {
    if |ps| == 0 then []
    else (if Relevant(rule, ps[0]) then [ps[0]] else []) + Keep(rule, ps[1..])
  }

  /** The other postings, in order. */
  function Drop(rule: LegacyRule, ps: seq<Posting>): (r: seq<Posting>)
    ensures |r| <= |ps|
    ensures forall i :: 0 <= i < |r| ==> !Relevant(rule, r[i])
  {
    if |ps| == 0 then []
    else (if Relevant(rule, ps[0]) then [] else [ps[0]]) + Drop(rule, ps[1..])
  }

  /** The keys a relevant posting loses: the date key, the transfer-account key when
      configured, and the narration key when it supplied the narration and is not
      empty. */
  function KeysToRemove(rule: LegacyRule, narrationKey: Option<string>): set<string> {
    {rule.metadataNameDate}
    + (if rule.metadataNameTransferAccount.Some? then {rule.metadataNameTransferAccount.value} else {})
    + (if narrationKey.Some? && narrationKey.value != "" then {narrationKey.value} else {})
  }

  /** `transfer_account_get` on a relevant posting. */
  function TransferAccountOf(rule: LegacyRule, p: Posting): (r: Result<Account>)
    requires Configured(rule) && Relevant(rule, p)
    ensures rule.metadataNameTransferAccount.None? ==> r == Ok(rule.transferAccount.value)
    ensures rule.metadataNameTransferAccount.Some? ==>
      (r.Ok? <==> p.meta[rule.metadataNameTransferAccount.value].Text?)
      && (r.Ok? ==> r.value == p.meta[rule.metadataNameTransferAccount.value].text)
  {
    if rule.metadataNameTransferAccount.Some? then
      match p.meta[rule.metadataNameTransferAccount.value]
      case Text(a) => Ok(a)
      case _ => Err("transfer account is not a string")
    else Ok(rule.transferAccount.value)
  }

  /** `__get_date` */
  function DateOf(rule: LegacyRule, p: Posting): Result<Date>
    requires rule.metadataNameDate in p.meta
  {
    match p.meta[rule.metadataNameDate]
    case DateValue(d) => Ok(d)
    case _ => Err("split date is not a date")
  }

  /** `__get_narration`: the metadata narration, which is then removed; else the
      rule's narration; else the transaction's. */
  function NarrationOf(rule: LegacyRule, t: Transaction, p: Posting): (r: Result<(string, Option<string>)>)
    ensures rule.metadataNameNarration.Some? && rule.metadataNameNarration.value in p.meta ==>
      var v := p.meta[rule.metadataNameNarration.value];
      (v.Text? ==> r == Ok((v.text, rule.metadataNameNarration))) && (!v.Text? ==> r.Err?)
    ensures !(rule.metadataNameNarration.Some? && rule.metadataNameNarration.value in p.meta) ==>
      r == Ok((rule.narration.GetOr(t.narration), None))
  {
    if rule.metadataNameNarration.Some? && rule.metadataNameNarration.value in p.meta then
      match p.meta[rule.metadataNameNarration.value]
      case Text(s) => Ok((s, rule.metadataNameNarration))
      case _ => Err("narration is not a string")
    else Ok((rule.narration.GetOr(t.narration), None))
  }

  /** One relevant posting: the new transaction (the posting without the consumed
      keys and the negated transfer, on the posting's date or in inverted mode the
      transaction's), and the transfer posting of the same units that takes the
      posting's place in the original. */
  function Step(rule: LegacyRule, t: Transaction, p: Posting): (r: Result<(Transaction, Posting)>)
    requires Configured(rule) && Relevant(rule, p)
    ensures r.Ok? ==>
      var (n, back) := r.value;
      |n.postings| == 2 && n.postings[0].units == p.units && n.postings[1].units == Neg(p.units)
      && n.postings[0].meta.Keys !! KeysToRemove(rule, None) && back.units == p.units
      && n.postings[1].account == back.account
      && n.meta == t.meta && n.flag == t.flag && n.payee == t.payee && n.tags == t.tags && n.links == t.links
      && (rule.invertedDateMode ==> n.date == t.date)
      && (!rule.invertedDateMode ==> DateOf(rule, p) == Ok(n.date))
  {
    var account :- TransferAccountOf(rule, p);
    var date :- if rule.invertedDateMode then Ok(t.date) else DateOf(rule, p);
    var narration :- NarrationOf(rule, t, p);
    var copy := p.(meta := Without(p.meta, KeysToRemove(rule, narration.1)));
    var n := t.(narration := narration.0, date := date,
                postings := [copy, Posting(account, Neg(p.units), None, None, None, map[])]);
    Ok((n, Posting(account, p.units, None, None, None, map[])))
  }

  /** A step fails exactly when the transfer account, the narration or (outside
      inverted mode) the date is not of its kind; otherwise the new transaction
      carries the chosen narration and the posting without the consumed keys, and
      the transfer posting goes to the transfer account. */
  lemma StepMeaning(rule: LegacyRule, t: Transaction, p: Posting)
    requires Configured(rule) && Relevant(rule, p)
    ensures Step(rule, t, p).Ok? <==>
      TransferAccountOf(rule, p).Ok? && NarrationOf(rule, t, p).Ok?
      && (rule.invertedDateMode || DateOf(rule, p).Ok?)
    ensures Step(rule, t, p).Ok? ==>
      var (n, back) := Step(rule, t, p).value;
      var narration := NarrationOf(rule, t, p).value;
      n.narration == narration.0
      && n.postings[0] == p.(meta := Without(p.meta, KeysToRemove(rule, narration.1)))
      && n.postings[1].account == TransferAccountOf(rule, p).value
      && back == Posting(n.postings[1].account, p.units, None, None, None, map[])
  {
  }

  /** The loop over the relevant postings: the new transactions and the transfer
      postings appended to the original, in order. */
  function Steps(rule: LegacyRule, t: Transaction, rel: seq<Posting>): Result<(seq<Transaction>, seq<Posting>)>
    requires Configured(rule) && forall i :: 0 <= i < |rel| ==> Relevant(rule, rel[i])
  {
    if |rel| == 0 then Ok(([], []))
    else
      var n := |rel| - 1;
      var front :- Steps(rule, t, rel[..n]);
      var last :- Step(rule, t, rel[n]);
      Ok((front.0 + [last.0], front.1 + [last.1]))
  }

  /** `__try_create_txn`: the new transactions, one per relevant posting, followed by
      the original, which keeps its other postings and gains one transfer per
      relevant posting. Without a transfer account, or without relevant postings,
      the transaction is returned alone. With inverted dates and one relevant
      posting, the original moves to the posting's date. */
  function TryCreateTxn(rule: LegacyRule, t: Transaction): (r: Result<seq<Transaction>>)
    ensures !Configured(rule) || |Keep(rule, t.postings)| == 0 ==> r == Ok([t])
    ensures r.Ok? ==> |r.value| > 0
  {
    var rel := Keep(rule, t.postings);
    if !Configured(rule) || |rel| == 0 then Ok([t])
    else
      var date :- OriginalDate(rule, t, rel);
      var out :- Steps(rule, t, rel);
      Ok(out.0 + [Modified(rule, t, date, out.1)])
  }

  /** The original's date: the single relevant posting's in inverted mode. */
  function OriginalDate(rule: LegacyRule, t: Transaction, rel: seq<Posting>): Result<Date>
    requires forall i :: 0 <= i < |rel| ==> Relevant(rule, rel[i])
  {
    if rule.invertedDateMode && |rel| == 1 then
      assert Relevant(rule, rel[0]);
      DateOf(rule, rel[0])
    else Ok(t.date)
  }

  /** The original after the loop: its other postings, then the transfers. */
  function Modified(rule: LegacyRule, t: Transaction, date: Date, backs: seq<Posting>): Transaction {
    t.(date := date, postings := Drop(rule, t.postings) + backs)
  }

  /** `Steps` is the pointwise `Step`. */
  lemma {:induction false} StepsPointwise(rule: LegacyRule, t: Transaction, rel: seq<Posting>)
    requires Configured(rule) && forall i :: 0 <= i < |rel| ==> Relevant(rule, rel[i])
    requires Steps(rule, t, rel).Ok?
    ensures var (news, backs) := Steps(rule, t, rel).value;
      |news| == |rel| && |backs| == |rel|
      && forall i :: 0 <= i < |rel| ==> Step(rule, t, rel[i]) == Ok((news[i], backs[i]))
  {
    if |rel| > 0 {
      var n := |rel| - 1;
      StepsPointwise(rule, t, rel[..n]);
      var front := Steps(rule, t, rel[..n]).value;
      var last := Step(rule, t, rel[n]).value;
      var all := Steps(rule, t, rel).value;
      assert all == (front.0 + [last.0], front.1 + [last.1]);
      forall i | 0 <= i < |rel| ensures Step(rule, t, rel[i]) == Ok((all.0[i], all.1[i])) {
        if i < n {
          assert rel[i] == rel[..n][i];
          Seqs.IndexSnoc(front.0, last.0, i);
          Seqs.IndexSnoc(front.1, last.1, i);
        }
      }
    }
  }

  /** The transfer postings carry the relevant postings' units, so they sum alike. */
  lemma {:induction false} StepsSum(rule: LegacyRule, t: Transaction, rel: seq<Posting>, c: Currency)
    requires Configured(rule) && forall i :: 0 <= i < |rel| ==> Relevant(rule, rel[i])
    requires Steps(rule, t, rel).Ok?
    ensures CurrencySum(Steps(rule, t, rel).value.1, c) == CurrencySum(rel, c)
  {
    if |rel| > 0 {
      var n := |rel| - 1;
      StepsSum(rule, t, rel[..n], c);
      var all := Steps(rule, t, rel).value.1;
      assert all[..|all| - 1] == Steps(rule, t, rel[..n]).value.1;
    }
  }

  /** The relevant and the other postings partition the transaction's. */
  lemma {:induction false} KeepDropPartition(rule: LegacyRule, ps: seq<Posting>)
    ensures multiset(Keep(rule, ps)) + multiset(Drop(rule, ps)) == multiset(ps)
    decreases |ps|
  {
    if |ps| > 0 {
      KeepDropPartition(rule, ps[1..]);
      assert ps == [ps[0]] + ps[1..];
    }
  }

  lemma {:induction false} KeepDropSum(rule: LegacyRule, ps: seq<Posting>, c: Currency)
    ensures CurrencySum(Keep(rule, ps), c) + CurrencySum(Drop(rule, ps), c) == CurrencySum(ps, c)
    decreases |ps|
  {
    if |ps| > 0 {
      var head, tail := [ps[0]], ps[1..];
      KeepDropSum(rule, tail, c);
      assert ps == head + tail;
      CurrencySumConcat(head, tail, c);
      if Relevant(rule, ps[0]) {
        assert Keep(rule, ps) == head + Keep(rule, tail);
        assert Drop(rule, ps) == Drop(rule, tail);
        CurrencySumConcat(head, Keep(rule, tail), c);
      } else {
        assert Keep(rule, ps) == Keep(rule, tail);
        assert Drop(rule, ps) == head + Drop(rule, tail);
        CurrencySumConcat(head, Drop(rule, tail), c);
      }
    }
  }

  /** The split keeps the books: each new transaction balances on its own, and the
      original's total in every currency is unchanged. */
  lemma TryCreateTxnBalanced(rule: LegacyRule, t: Transaction, c: Currency)
    requires TryCreateTxn(rule, t).Ok?
    ensures var r := TryCreateTxn(rule, t).value;
      |r| > 0 && CurrencySum(r[|r| - 1].postings, c) == CurrencySum(t.postings, c)
      && forall i :: 0 <= i < |r| - 1 ==> CurrencySum(r[i].postings, c) == 0.0
  {
    var rel := Keep(rule, t.postings);
    if Configured(rule) && |rel| > 0 {
      var date := OriginalDate(rule, t, rel).value;
      var out := Steps(rule, t, rel).value;
      var r := TryCreateTxn(rule, t).value;
      assert r == out.0 + [Modified(rule, t, date, out.1)];
      StepsBalanced(rule, t, rel, c);
      ModifiedSum(rule, t, date, rel, c);
      assert forall i :: 0 <= i < |r| - 1 ==> r[i] == out.0[i];
    }
  }

  lemma ModifiedSum(rule: LegacyRule, t: Transaction, date: Date, rel: seq<Posting>, c: Currency)
    requires Configured(rule) && rel == Keep(rule, t.postings) && Steps(rule, t, rel).Ok?
    ensures CurrencySum(Modified(rule, t, date, Steps(rule, t, rel).value.1).postings, c) == CurrencySum(t.postings, c)
  {
    StepsSum(rule, t, rel, c);
    KeepDropSum(rule, t.postings, c);
    CurrencySumConcat(Drop(rule, t.postings), Steps(rule, t, rel).value.1, c);
  }

  lemma StepsBalanced(rule: LegacyRule, t: Transaction, rel: seq<Posting>, c: Currency)
    requires Configured(rule) && forall i :: 0 <= i < |rel| ==> Relevant(rule, rel[i])
    requires Steps(rule, t, rel).Ok?
    ensures var news := Steps(rule, t, rel).value.0;
      forall i :: 0 <= i < |news| ==> CurrencySum(news[i].postings, c) == 0.0
  {
    StepsPointwise(rule, t, rel);
    var news := Steps(rule, t, rel).value.0;
    forall i | 0 <= i < |news|
      ensures CurrencySum(news[i].postings, c) == 0.0
    {
      StepBalanced(rule, t, rel[i], c);
    }
  }

  /** A new transaction holds the posting and its negation. */
  lemma StepBalanced(rule: LegacyRule, t: Transaction, p: Posting, c: Currency)
    requires Configured(rule) && Relevant(rule, p) && Step(rule, t, p).Ok?
    ensures CurrencySum(Step(rule, t, p).value.0.postings, c) == 0.0
  {
    var ps := Step(rule, t, p).value.0.postings;
    assert ps == [ps[0]] + [ps[1]] && [ps[0]][..0] == [] && [ps[1]][..0] == [];
    CurrencySumConcat([ps[0]], [ps[1]], c);
  }

  /** In inverted mode with a single relevant posting, the original takes the
      posting's date and the new transaction keeps the old one. */
  lemma InvertedSingleDate(rule: LegacyRule, t: Transaction)
    requires Configured(rule) && rule.invertedDateMode && |Keep(rule, t.postings)| == 1
    requires TryCreateTxn(rule, t).Ok?
    ensures var r := TryCreateTxn(rule, t).value;
      var p := Keep(rule, t.postings)[0];
      |r| == 2 && r[0].date == t.date && Relevant(rule, p) && DateOf(rule, p).Ok? && r[1].date == DateOf(rule, p).value
  {
    var rel := Keep(rule, t.postings);
    assert rel[0] in rel;
    StepsPointwise(rule, t, rel);
  }

  // The imperative loop, which removes each relevant posting from the original's
  // list and appends its transfer posting.

  lemma RemoveFirstAppend(xs: seq<Posting>, ys: seq<Posting>, p: Posting)
    requires p in xs
    ensures RemoveFirst(xs + ys, p) == RemoveFirst(xs, p) + ys
    decreases |xs|
  {
    assert (xs + ys)[0] == xs[0] && (xs + ys)[1..] == xs[1..] + ys;
    if xs[0] != p {
      RemoveFirstAppend(xs[1..], ys, p);
      assert [xs[0]] + (RemoveFirst(xs[1..], p) + ys) == ([xs[0]] + RemoveFirst(xs[1..], p)) + ys;
    }
  }

  /** Removing the first relevant posting takes it off the front of the relevant ones
      and leaves the others alone. */
  lemma {:induction false} RemoveFirstRelevant(rule: LegacyRule, cur: seq<Posting>)
    requires |Keep(rule, cur)| > 0
    ensures Keep(rule, cur)[0] in cur
    ensures Keep(rule, RemoveFirst(cur, Keep(rule, cur)[0])) == Keep(rule, cur)[1..]
    ensures Drop(rule, RemoveFirst(cur, Keep(rule, cur)[0])) == Drop(rule, cur)
    decreases |cur|
  {
    var x := Keep(rule, cur)[0];
    var rest := cur[1..];
    assert cur == [cur[0]] + rest;
    if Relevant(rule, cur[0]) {
      assert x == cur[0];
      assert RemoveFirst(cur, x) == rest;
    } else {
      assert Keep(rule, cur) == Keep(rule, rest);
      assert x in Keep(rule, cur);
      assert cur[0] != x;
      RemoveFirstRelevant(rule, rest);
      var removed := RemoveFirst(rest, x);
      assert RemoveFirst(cur, x) == [cur[0]] + removed;
      assert ([cur[0]] + removed)[0] == cur[0] && ([cur[0]] + removed)[1..] == removed;
    }
  }

  lemma {:induction false} NothingRelevant(rule: LegacyRule, cur: seq<Posting>)
    requires Keep(rule, cur) == []
    ensures Drop(rule, cur) == cur
    decreases |cur|
  {
    if |cur| > 0 {
      NothingRelevant(rule, cur[1..]);
      assert cur == [cur[0]] + cur[1..];
    }
  }

  /** `__modify_existing_txn`'s deletions: `del meta[name]` for each name, in any
      order; the names are present, otherwise Python would raise. */
  method DeleteKeys(meta: Meta, names: set<string>) returns (r: Meta)
    requires names <= meta.Keys
    ensures r == Without(meta, names)
  {
    r := meta;
    var left := names;
    while left != {}
      invariant left <= names
      invariant r == Without(meta, names - left)
      decreases |left|
    {
      var k :| k in left;
      r := r - {k};
      left := left - {k};
    }
  }

  /** One pass of the loop body on the original's posting list `postings`. */
  method ProcessRelevant(rule: LegacyRule, t: Transaction, p: Posting, postings: seq<Posting>)
    returns (r: Result<(Transaction, seq<Posting>)>)
    requires Configured(rule) && Relevant(rule, p)
    ensures Step(rule, t, p).Err? ==> r == Err(Step(rule, t, p).error)
    ensures Step(rule, t, p).Ok? ==> r == Ok((Step(rule, t, p).value.0, RemoveFirst(postings, p) + [Step(rule, t, p).value.1]))
  {
    var account := TransferAccountOf(rule, p);
    if account.Err? {
      return Err(account.error);
    }
    var date := if rule.invertedDateMode then Ok(t.date) else DateOf(rule, p);
    if date.Err? {
      return Err(date.error);
    }
    var narration := NarrationOf(rule, t, p);
    if narration.Err? {
      return Err(narration.error);
    }
    var meta := DeleteKeys(p.meta, KeysToRemove(rule, narration.value.1));
    var rest := RemoveFirst(postings, p) + [Posting(account.value, Amount(p.units.number, p.units.currency), None, None, None, map[])];
    var copy := p.(meta := meta);
    var n := t.(narration := narration.value.0, date := date.value,
                postings := [copy, Posting(account.value, Amount(-p.units.number, p.units.currency), None, None, None, map[])]);
    r := Ok((n, rest));
  }

  /** `__try_create_txn` as the loop the source runs. */
  method Execute(rule: LegacyRule, t: Transaction) returns (r: Result<seq<Transaction>>)
    ensures r == TryCreateTxn(rule, t)
  {
    if !Configured(rule) {
      return Ok([t]);
    }
    var rel := Keep(rule, t.postings);
    if |rel| == 0 {
      return Ok([t]);
    }
    TryCreateTxnUnfold(rule, t);
    var date := t.date;
    if rule.invertedDateMode && |rel| == 1 {
      var d := DateOf(rule, rel[0]);
      if d.Err? {
        return Err(d.error);
      }
      date := d.value;
    }
    assert OriginalDate(rule, t, rel) == Ok(date);
    var out := RunSteps(rule, t, rel);
    if out.Err? {
      return Err(out.error);
    }
    var (news, postings) := out.value;
    assert t.(date := date, postings := postings) == Modified(rule, t, date, Steps(rule, t, rel).value.1);
    r := Ok(news + [t.(date := date, postings := postings)]);
  }

  /** The loop over the relevant postings, on the original's posting list. */
  method RunSteps(rule: LegacyRule, t: Transaction, rel: seq<Posting>) returns (r: Result<(seq<Transaction>, seq<Posting>)>)
    requires Configured(rule) && rel == Keep(rule, t.postings)
    ensures Steps(rule, t, rel).Err? ==> r == Err(Steps(rule, t, rel).error)
    ensures Steps(rule, t, rel).Ok? ==> r == Ok((Steps(rule, t, rel).value.0, Drop(rule, t.postings) + Steps(rule, t, rel).value.1))
  {
    var postings := t.postings;
    ghost var cur := t.postings;
    var news := [];
    ghost var backs := [];
    var j := 0;
    while j < |rel|
      invariant j <= |rel| && Walked(rule, t, rel, j, news, backs, cur, postings)
    {
      var p := rel[j];
      ghost var s := Step(rule, t, p);
      WalkStep(rule, t, rel, j, news, backs, cur, postings, s);
      var step := ProcessRelevant(rule, t, p, postings);
      if step.Err? {
        return Err(step.error);
      }
      news := news + [step.value.0];
      backs := backs + [s.value.1];
      cur := RemoveFirst(cur, p);
      postings := step.value.1;
      j := j + 1;
    }
    assert rel[..j] == rel;
    NothingRelevant(rule, cur);
    r := Ok((news, postings));
  }

  /** The loop of `RunSteps` after `j` relevant postings: the steps so far succeeded,
      the postings are those not yet taken followed by the transfer postings, and
      the rest of the relevant postings are still to come. */
  ghost predicate Walked(rule: LegacyRule, t: Transaction, rel: seq<Posting>, j: nat, news: seq<Transaction>,
                         backs: seq<Posting>, cur: seq<Posting>, postings: seq<Posting>)
    requires Configured(rule) && forall i :: 0 <= i < |rel| ==> Relevant(rule, rel[i])
    requires j <= |rel|
  {
    Steps(rule, t, rel[..j]) == Ok((news, backs))
    && postings == cur + backs
    && Keep(rule, cur) == rel[j..] && Drop(rule, cur) == Drop(rule, t.postings)
  }

  /** One relevant posting more: a failing step fails the whole walk, and a
      succeeding one moves the walk on by one posting. */
  lemma WalkStep(rule: LegacyRule, t: Transaction, rel: seq<Posting>, j: nat, news: seq<Transaction>,
                 backs: seq<Posting>, cur: seq<Posting>, postings: seq<Posting>, s: Result<(Transaction, Posting)>)
    requires Configured(rule) && forall i :: 0 <= i < |rel| ==> Relevant(rule, rel[i])
    requires j < |rel| && Walked(rule, t, rel, j, news, backs, cur, postings)
    requires s == Step(rule, t, rel[j])
    ensures s.Err? ==> Steps(rule, t, rel) == Err(s.error)
    ensures s.Ok? ==> RemoveFirst(postings, rel[j]) + [s.value.1] == RemoveFirst(cur, rel[j]) + (backs + [s.value.1])
    ensures s.Ok? ==>
      Walked(rule, t, rel, j + 1, news + [s.value.0], backs + [s.value.1], RemoveFirst(cur, rel[j]),
             RemoveFirst(postings, rel[j]) + [s.value.1])
  {
    Advance(rule, cur, backs, rel, j);
    StepsSnoc(rule, t, rel, j);
    if s.Err? {
      StepsPrefixErr(rule, t, rel, j + 1);
    } else {
      Seqs.Assoc(RemoveFirst(cur, rel[j]), backs, [s.value.1]);
    }
  }

  lemma TryCreateTxnUnfold(rule: LegacyRule, t: Transaction)
    requires Configured(rule) && |Keep(rule, t.postings)| > 0
    ensures var rel := Keep(rule, t.postings);
      var date := OriginalDate(rule, t, rel);
      var out := Steps(rule, t, rel);
      TryCreateTxn(rule, t) ==
        if date.Err? then Err(date.error)
        else if out.Err? then Err(out.error)
        else Ok(out.value.0 + [Modified(rule, t, date.value, out.value.1)])
  {
  }

  /** The loop body's bookkeeping: the next relevant posting is the first relevant
      one left, and removing it leaves the appended transfers alone. */
  lemma Advance(rule: LegacyRule, cur: seq<Posting>, backs: seq<Posting>, rel: seq<Posting>, j: nat)
    requires j < |rel| && Keep(rule, cur) == rel[j..]
    ensures rel[j] in cur
    ensures Keep(rule, RemoveFirst(cur, rel[j])) == rel[j + 1..]
    ensures Drop(rule, RemoveFirst(cur, rel[j])) == Drop(rule, cur)
    ensures RemoveFirst(cur + backs, rel[j]) == RemoveFirst(cur, rel[j]) + backs
  {
    assert rel[j..][0] == rel[j] && rel[j..][1..] == rel[j + 1..];
    RemoveFirstRelevant(rule, cur);
    RemoveFirstAppend(cur, backs, rel[j]);
  }

  lemma StepsSnoc(rule: LegacyRule, t: Transaction, rel: seq<Posting>, j: nat)
    requires Configured(rule) && forall i :: 0 <= i < |rel| ==> Relevant(rule, rel[i])
    requires j < |rel|
    ensures Steps(rule, t, rel[..j]).Ok? && Step(rule, t, rel[j]).Ok? ==>
      Steps(rule, t, rel[..j + 1]) == Ok((Steps(rule, t, rel[..j]).value.0 + [Step(rule, t, rel[j]).value.0],
                                          Steps(rule, t, rel[..j]).value.1 + [Step(rule, t, rel[j]).value.1]))
    ensures Steps(rule, t, rel[..j]).Ok? && Step(rule, t, rel[j]).Err? ==>
      Steps(rule, t, rel[..j + 1]) == Err(Step(rule, t, rel[j]).error)
    ensures Steps(rule, t, rel[..j]).Err? ==> Steps(rule, t, rel[..j + 1]).Err?
  {
    assert rel[..j + 1][..j] == rel[..j] && rel[..j + 1][j] == rel[j];
  }

  lemma {:induction false} StepsPrefixErr(rule: LegacyRule, t: Transaction, rel: seq<Posting>, k: nat)
    requires Configured(rule) && forall i :: 0 <= i < |rel| ==> Relevant(rule, rel[i])
    requires k <= |rel| && Steps(rule, t, rel[..k]).Err?
    ensures Steps(rule, t, rel) == Err(Steps(rule, t, rel[..k]).error)
    decreases |rel| - k
  {
    if k < |rel| {
      assert rel[..k + 1][..k] == rel[..k];
      StepsPrefixErr(rule, t, rel, k + 1);
    } else {
      assert rel[..k] == rel;
    }
  }
}
