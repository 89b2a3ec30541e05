/** The first-generation orchestrator: it runs every configured transaction splitter
    on every transaction. The splitters change the transaction's posting list in
    place, so they see each other's changes, and the original transaction each of
    them returns shares that list and shows its final state. */
module LegacyOrchestration {
  import opened Results
  import opened Ledger
  import LegacySplitter
  import Seqs

  /** One entry of the `manipulators` list: its `type` and its rule. */
  datatype ManipulatorConfig = ManipulatorConfig(kind: string, rule: LegacySplitter.LegacyRule)

  const SplitterKind := "transaction-splitter"

  /** The manipulators, in order; the first unknown type is an error. */
  function Manipulators(configs: seq<ManipulatorConfig>): (r: Result<seq<LegacySplitter.LegacyRule>>)
    ensures r.Ok? <==> forall i :: 0 <= i < |configs| ==> configs[i].kind == SplitterKind
    ensures r.Ok? ==> |r.value| == |configs| && forall i :: 0 <= i < |configs| ==> r.value[i] == configs[i].rule
    ensures r.Err? ==> exists i :: (0 <= i < |configs| && configs[i].kind != SplitterKind
      && r.error == "Manipulator type not implemented: " + configs[i].kind)
  {
    if |configs| == 0 then Ok([])
    else if configs[0].kind != SplitterKind then
      Err("Manipulator type not implemented: " + configs[0].kind)
    else
      var rest :- Manipulators(configs[1..]);
      assert forall i :: 1 <= i < |configs| ==> configs[i] == configs[1..][i - 1];
      Ok([configs[0].rule] + rest)
  }

  /** The splitters run one after another on the transaction, each on the posting
      list the ones before it left: every splitter's output and the final list. */
  function Thread(rules: seq<LegacySplitter.LegacyRule>, t: Transaction, postings: seq<Posting>)
    : (r: Result<(seq<seq<Transaction>>, seq<Posting>)>)
    ensures r.Ok? ==> |r.value.0| == |rules| && forall i :: 0 <= i < |rules| ==> |r.value.0[i]| > 0
  {
    if |rules| == 0 then Ok(([], postings))
    else
      var out :- LegacySplitter.TryCreateTxn(rules[0], t.(postings := postings));
      var rest :- Thread(rules[1..], t, out[|out| - 1].postings);
      Ok(([out] + rest.0, rest.1))
  }

  /** Each splitter's output with its last transaction, the original, showing the
      shared final posting list. */
  function Relink(outs: seq<seq<Transaction>>, postings: seq<Posting>): seq<Entry>
    requires forall i :: 0 <= i < |outs| ==> |outs[i]| > 0
  {
    if |outs| == 0 then []
    else
      var out := outs[0];
      Entries(out[..|out| - 1]) + [TxnEntry(out[|out| - 1].(postings := postings))] + Relink(outs[1..], postings)
  }

  function Entries(ts: seq<Transaction>): (r: seq<Entry>)
    ensures |r| == |ts| && forall i :: 0 <= i < |ts| ==> r[i] == TxnEntry(ts[i])
  {
    if |ts| == 0 then [] else [TxnEntry(ts[0])] + Entries(ts[1..])
  }

  /** What one transaction turns into. */
  function ProcessTxn(rules: seq<LegacySplitter.LegacyRule>, t: Transaction): Result<seq<Entry>> {
    var (outs, postings) :- Thread(rules, t, t.postings);
    Ok(Relink(outs, postings))
  }

  /** The loop over the entries: other entries pass through, transactions are
      replaced by what the splitters make of them. */
  function ProcessEntries(rules: seq<LegacySplitter.LegacyRule>, entries: seq<Entry>): Result<seq<Entry>> {
    if |entries| == 0 then Ok([])
    else
      var n := |entries| - 1;
      var front :- ProcessEntries(rules, entries[..n]);
      var last :- if entries[n].TxnEntry? then ProcessTxn(rules, entries[n].txn) else Ok([entries[n]]);
      Ok(front + last)
  }

  /** `execute`, after the configuration is parsed: the new entries and no errors. */
  function Run(configs: seq<ManipulatorConfig>, entries: seq<Entry>): Result<(seq<Entry>, seq<string>)> {
    var rules :- Manipulators(configs);
    var out :- ProcessEntries(rules, entries);
    Ok((out, []))
  }

  /** With one splitter, a transaction turns into exactly that splitter's output. */
  lemma SingleSplitter(rule: LegacySplitter.LegacyRule, t: Transaction)
    ensures LegacySplitter.TryCreateTxn(rule, t).Err? ==> ProcessTxn([rule], t) == Err(LegacySplitter.TryCreateTxn(rule, t).error)
    ensures LegacySplitter.TryCreateTxn(rule, t).Ok? ==> ProcessTxn([rule], t) == Ok(Entries(LegacySplitter.TryCreateTxn(rule, t).value))
  {
    assert t.(postings := t.postings) == t;
    var r := LegacySplitter.TryCreateTxn(rule, t);
    ThreadSingle(rule, t, t.postings, r);
    if r.Ok? {
      var out := r.value;
      var last := out[|out| - 1];
      RelinkSingle(out, last.postings);
      assert last.(postings := last.postings) == last;
      assert out[..|out| - 1] + [last] == out;
    }
  }

  lemma ThreadSingle(rule: LegacySplitter.LegacyRule, t: Transaction, postings: seq<Posting>, r: Result<seq<Transaction>>)
    requires r == LegacySplitter.TryCreateTxn(rule, t.(postings := postings))
    ensures r.Err? ==> Thread([rule], t, postings) == Err(r.error)
    ensures r.Ok? ==> Thread([rule], t, postings) == Ok(([r.value], r.value[|r.value| - 1].postings))
  {
    assert [rule][1..] == [] && [rule][0] == rule;
    if r.Ok? {
      var last := r.value[|r.value| - 1];
      assert Thread([], t, last.postings) == Ok(([], last.postings));
      assert [r.value] + [] == [r.value];
    }
  }

  lemma RelinkSingle(out: seq<Transaction>, postings: seq<Posting>)
    requires |out| > 0
    ensures Relink([out], postings) == Entries(out[..|out| - 1] + [out[|out| - 1].(postings := postings)])
  {
    assert [out][0] == out && [out][1..] == [];
    var last := out[|out| - 1].(postings := postings);
    assert Relink([out], postings) == Entries(out[..|out| - 1]) + [TxnEntry(last)] + [];
    EntriesConcat(out[..|out| - 1], [last]);
    assert Entries([last]) == [TxnEntry(last)];
  }

  lemma {:induction false} EntriesConcat(a: seq<Transaction>, b: seq<Transaction>)
    ensures Entries(a + b) == Entries(a) + Entries(b)
  {
    assert |Entries(a + b)| == |Entries(a) + Entries(b)|;
    forall i | 0 <= i < |a| + |b|
      ensures Entries(a + b)[i] == (Entries(a) + Entries(b))[i]
    {
      if i < |a| {
        assert (a + b)[i] == a[i];
      } else {
        assert (a + b)[i] == b[i - |a|];
      }
    }
  }

  /** Without splitters, transactions are dropped and the other entries kept. */
  lemma {:induction false} NoSplitters(entries: seq<Entry>)
    ensures ProcessEntries([], entries) == Ok(NonTransactions(entries))
  {
    if |entries| > 0 {
      var n := |entries| - 1;
      NoSplitters(entries[..n]);
      NonTransactionsSnoc(entries[..n], entries[n]);
      assert entries[..n] + [entries[n]] == entries;
      if entries[n].TxnEntry? {
        assert Thread([], entries[n].txn, entries[n].txn.postings) == Ok(([], entries[n].txn.postings));
      }
    }
  }

  function NonTransactions(entries: seq<Entry>): seq<Entry> {
    if |entries| == 0 then []
    else (if entries[0].TxnEntry? then [] else [entries[0]]) + NonTransactions(entries[1..])
  }

  lemma {:induction false} NonTransactionsSnoc(entries: seq<Entry>, e: Entry)
    ensures NonTransactions(entries + [e]) == NonTransactions(entries) + (if e.TxnEntry? then [] else [e])
    decreases |entries|
  {
    if |entries| == 0 {
      assert [] + [e] == [e] && [e][1..] == [];
    } else {
      assert (entries + [e])[0] == entries[0] && (entries + [e])[1..] == entries[1..] + [e];
      NonTransactionsSnoc(entries[1..], e);
    }
  }

  /** The books stay balanced through the chain: every new transaction balances,
      and the shared final posting list sums like the transaction's. */
  lemma {:induction false} ThreadBalanced(rules: seq<LegacySplitter.LegacyRule>, t: Transaction, postings: seq<Posting>, c: Currency)
    requires Thread(rules, t, postings).Ok?
    ensures var (outs, final) := Thread(rules, t, postings).value;
      CurrencySum(final, c) == CurrencySum(postings, c)
      && forall i, j :: 0 <= i < |outs| && 0 <= j < |outs[i]| - 1 ==> CurrencySum(outs[i][j].postings, c) == 0.0
  {
    if |rules| > 0 {
      var u := t.(postings := postings);
      LegacySplitter.TryCreateTxnBalanced(rules[0], u, c);
      var out := LegacySplitter.TryCreateTxn(rules[0], u).value;
      ThreadBalanced(rules[1..], t, out[|out| - 1].postings, c);
      var whole := Thread(rules, t, postings).value;
      var rest := Thread(rules[1..], t, out[|out| - 1].postings).value;
      assert whole == ([out] + rest.0, rest.1);
      Recombine(out, rest, whole, c);
    }
  }

  /** The balance facts of one splitter's output and of the splitters after it,
      put together. */
  lemma Recombine(out: seq<Transaction>, rest: (seq<seq<Transaction>>, seq<Posting>),
                  whole: (seq<seq<Transaction>>, seq<Posting>), c: Currency)
    requires |out| > 0 && whole == ([out] + rest.0, rest.1)
    requires forall j :: 0 <= j < |out| - 1 ==> CurrencySum(out[j].postings, c) == 0.0
    requires forall i, j :: 0 <= i < |rest.0| && 0 <= j < |rest.0[i]| - 1 ==> CurrencySum(rest.0[i][j].postings, c) == 0.0
    ensures forall i, j :: 0 <= i < |whole.0| && 0 <= j < |whole.0[i]| - 1 ==> CurrencySum(whole.0[i][j].postings, c) == 0.0
  {
    forall i, j | 0 <= i < |whole.0| && 0 <= j < |whole.0[i]| - 1
      ensures CurrencySum(whole.0[i][j].postings, c) == 0.0
    {
      if i == 0 {
        assert whole.0[i] == out;
      } else {
        assert whole.0[i] == rest.0[i - 1];
      }
    }
  }

  /** A balanced transaction comes out as balanced transactions. */
  lemma ProcessTxnBalanced(rules: seq<LegacySplitter.LegacyRule>, t: Transaction)
    requires Balanced(t.postings) && ProcessTxn(rules, t).Ok?
    ensures forall e :: e in ProcessTxn(rules, t).value ==> e.TxnEntry? && Balanced(e.txn.postings)
  {
    var (outs, final) := Thread(rules, t, t.postings).value;
    forall c: Currency, i, j | 0 <= i < |outs| && 0 <= j < |outs[i]| - 1
      ensures CurrencySum(outs[i][j].postings, c) == 0.0
    {
      ThreadBalanced(rules, t, t.postings, c);
    }
    forall c: Currency
      ensures CurrencySum(final, c) == 0.0
    {
      ThreadBalanced(rules, t, t.postings, c);
    }
    RelinkBalanced(outs, final);
  }

  lemma {:induction false} RelinkBalanced(outs: seq<seq<Transaction>>, final: seq<Posting>)
    requires forall i :: 0 <= i < |outs| ==> |outs[i]| > 0
    requires Balanced(final)
    requires forall c: Currency, i, j :: 0 <= i < |outs| && 0 <= j < |outs[i]| - 1 ==> CurrencySum(outs[i][j].postings, c) == 0.0
    ensures forall e :: e in Relink(outs, final) ==> e.TxnEntry? && Balanced(e.txn.postings)
  {
    if |outs| > 0 {
      var out := outs[0];
      RelinkBalanced(outs[1..], final);
      var front := Entries(out[..|out| - 1]);
      forall e | e in front
        ensures e.TxnEntry? && Balanced(e.txn.postings)
      {
        var j :| 0 <= j < |front| && front[j] == e;
        assert e.txn == out[j];
      }
    }
  }

  /** The first unknown type is the one reported. */
  lemma {:induction false} ManipulatorsFirstErr(configs: seq<ManipulatorConfig>, k: nat)
    requires k < |configs| && configs[k].kind != SplitterKind
    requires forall i :: 0 <= i < k ==> configs[i].kind == SplitterKind
    ensures Manipulators(configs) == Err("Manipulator type not implemented: " + configs[k].kind)
    decreases k
  {
    if k > 0 {
      assert configs[1..][k - 1] == configs[k];
      ManipulatorsFirstErr(configs[1..], k - 1);
    }
  }

  /** `Thread` picked up after some splitters have run. */
  function Resume(pieces: seq<seq<Transaction>>, rest: Result<(seq<seq<Transaction>>, seq<Posting>)>)
    : Result<(seq<seq<Transaction>>, seq<Posting>)>
  {
    if rest.Err? then Err(rest.error) else Ok((pieces + rest.value.0, rest.value.1))
  }

  lemma ResumeStep(rules: seq<LegacySplitter.LegacyRule>, t: Transaction, j: nat, pieces: seq<seq<Transaction>>,
                   shared: seq<Posting>, out: Result<seq<Transaction>>)
    requires j < |rules| && out == LegacySplitter.TryCreateTxn(rules[j], t.(postings := shared))
    ensures out.Err? ==> Resume(pieces, Thread(rules[j..], t, shared)) == Err(out.error)
    ensures out.Ok? ==> |out.value| > 0
    ensures out.Ok? ==>
      Resume(pieces, Thread(rules[j..], t, shared))
      == Resume(pieces + [out.value], Thread(rules[j + 1..], t, out.value[|out.value| - 1].postings))
  {
    assert rules[j..][0] == rules[j] && rules[j..][1..] == rules[j + 1..];
    ThreadCons(rules[j..], t, shared, out);
    if out.Ok? {
      var rest := Thread(rules[j + 1..], t, out.value[|out.value| - 1].postings);
      if rest.Ok? {
        Seqs.Assoc(pieces, [out.value], rest.value.0);
      }
    }
  }

  /** The first splitter's output comes first, and the rest thread on from its last
      transaction's postings. */
  lemma ThreadCons(rules: seq<LegacySplitter.LegacyRule>, t: Transaction, shared: seq<Posting>, out: Result<seq<Transaction>>)
    requires |rules| > 0 && out == LegacySplitter.TryCreateTxn(rules[0], t.(postings := shared))
    ensures out.Err? ==> Thread(rules, t, shared) == Err(out.error)
    ensures out.Ok? ==> |out.value| > 0
    ensures out.Ok? ==>
      var rest := Thread(rules[1..], t, out.value[|out.value| - 1].postings);
      Thread(rules, t, shared) == if rest.Err? then Err(rest.error) else Ok(([out.value] + rest.value.0, rest.value.1))
  {
  }

  /** One transaction through the splitters, as the inner loop. */
  method ProcessTransaction(rules: seq<LegacySplitter.LegacyRule>, t: Transaction) returns (r: Result<seq<Entry>>)
    ensures r == ProcessTxn(rules, t)
  {
    var shared := t.postings;
    var pieces: seq<seq<Transaction>> := [];
    var j := 0;
    assert rules[0..] == rules;
    var whole := Thread(rules, t, t.postings);
    if whole.Ok? {
      assert [] + whole.value.0 == whole.value.0;
    }
    while j < |rules|
      invariant 0 <= j <= |rules|
      invariant forall i :: 0 <= i < |pieces| ==> |pieces[i]| > 0
      invariant whole == Resume(pieces, Thread(rules[j..], t, shared))
    {
      var out := LegacySplitter.Execute(rules[j], t.(postings := shared));
      ResumeStep(rules, t, j, pieces, shared, out);
      if out.Err? {
        return Err(out.error);
      }
      var next := out.value[|out.value| - 1].postings;
      pieces := pieces + [out.value];
      shared := next;
      j := j + 1;
    }
    assert Thread(rules[j..], t, shared) == Ok(([], shared));
    assert pieces + [] == pieces;
    r := Ok(Relink(pieces, shared));
  }

  /** `execute` as the loops the source runs. */
  method Execute(configs: seq<ManipulatorConfig>, entries: seq<Entry>) returns (r: Result<(seq<Entry>, seq<string>)>)
    ensures r == Run(configs, entries)
  {
    var rules: seq<LegacySplitter.LegacyRule> := [];
    var k := 0;
    while k < |configs|
      invariant 0 <= k <= |configs| && |rules| == k
      invariant forall i :: 0 <= i < k ==> configs[i].kind == SplitterKind && rules[i] == configs[i].rule
    {
      if configs[k].kind != SplitterKind {
        ManipulatorsFirstErr(configs, k);
        return Err("Manipulator type not implemented: " + configs[k].kind);
      }
      rules := rules + [configs[k].rule];
      k := k + 1;
    }
    assert forall i :: 0 <= i < |configs| ==> configs[i].kind == SplitterKind;
    assert Manipulators(configs).value == rules;
    var out: seq<Entry> := [];
    var i := 0;
    while i < |entries|
      invariant 0 <= i <= |entries|
      invariant ProcessEntries(rules, entries[..i]) == Ok(out)
    {
      assert entries[..i + 1][..i] == entries[..i] && entries[..i + 1][i] == entries[i];
      if entries[i].TxnEntry? {
        var made := ProcessTransaction(rules, entries[i].txn);
        if made.Err? {
          ProcessEntriesPrefixErr(rules, entries, i + 1);
          return Err(made.error);
        }
        out := out + made.value;
      } else {
        out := out + [entries[i]];
      }
      i := i + 1;
    }
    assert entries[..i] == entries;
    r := Ok((out, []));
  }

  lemma {:induction false} ProcessEntriesPrefixErr(rules: seq<LegacySplitter.LegacyRule>, entries: seq<Entry>, k: nat)
    requires k <= |entries| && ProcessEntries(rules, entries[..k]).Err?
    ensures ProcessEntries(rules, entries) == Err(ProcessEntries(rules, entries[..k]).error)
    decreases |entries| - k
  {
    if k < |entries| {
      assert entries[..k + 1][..k] == entries[..k];
      ProcessEntriesPrefixErr(rules, entries, k + 1);
    } else {
      assert entries[..k] == entries;
    }
  }
}
