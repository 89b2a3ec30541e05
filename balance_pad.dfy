/** The balance pad creator plugin: postings on one account carrying a balance
    amount in their metadata become balance directives on the next day; of all
    balances on that account for one date only the one with the latest
    balance-time is kept, and the kept balances follow the other entries. */
module BalancePads {
  import opened Results
  import opened Ledger
  import opened Dicts

  datatype PadConfig = PadConfig(account: Account, unitKey: string, timeKey: string)

  /** The configuration text: the three configured names, or text that does not
      evaluate to them (which makes the plugin raise). */
  datatype ConfigText = Parsed(config: PadConfig) | Malformed(text: string)

  /** The key `update_relevant_balances` compares, whatever the configured name. */
  const TimeKey := "balance-time"

  function MetaOf(e: Entry): Meta {
    match e
    case TxnEntry(t) => t.meta
    case Open(meta, _, _, _, _) => meta
    case Balance(meta, _, _, _, _, _) => meta
    case OtherEntry(meta, _) => meta
  }

  function DateOf(e: Entry): Date {
    match e
    case TxnEntry(t) => t.date
    case Open(_, date, _, _, _) => date
    case Balance(_, date, _, _, _, _) => date
    case OtherEntry(_, date) => date
  }

  predicate IsRelevantBalance(cfg: PadConfig, e: Entry) {
    e.Balance? && e.account == cfg.account
  }

  predicate RelevantPosting(cfg: PadConfig, q: Posting) {
    q.account == cfg.account && cfg.unitKey in q.meta
  }

  /** The postings on the account that carry a balance amount, in their order. */
  function RelevantPostings(cfg: PadConfig, ps: seq<Posting>): (r: seq<Posting>)
    ensures |r| <= |ps|
    ensures forall i :: 0 <= i < |r| ==> RelevantPosting(cfg, r[i])
  {
    if |ps| == 0 then []
    else RelevantPostings(cfg, ps[..|ps| - 1]) + (if RelevantPosting(cfg, ps[|ps| - 1]) then [ps[|ps| - 1]] else [])
  }

  /** The filter keeps exactly the relevant postings: each one it keeps is a posting
      of `ps`, and each relevant posting of `ps` is kept. */
  lemma {:induction false} RelevantPostingsMeaning(cfg: PadConfig, ps: seq<Posting>)
    ensures forall q :: q in RelevantPostings(cfg, ps) <==> q in ps && RelevantPosting(cfg, q)
  {
    if |ps| > 0 {
      var n := |ps| - 1;
      RelevantPostingsMeaning(cfg, ps[..n]);
      assert ps == ps[..n] + [ps[n]];
    }
  }

  // Comparing balance times.

  /** Python's `<` on two strings: code point by code point, a proper prefix first. */
  predicate StrLess(a: string, b: string) {
    if |a| == 0 then |b| > 0
    else if |b| == 0 then false
    else if a[0] != b[0] then a[0] < b[0]
    else StrLess(a[1..], b[1..])
  }

  /** The numeric value Python gives a number or a boolean (`bool` is a subclass of
      `int`, so `False` is 0 and `True` is 1). */
  function NumericOf(v: MetaValue): Option<real> {
    match v
    case Number(n) => Some(n)
    case Bool(b) => Some(if b then 1.0 else 0.0)
    case _ => None
  }

  /** Python's `<` on two metadata values: strings by code point, dates by day, numbers
      and booleans by value; any other pair does not compare. */
  function TimeLess(x: MetaValue, y: MetaValue): (r: Result<bool>)
    ensures r.Ok? <==> (x.Text? && y.Text?) || (x.DateValue? && y.DateValue?)
                       || (NumericOf(x).Some? && NumericOf(y).Some?)
    ensures x.Bool? && y.Bool? ==> r == Ok(!x.b && y.b)
  {
    if x.Text? && y.Text? then Ok(StrLess(x.text, y.text))
    else if x.DateValue? && y.DateValue? then Ok(x.date < y.date)
    else match (NumericOf(x), NumericOf(y))
      case (Some(a), Some(b)) => Ok(a < b)
      case _ => Err("TypeError: '<' not supported")
  }

  /** Whether `e` is later than the kept balance `kept`. */
  function Later(kept: Entry, e: Entry): Result<bool> {
    if TimeKey !in MetaOf(kept) || TimeKey !in MetaOf(e) then Err("KeyError: " + TimeKey)
    else TimeLess(MetaOf(kept)[TimeKey], MetaOf(e)[TimeKey])
  }

  // The kept balances.

  /** `update_relevant_balances`: the first balance of a date is kept; a later one
      replaces it only when its time is strictly greater. */
  function Update(d: Dict<Date, Entry>, e: Entry): (r: Result<Dict<Date, Entry>>)
    ensures d.Valid() && r.Ok? ==> r.value.Valid()
    ensures r.Ok? ==> r.value.keys == if DateOf(e) in d.values then d.keys else d.keys + [DateOf(e)]
    ensures r.Err? <==> DateOf(e) in d.values && Later(d.values[DateOf(e)], e).Err?
    ensures r.Ok? ==> r.value.values == d.values[DateOf(e) :=
      if DateOf(e) !in d.values || Later(d.values[DateOf(e)], e) == Ok(true) then e else d.values[DateOf(e)]]
  {
    if DateOf(e) !in d.values then Ok(d.Put(DateOf(e), e))
    else
      var later :- Later(d.values[DateOf(e)], e);
      Ok(if later then d.Put(DateOf(e), e) else d)
  }

  function UpdateAll(d: Dict<Date, Entry>, es: seq<Entry>): (r: Result<Dict<Date, Entry>>)
    ensures d.Valid() && r.Ok? ==> r.value.Valid()
  {
    if |es| == 0 then Ok(d)
    else
      var front :- UpdateAll(d, es[..|es| - 1]);
      Update(front, es[|es| - 1])
  }

  /** `__create_balances` for one posting: a balance on the next day with the
      posting's balance amount, whose metadata is the entry's file position and
      the balance time. */
  function NewBalance(cfg: PadConfig, t: Transaction, q: Posting): (r: Result<Entry>)
    requires RelevantPosting(cfg, q)
    ensures r.Ok? ==> r.value.Balance? && r.value.date == t.date + 1 && r.value.account == cfg.account
                      && r.value.tolerance.None? && r.value.diffAmount.None?
                      && q.meta[cfg.unitKey] == AmountValue(r.value.amount)
    ensures r.Ok? ==> r.value.meta.Keys == {"filename", "lineno", cfg.timeKey}
                      && cfg.timeKey in q.meta && r.value.meta[cfg.timeKey] == q.meta[cfg.timeKey]
    ensures r.Err? <==> !q.meta[cfg.unitKey].AmountValue? || cfg.timeKey !in q.meta
                        || "filename" !in t.meta || "lineno" !in t.meta
  {
    var units := q.meta[cfg.unitKey];
    if !units.AmountValue? then Err("balance is not an amount")
    else if cfg.timeKey !in q.meta then Err("KeyError: " + cfg.timeKey)
    else if "filename" !in t.meta then Err("KeyError: filename")
    else if "lineno" !in t.meta then Err("KeyError: lineno")
    else
      var meta := map["filename" := t.meta["filename"], "lineno" := t.meta["lineno"]][cfg.timeKey := q.meta[cfg.timeKey]];
      Ok(Balance(meta, t.date + 1, q.account, units.amount, None, None))
  }

  function NewBalances(cfg: PadConfig, t: Transaction, ps: seq<Posting>): (r: Result<seq<Entry>>)
    requires forall i :: 0 <= i < |ps| ==> RelevantPosting(cfg, ps[i])
    ensures r.Ok? ==> |r.value| == |ps|
                      && forall i :: 0 <= i < |ps| ==> NewBalance(cfg, t, ps[i]) == Ok(r.value[i])
  {
    if |ps| == 0 then Ok([])
    else
      var front :- NewBalances(cfg, t, ps[..|ps| - 1]);
      var b :- NewBalance(cfg, t, ps[|ps| - 1]);
      Ok(front + [b])
  }

  // The loop over the entries, as written and as evidently intended.

  /** What one transaction adds to the kept balances. */
  function TxnStep(cfg: PadConfig, d: Dict<Date, Entry>, t: Transaction): Result<Dict<Date, Entry>> {
    var rel := RelevantPostings(cfg, t.postings);
    if |rel| == 0 then Ok(d)
    else
      var news :- NewBalances(cfg, t, rel);
      UpdateAll(d, news)
  }

  /** The loop of `create` as written: every entry other than a balance on the
      account has its postings read, so any other directive raises. */
  function ProcessAsWritten(cfg: PadConfig, entries: seq<Entry>): (r: Result<(seq<Entry>, Dict<Date, Entry>)>)
    ensures r.Ok? ==> r.value.1.Valid()
  {
    if |entries| == 0 then Ok(([], Empty()))
    else
      var n := |entries| - 1;
      var (pass, d) :- ProcessAsWritten(cfg, entries[..n]);
      var e := entries[n];
      if IsRelevantBalance(cfg, e) then
        var d' :- Update(d, e);
        Ok((pass, d'))
      else if !e.TxnEntry? then Err("AttributeError: entry has no postings")
      else
        var d' :- TxnStep(cfg, d, e.txn);
        Ok((pass + [e], d'))
  }

  /** The loop of `create` with the other directives passed through. */
  function Process(cfg: PadConfig, entries: seq<Entry>): (r: Result<(seq<Entry>, Dict<Date, Entry>)>)
    ensures r.Ok? ==> r.value.1.Valid()
  {
    if |entries| == 0 then Ok(([], Empty()))
    else
      var n := |entries| - 1;
      var (pass, d) :- Process(cfg, entries[..n]);
      var e := entries[n];
      if IsRelevantBalance(cfg, e) then
        var d' :- Update(d, e);
        Ok((pass, d'))
      else if !e.TxnEntry? then Ok((pass + [e], d))
      else
        var d' :- TxnStep(cfg, d, e.txn);
        Ok((pass + [e], d'))
  }

  /** `create`: the other entries in their order, then the kept balances in the
      order their dates were first met. */
  function Run(config: ConfigText, entries: seq<Entry>): Result<seq<Entry>> {
    match config
    case Malformed(text) => Err("SyntaxError in config: " + text)
    case Parsed(cfg) =>
      var (pass, d) :- Process(cfg, entries);
      Ok(pass + d.Values())
  }

  function RunAsWritten(config: ConfigText, entries: seq<Entry>): Result<seq<Entry>> {
    match config
    case Malformed(text) => Err("SyntaxError in config: " + text)
    case Parsed(cfg) =>
      var (pass, d) :- ProcessAsWritten(cfg, entries);
      Ok(pass + d.Values())
  }

  // Properties.

  /** The entries other than the balances on the account, in their order. */
  function Passthrough(cfg: PadConfig, entries: seq<Entry>): seq<Entry> {
    if |entries| == 0 then []
    else
      var n := |entries| - 1;
      Passthrough(cfg, entries[..n]) + (if IsRelevantBalance(cfg, entries[n]) then [] else [entries[n]])
  }

  /** The balances offered to `update_relevant_balances`, in the order offered:
      the balances on the account and the ones created from postings. */
  function Candidates(cfg: PadConfig, entries: seq<Entry>): Result<seq<Entry>> {
    if |entries| == 0 then Ok([])
    else
      var n := |entries| - 1;
      var front :- Candidates(cfg, entries[..n]);
      var e := entries[n];
      if IsRelevantBalance(cfg, e) then Ok(front + [e])
      else if !e.TxnEntry? || |RelevantPostings(cfg, e.txn.postings)| == 0 then Ok(front)
      else
        var news :- NewBalances(cfg, e.txn, RelevantPostings(cfg, e.txn.postings));
        Ok(front + news)
  }

  /** The other entries pass through in their order, and the kept balances are the
      candidates folded one by one. */
  lemma {:induction false} ProcessIsFold(cfg: PadConfig, entries: seq<Entry>)
    requires Process(cfg, entries).Ok?
    ensures Process(cfg, entries).value.0 == Passthrough(cfg, entries)
    ensures Candidates(cfg, entries).Ok?
    ensures UpdateAll(Empty(), Candidates(cfg, entries).value) == Ok(Process(cfg, entries).value.1)
  {
    if |entries| > 0 {
      var n := |entries| - 1;
      ProcessIsFold(cfg, entries[..n]);
      var front := Candidates(cfg, entries[..n]).value;
      var e := entries[n];
      if IsRelevantBalance(cfg, e) {
        UpdateAllConcat(Empty(), front, [e]);
      } else if e.TxnEntry? && |RelevantPostings(cfg, e.txn.postings)| > 0 {
        var news := NewBalances(cfg, e.txn, RelevantPostings(cfg, e.txn.postings)).value;
        UpdateAllConcat(Empty(), front, news);
      }
    }
  }

  lemma {:induction false} UpdateAllConcat(d: Dict<Date, Entry>, a: seq<Entry>, b: seq<Entry>)
    requires UpdateAll(d, a).Ok?
    ensures UpdateAll(d, a + b) == UpdateAll(UpdateAll(d, a).value, b)
    decreases |b|
  {
    if |b| == 0 {
      assert a + b == a;
    } else {
      assert (a + b)[..|a + b| - 1] == a + b[..|b| - 1];
      UpdateAllConcat(d, a, b[..|b| - 1]);
    }
  }

  lemma {:induction false} StrLessIrreflexive(a: string)
    ensures !StrLess(a, a)
  {
    if |a| > 0 {
      StrLessIrreflexive(a[1..]);
    }
  }

  lemma {:induction false} StrLessTransitive(a: string, b: string, c: string)
    requires StrLess(a, b) && StrLess(b, c)
    ensures StrLess(a, c)
  {
    if |a| > 0 && a[0] == b[0] && b[0] == c[0] {
      StrLessTransitive(a[1..], b[1..], c[1..]);
    }
  }

  /** Python's `<` on strings is a total order. */
  lemma {:induction false} StrLessTotal(a: string, b: string)
    ensures StrLess(a, b) || a == b || StrLess(b, a)
  {
    if |a| > 0 && |b| > 0 && a[0] == b[0] {
      StrLessTotal(a[1..], b[1..]);
      assert a == [a[0]] + a[1..] && b == [b[0]] + b[1..];
    }
  }

  /** A balance that is not later than `v` is earlier than one that is. */
  lemma LaterPastNotLater(v: Entry, y: Entry, z: Entry)
    requires Later(v, y) == Ok(false) && Later(v, z) == Ok(true)
    ensures Later(y, z) == Ok(true)
  {
    var x, yv, zv := MetaOf(v)[TimeKey], MetaOf(y)[TimeKey], MetaOf(z)[TimeKey];
    if x.Text? {
      StrLessTotal(x.text, yv.text);
      if StrLess(yv.text, x.text) {
        StrLessTransitive(yv.text, x.text, zv.text);
      }
    }
  }

  lemma LaterTransitive(a: Entry, b: Entry, c: Entry)
    requires Later(a, b) == Ok(true) && Later(b, c) == Ok(true)
    ensures Later(a, c) == Ok(true)
  {
    var x, y, z := MetaOf(a)[TimeKey], MetaOf(b)[TimeKey], MetaOf(c)[TimeKey];
    if x.Text? {
      StrLessTransitive(x.text, y.text, z.text);
    }
  }

  lemma LaterIrreflexive(a: Entry)
    ensures Later(a, a) != Ok(true)
  {
    if TimeKey in MetaOf(a) && MetaOf(a)[TimeKey].Text? {
      StrLessIrreflexive(MetaOf(a)[TimeKey].text);
    }
  }

  /** Candidate `j` is the one kept for date `k`: every earlier candidate of that date
      has a strictly smaller time, and every later one compares as not greater. So `j`
      is the first of the date's candidates with the greatest time. */
  ghost predicate KeptAt(es: seq<Entry>, k: Date, j: int) {
    0 <= j < |es| && DateOf(es[j]) == k
    && (forall i :: 0 <= i < j && DateOf(es[i]) == k ==> Later(es[i], es[j]) == Ok(true))
    && (forall i :: j < i < |es| && DateOf(es[i]) == k ==> Later(es[j], es[i]) == Ok(false))
  }

  /** At most one candidate of a date is kept. */
  lemma KeptAtUnique(es: seq<Entry>, k: Date, j: int, j': int)
    requires KeptAt(es, k, j) && KeptAt(es, k, j')
    ensures j == j'
  {
  }

  /** The kept balance of a date is one of that date's candidates, none of them is
      later, and it is the first of those with the greatest time. */
  ghost predicate Latest(d: Dict<Date, Entry>, es: seq<Entry>) {
    (forall k :: k in d.values ==> DateOf(d.values[k]) == k && d.values[k] in es)
    && (forall i :: 0 <= i < |es| ==> DateOf(es[i]) in d.values && Later(d.values[DateOf(es[i])], es[i]) != Ok(true))
    && (forall k :: k in d.values ==> exists j :: KeptAt(es, k, j) && d.values[k] == es[j])
  }

  /** At most one balance per date, the latest of the date's candidates. */
  lemma {:induction false} UpdateAllLatest(es: seq<Entry>)
    requires UpdateAll(Empty(), es).Ok?
    ensures UpdateAll(Empty(), es).value.Valid()
    ensures Latest(UpdateAll(Empty(), es).value, es)
  {
    if |es| > 0 {
      var n := |es| - 1;
      assert es[..n] + [es[n]] == es;
      var front := UpdateAll(Empty(), es[..n]).value;
      UpdateAllLatest(es[..n]);
      UpdateLatest(front, es[..n], es[n]);
    }
  }

  lemma UpdateLatest(d: Dict<Date, Entry>, es: seq<Entry>, e: Entry)
    requires Latest(d, es) && Update(d, e).Ok?
    ensures Latest(Update(d, e).value, es + [e])
  {
    var d' := Update(d, e).value;
    var all := es + [e];
    var k := DateOf(e);
    LaterIrreflexive(e);
    if k in d.values && Later(d.values[k], e) == Ok(true) {
      var old_ := d.values[k];
      forall i | 0 <= i < |es| && DateOf(es[i]) == k
        ensures Later(e, es[i]) != Ok(true)
      {
        if Later(e, es[i]) == Ok(true) {
          LaterTransitive(old_, e, es[i]);
        }
      }
    }
    forall i | 0 <= i < |all|
      ensures DateOf(all[i]) in d'.values && Later(d'.values[DateOf(all[i])], all[i]) != Ok(true)
    {
      if i < |es| {
        assert all[i] == es[i];
      }
    }
    forall j | j in d'.values
      ensures DateOf(d'.values[j]) == j && d'.values[j] in all
    {
      if j != k {
        assert d'.values[j] == d.values[j];
      }
    }
    forall k' | k' in d'.values
      ensures exists j :: KeptAt(all, k', j) && d'.values[k'] == all[j]
    {
      UpdateKeptAt(d, es, e, k');
    }
  }

  /** One update keeps a kept index for every date: a new or strictly later balance
      becomes the kept one, and any other is recorded as compared and not later. */
  lemma UpdateKeptAt(d: Dict<Date, Entry>, es: seq<Entry>, e: Entry, k': Date)
    requires Latest(d, es) && Update(d, e).Ok? && k' in Update(d, e).value.values
    ensures exists j :: KeptAt(es + [e], k', j) && Update(d, e).value.values[k'] == (es + [e])[j]
  {
    var all := es + [e];
    var n := |es|;
    var k := DateOf(e);
    assert all[n] == e && forall i :: 0 <= i < n ==> all[i] == es[i];
    if k' == k && k !in d.values {
      assert KeptAt(all, k, n);
    } else if k' == k && Later(d.values[k], e) == Ok(true) {
      var v := d.values[k];
      var j :| KeptAt(es, k, j) && v == es[j];
      forall i | 0 <= i < n && DateOf(all[i]) == k
        ensures Later(all[i], all[n]) == Ok(true)
      {
        if i < j {
          LaterTransitive(es[i], v, e);
        } else if j < i {
          LaterPastNotLater(v, es[i], e);
        }
      }
      assert KeptAt(all, k, n);
    } else {
      var j :| KeptAt(es, k', j) && d.values[k'] == es[j];
      assert KeptAt(all, k', j);
    }
  }

  /** The plugin's output: the other entries in their order, then one balance per
      date, the latest of that date's candidates. */
  lemma RunOutput(cfg: PadConfig, entries: seq<Entry>)
    requires Run(Parsed(cfg), entries).Ok?
    ensures var d := Process(cfg, entries).value.1;
      Run(Parsed(cfg), entries).value == Passthrough(cfg, entries) + d.Values()
      && Candidates(cfg, entries).Ok? && Latest(d, Candidates(cfg, entries).value)
  {
    ProcessIsFold(cfg, entries);
    UpdateAllLatest(Candidates(cfg, entries).value);
  }

  /** A balance on the account is a candidate: its date always gets a balance. */
  lemma {:induction false} RelevantBalanceIsCandidate(cfg: PadConfig, entries: seq<Entry>, i: nat)
    requires i < |entries| && IsRelevantBalance(cfg, entries[i]) && Candidates(cfg, entries).Ok?
    ensures entries[i] in Candidates(cfg, entries).value
  {
    var n := |entries| - 1;
    if i < n {
      RelevantBalanceIsCandidate(cfg, entries[..n], i);
    }
  }

  /** The finding: any directive other than a transaction or a balance on the
      account makes the loop as written raise; with it passed through the same
      input is handled. */
  lemma AsWrittenRaisesOnOpen(cfg: PadConfig, e: Entry)
    requires e.Open?
    ensures RunAsWritten(Parsed(cfg), [e]).Err?
    ensures Run(Parsed(cfg), [e]) == Ok([e])
  {
    assert [e][..0] == [];
    assert Process(cfg, [e]) == Ok(([] + [e], Empty()));
    assert [] + [e] == [e] && Empty<Date, Entry>().Values() == [];
    assert ProcessAsWritten(cfg, [e]).Err?;
    assert [e] + [] == [e];
  }

  /** Where the as-written loop does not raise, it agrees with the corrected one. */
  lemma {:induction false} AsWrittenAgrees(cfg: PadConfig, entries: seq<Entry>)
    requires ProcessAsWritten(cfg, entries).Ok?
    ensures Process(cfg, entries) == ProcessAsWritten(cfg, entries)
  {
    if |entries| > 0 {
      AsWrittenAgrees(cfg, entries[..|entries| - 1]);
    }
  }

  // The loops the source runs.

  /** `__create_balances` */
  method CreateBalances(cfg: PadConfig, t: Transaction, ps: seq<Posting>) returns (r: Result<seq<Entry>>)
    requires forall i :: 0 <= i < |ps| ==> RelevantPosting(cfg, ps[i])
    ensures r == NewBalances(cfg, t, ps)
  {
    var news := [];
    var i := 0;
    while i < |ps|
      invariant 0 <= i <= |ps|
      invariant NewBalances(cfg, t, ps[..i]) == Ok(news)
    {
      assert ps[..i + 1][..i] == ps[..i] && ps[..i + 1][i] == ps[i];
      var b := NewBalance(cfg, t, ps[i]);
      if b.Err? {
        NewBalancesPrefixErr(cfg, t, ps, i + 1);
        return Err(b.error);
      }
      news := news + [b.value];
      i := i + 1;
    }
    assert ps[..i] == ps;
    r := Ok(news);
  }

  lemma {:induction false} NewBalancesPrefixErr(cfg: PadConfig, t: Transaction, ps: seq<Posting>, k: nat)
    requires forall i :: 0 <= i < |ps| ==> RelevantPosting(cfg, ps[i])
    requires k <= |ps| && NewBalances(cfg, t, ps[..k]).Err?
    ensures NewBalances(cfg, t, ps) == Err(NewBalances(cfg, t, ps[..k]).error)
    decreases |ps| - k
  {
    if k < |ps| {
      assert ps[..k + 1][..k] == ps[..k];
      NewBalancesPrefixErr(cfg, t, ps, k + 1);
    } else {
      assert ps[..k] == ps;
    }
  }

  /** The loop over the created balances. */
  method UpdateBalances(d0: Dict<Date, Entry>, es: seq<Entry>) returns (r: Result<Dict<Date, Entry>>)
    ensures r == UpdateAll(d0, es)
  {
    var d := d0;
    var i := 0;
    while i < |es|
      invariant 0 <= i <= |es|
      invariant UpdateAll(d0, es[..i]) == Ok(d)
    {
      assert es[..i + 1][..i] == es[..i] && es[..i + 1][i] == es[i];
      var next := Update(d, es[i]);
      if next.Err? {
        UpdateAllPrefixErr(d0, es, i + 1);
        return Err(next.error);
      }
      d := next.value;
      i := i + 1;
    }
    assert es[..i] == es;
    r := Ok(d);
  }

  lemma {:induction false} UpdateAllPrefixErr(d: Dict<Date, Entry>, es: seq<Entry>, k: nat)
    requires k <= |es| && UpdateAll(d, es[..k]).Err?
    ensures UpdateAll(d, es) == Err(UpdateAll(d, es[..k]).error)
    decreases |es| - k
  {
    if k < |es| {
      assert es[..k + 1][..k] == es[..k];
      UpdateAllPrefixErr(d, es, k + 1);
    } else {
      assert es[..k] == es;
    }
  }

  /** `BalancePadCreator.create`, with the other directives passed through. */
  method Create(config: ConfigText, entries: seq<Entry>) returns (r: Result<seq<Entry>>)
    ensures r == Run(config, entries)
  {
    if config.Malformed? {
      return Err("SyntaxError in config: " + config.text);
    }
    var cfg := config.config;
    var pass := [];
    var d: Dict<Date, Entry> := Empty();
    var i := 0;
    while i < |entries|
      invariant 0 <= i <= |entries|
      invariant Process(cfg, entries[..i]) == Ok((pass, d))
    {
      assert entries[..i + 1][..i] == entries[..i] && entries[..i + 1][i] == entries[i];
      var e := entries[i];
      var next: Result<Dict<Date, Entry>> := Ok(d);
      if IsRelevantBalance(cfg, e) {
        next := Update(d, e);
      } else {
        pass := pass + [e];
        if e.TxnEntry? {
          var rel := RelevantPostings(cfg, e.txn.postings);
          if |rel| > 0 {
            var news := CreateBalances(cfg, e.txn, rel);
            if news.Err? {
              next := Err(news.error);
            } else {
              next := UpdateBalances(d, news.value);
            }
          }
        }
      }
      if next.Err? {
        ProcessPrefixErr(cfg, entries, i + 1);
        return Err(next.error);
      }
      d := next.value;
      i := i + 1;
    }
    assert entries[..i] == entries;
    r := Ok(pass + d.Values());
  }

  lemma {:induction false} ProcessPrefixErr(cfg: PadConfig, entries: seq<Entry>, k: nat)
    requires k <= |entries| && Process(cfg, entries[..k]).Err?
    ensures Process(cfg, entries) == Err(Process(cfg, entries[..k]).error)
    decreases |entries| - k
  {
    if k < |entries| {
      assert entries[..k + 1][..k] == entries[..k];
      ProcessPrefixErr(cfg, entries, k + 1);
    } else {
      assert entries[..k] == entries;
    }
  }
}
