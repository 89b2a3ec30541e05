/** The post splitter: a transaction with exactly one posting flagged by the split-type
    key has its other postings filled in, in equal parts of what the rest of the
    transaction leaves over, or in proportion to a ratio each of them carries. */
module PostSplitting {
  import opened Results
  import opened Ledger
  import Rounding

  /** The plugin's configuration. `metadataNameSkipSplit` is read but never used:
      postings are skipped by the literal key "skip-split". */
  datatype PostSplitterConfig = PostSplitterConfig(
    roundings: Option<map<Currency, int>>,
    metadataNameType: string,
    metadataNameSkipSplit: Option<string>,
    metadataNameUnit: Option<string>,
    metadataNameExchangeRate: Option<string>,
    metadataNameSplitRatio: Option<string>)

  const SkipSplitKey := "skip-split"
  const EqualKind := Text("equal")
  const ProportionalKind := Text("proportional")

  predicate IsFlagged(cfg: PostSplitterConfig, q: Posting) {
    cfg.metadataNameType in q.meta
  }

  /** The postings carrying the split-type key, in order. */
  function Flagged(cfg: PostSplitterConfig, ps: seq<Posting>): (r: seq<Posting>)
    ensures |r| <= |ps|
    ensures forall i :: 0 <= i < |r| ==> IsFlagged(cfg, r[i])
  {
    if |ps| == 0 then []
    else Flagged(cfg, ps[..|ps| - 1]) + (if IsFlagged(cfg, ps[|ps| - 1]) then [ps[|ps| - 1]] else [])
  }

  /** The number of copies of `q` in `ps`. */
  function Copies(ps: seq<Posting>, q: Posting): nat {
    if |ps| == 0 then 0
    else Copies(ps[..|ps| - 1], q) + (if ps[|ps| - 1] == q then 1 else 0)
  }

  lemma {:induction false} CopiesConcat(a: seq<Posting>, b: seq<Posting>, q: Posting)
    ensures Copies(a + b, q) == Copies(a, q) + Copies(b, q)
    decreases |b|
  {
    if |b| > 0 {
      assert (a + b)[..|a + b| - 1] == a + b[..|b| - 1];
      CopiesConcat(a, b[..|b| - 1], q);
    } else {
      assert a + b == a;
    }
  }

  /** Every copy of a flagged posting is among the flagged ones. */
  lemma {:induction false} FlaggedCopies(cfg: PostSplitterConfig, ps: seq<Posting>, q: Posting)
    requires IsFlagged(cfg, q)
    ensures Copies(Flagged(cfg, ps), q) == Copies(ps, q)
    decreases |ps|
  {
    if |ps| > 0 {
      var n := |ps| - 1;
      FlaggedCopies(cfg, ps[..n], q);
      var last := if IsFlagged(cfg, ps[n]) then [ps[n]] else [];
      CopiesConcat(Flagged(cfg, ps[..n]), last, q);
      if IsFlagged(cfg, ps[n]) {
        assert last[..0] == [];
      }
    }
  }

  /** The single flagged posting occurs once. */
  lemma SingleFlagged(cfg: PostSplitterConfig, ps: seq<Posting>)
    requires |Flagged(cfg, ps)| == 1
    ensures Copies(ps, Flagged(cfg, ps)[0]) == 1
  {
    var fl := Flagged(cfg, ps);
    FlaggedCopies(cfg, ps, fl[0]);
    assert fl[..0] == [];
  }

  // Equal mode.

  /** `SplitterBase.is_modify_needed`: a zero posting with metadata and no skip key. */
  predicate EqualNeeded(q: Posting) {
    q.units.number == 0.0 && |q.meta| > 0 && SkipSplitKey !in q.meta
  }

  /** What the postings other than the flagged one and those to fill add up to. */
  function EqualSum(ps: seq<Posting>, p0: Posting): real {
    if |ps| == 0 then 0.0
    else
      var q := ps[|ps| - 1];
      EqualSum(ps[..|ps| - 1], p0) + (if q != p0 && !EqualNeeded(q) then q.units.number else 0.0)
  }

  /** How many postings are to be filled. */
  function EqualCount(ps: seq<Posting>, p0: Posting): nat {
    if |ps| == 0 then 0
    else
      var q := ps[|ps| - 1];
      EqualCount(ps[..|ps| - 1], p0) + (if q != p0 && EqualNeeded(q) then 1 else 0)
  }

  /** `EqualSplitter.__init__`: every filled posting gets minus the rounded share of
      the flagged posting plus the rest; nothing to fill divides by zero. */
  function EqualUnit(cfg: PostSplitterConfig, ps: seq<Posting>, p0: Posting): Result<Amount> {
    var d := EqualCount(ps, p0);
    if d == 0 then Err("division by zero")
    else
      var number := Rounding.Round(cfg.roundings, (p0.units.number + EqualSum(ps, p0)) / d as real, p0.units.currency);
      Ok(Amount(-number, p0.units.currency))
  }

  // Proportional mode.

  /** The posting the ratio loop sees: the flagged one has lost the exchange-rate key. */
  function RatioView(q: Posting, p0: Posting, p1: Posting): Posting {
    if q == p0 then p1 else q
  }

  /** `ProportionSplitter.__init__`'s `max_number`: the ratios of all postings that
      carry one, the flagged one included. */
  function RatioSum(key: string, ps: seq<Posting>, p0: Posting, p1: Posting): Result<real> {
    if |ps| == 0 then Ok(0.0)
    else
      var front :- RatioSum(key, ps[..|ps| - 1], p0, p1);
      var q := RatioView(ps[|ps| - 1], p0, p1);
      if key !in q.meta then Ok(front)
      else if q.meta[key].AmountValue? then Ok(front + q.meta[key].amount.number)
      else Err("split ratio is not an amount")
  }

  /** `get_proportion_splitter`: the number to split, the cost of the new postings
      and the flagged posting as it then is. With unit and exchange-rate metadata the
      number comes from the unit, the cost from the rate, and the rate key is
      deleted; otherwise the flagged posting's units are split, without a cost. */
  function NumberToSplit(cfg: PostSplitterConfig, t: Transaction, p0: Posting): (r: Result<(real, Option<Cost>, Posting)>)
    ensures r.Ok? && r.value.1.None? ==> r.value == (-p0.units.number, None, p0)
    ensures r.Ok? && r.value.1.Some? ==>
      cfg.metadataNameUnit.Some? && cfg.metadataNameExchangeRate.Some?
      && var unit := cfg.metadataNameUnit.value;
      var rate := cfg.metadataNameExchangeRate.value;
      unit in p0.meta && p0.meta[unit].AmountValue? && r.value.0 == p0.meta[unit].amount.number
      && rate in p0.meta && p0.meta[rate].AmountValue?
      && r.value.1.value == Cost(p0.meta[rate].amount.number, p0.meta[rate].amount.currency, Some(t.date), None)
      && r.value.2 == p0.(meta := p0.meta - {rate})
    ensures cfg.metadataNameUnit.Some? && cfg.metadataNameExchangeRate.Some?
            && cfg.metadataNameUnit.value in p0.meta && cfg.metadataNameExchangeRate.value in p0.meta ==>
      (r.Ok? <==> p0.meta[cfg.metadataNameUnit.value].AmountValue? && p0.meta[cfg.metadataNameExchangeRate.value].AmountValue?)
      && (r.Ok? ==> r.value.1.Some?)
    ensures !(cfg.metadataNameUnit.Some? && cfg.metadataNameExchangeRate.Some?
              && cfg.metadataNameUnit.value in p0.meta && cfg.metadataNameExchangeRate.value in p0.meta) ==>
      r == Ok((-p0.units.number, None, p0))
  {
    if cfg.metadataNameUnit.Some? && cfg.metadataNameExchangeRate.Some?
       && cfg.metadataNameUnit.value in p0.meta && cfg.metadataNameExchangeRate.value in p0.meta
    then
      var unit := p0.meta[cfg.metadataNameUnit.value];
      var rate := p0.meta[cfg.metadataNameExchangeRate.value];
      if !unit.AmountValue? then Err("unit is not an amount")
      else if !rate.AmountValue? then Err("exchange rate is not an amount")
      else
        Ok((unit.amount.number,
            Some(Cost(rate.amount.number, rate.amount.currency, Some(t.date), None)),
            p0.(meta := p0.meta - {cfg.metadataNameExchangeRate.value})))
    else Ok((-p0.units.number, None, p0))
  }

  // The split itself.

  /** A constructed splitter: the equal unit, or the ratio key, the ratio total, the
      number to split and the cost. */
  datatype Mode =
    | Equal(unit: Amount)
    | Proportional(key: string, total: real, numberToSplit: real, cost: Option<Cost>)

  predicate Needed(mode: Mode, q: Posting) {
    match mode
    case Equal(_) => EqualNeeded(q)
    case Proportional(key, _, _, _) => key in q.meta
  }

  function CostOf(mode: Mode): Option<Cost> {
    match mode
    case Equal(_) => None
    case Proportional(_, _, _, cost) => cost
  }

  /** `get_new_unit` */
  function NewUnit(cfg: PostSplitterConfig, mode: Mode, q: Posting): Result<Amount>
    requires Needed(mode, q)
  {
    match mode
    case Equal(unit) => Ok(unit)
    case Proportional(key, total, n, _) =>
      var ratio := q.meta[key];
      if !ratio.AmountValue? then Err("split ratio is not an amount")
      else if total == 0.0 then Err("division by zero")
      else Ok(Amount(Rounding.Round(cfg.roundings, ratio.amount.number / total * n, ratio.amount.currency), ratio.amount.currency))
  }

  /** One posting of `SplitterBase.split`'s loop. The loop runs after the split-type
      key is deleted from the flagged posting `p0`, giving `s0`, and compares by
      value: `s0` and any posting equal to it are kept as they are. */
  function SplitOne(cfg: PostSplitterConfig, mode: Mode, p0: Posting, s0: Posting, q: Posting): (r: Result<Posting>)
    ensures q == p0 ==> r == Ok(s0)
    ensures q != p0 && (q == s0 || !Needed(mode, q)) ==> r == Ok(q)
    ensures q != p0 && q != s0 && Needed(mode, q) ==>
      (r.Ok? <==> NewUnit(cfg, mode, q).Ok?)
      && (r.Ok? ==> r.value == Posting(q.account, NewUnit(cfg, mode, q).value, CostOf(mode), None, None, q.meta))
  {
    if q == p0 then Ok(s0)
    else if q == s0 || !Needed(mode, q) then Ok(q)
    else
      var unit :- NewUnit(cfg, mode, q);
      Ok(Posting(q.account, unit, CostOf(mode), None, None, q.meta))
  }

  function SplitPostings(cfg: PostSplitterConfig, mode: Mode, p0: Posting, s0: Posting, ps: seq<Posting>): Result<seq<Posting>> {
    if |ps| == 0 then Ok([])
    else
      var front :- SplitPostings(cfg, mode, p0, s0, ps[..|ps| - 1]);
      var q :- SplitOne(cfg, mode, p0, s0, ps[|ps| - 1]);
      Ok(front + [q])
  }

  /** `get_splitter(...).split()` for a flagged posting `p0`. */
  function SplitFlagged(cfg: PostSplitterConfig, t: Transaction, p0: Posting): Result<Transaction>
    requires IsFlagged(cfg, p0)
  {
    var kind := p0.meta[cfg.metadataNameType];
    if kind == EqualKind then
      var unit :- EqualUnit(cfg, t.postings, p0);
      var ps :- SplitPostings(cfg, Equal(unit), p0, p0.(meta := p0.meta - {cfg.metadataNameType}), t.postings);
      Ok(t.(postings := ps))
    else if kind == ProportionalKind && cfg.metadataNameSplitRatio.Some? then
      var (n, cost, p1) :- NumberToSplit(cfg, t, p0);
      var total :- RatioSum(cfg.metadataNameSplitRatio.value, t.postings, p0, p1);
      var mode := Proportional(cfg.metadataNameSplitRatio.value, total, n, cost);
      var ps :- SplitPostings(cfg, mode, p0, p1.(meta := p1.meta - {cfg.metadataNameType}), t.postings);
      Ok(t.(postings := ps))
    else Ok(t)
  }

  /** One transaction of `PostSplitter.split`: split when exactly one posting is
      flagged, otherwise unchanged; any split type other than equal, or
      proportional with a ratio key configured, leaves it unchanged as well. */
  function SplitEntry(cfg: PostSplitterConfig, t: Transaction): (r: Result<Transaction>)
    ensures |Flagged(cfg, t.postings)| != 1 ==> r == Ok(t)
    ensures |Flagged(cfg, t.postings)| == 1 ==>
      var kind := Flagged(cfg, t.postings)[0].meta[cfg.metadataNameType];
      kind != EqualKind && !(kind == ProportionalKind && cfg.metadataNameSplitRatio.Some?) ==> r == Ok(t)
  {
    var flagged := Flagged(cfg, t.postings);
    if |flagged| != 1 then Ok(t) else SplitFlagged(cfg, t, flagged[0])
  }

  /** `PostSplitter.split`: other entries pass through; no errors are reported. */
  function SplitEntries(cfg: PostSplitterConfig, entries: seq<Entry>): Result<seq<Entry>> {
    if |entries| == 0 then Ok([])
    else
      var n := |entries| - 1;
      var front :- SplitEntries(cfg, entries[..n]);
      var last :- if entries[n].TxnEntry? then (var t :- SplitEntry(cfg, entries[n].txn); Ok(TxnEntry(t))) else Ok(entries[n]);
      Ok(front + [last])
  }

  // Properties.

  /** The split keeps every posting in its place: the flagged one loses the
      split-type key, the others are kept or filled in. */
  lemma {:induction false} SplitPostingsPointwise(cfg: PostSplitterConfig, mode: Mode, p0: Posting, s0: Posting, ps: seq<Posting>)
    requires SplitPostings(cfg, mode, p0, s0, ps).Ok?
    ensures var r := SplitPostings(cfg, mode, p0, s0, ps).value;
      |r| == |ps| && forall i :: 0 <= i < |ps| ==> SplitOne(cfg, mode, p0, s0, ps[i]) == Ok(r[i])
  {
    if |ps| > 0 {
      var n := |ps| - 1;
      SplitPostingsPointwise(cfg, mode, p0, s0, ps[..n]);
      var front := SplitPostings(cfg, mode, p0, s0, ps[..n]).value;
      var r := SplitPostings(cfg, mode, p0, s0, ps).value;
      assert forall i :: 0 <= i < n ==> r[i] == front[i] && ps[i] == ps[..n][i];
    }
  }

  /** The flagged posting comes out without the split-type key, every other posting
      keeps its account and metadata, and a posting that is not filled in is kept. */
  lemma SplitEntryShape(cfg: PostSplitterConfig, t: Transaction)
    requires |Flagged(cfg, t.postings)| == 1 && SplitEntry(cfg, t).Ok?
    ensures var r := SplitEntry(cfg, t).value;
      var p0 := Flagged(cfg, t.postings)[0];
      r == t.(postings := r.postings)
      && |r.postings| == |t.postings|
      && forall i :: 0 <= i < |t.postings| ==>
           r.postings[i].account == t.postings[i].account
           && (t.postings[i] == p0 && r != t ==> cfg.metadataNameType !in r.postings[i].meta)
           && (t.postings[i] != p0 ==> r.postings[i].meta == t.postings[i].meta)
  {
    var p0 := Flagged(cfg, t.postings)[0];
    var kind := p0.meta[cfg.metadataNameType];
    if kind == EqualKind {
      var unit := EqualUnit(cfg, t.postings, p0).value;
      var s0 := p0.(meta := p0.meta - {cfg.metadataNameType});
      SplitPostingsPointwise(cfg, Equal(unit), p0, s0, t.postings);
      PointwiseShape(cfg, Equal(unit), p0, s0, t.postings, SplitPostings(cfg, Equal(unit), p0, s0, t.postings).value);
    } else if kind == ProportionalKind && cfg.metadataNameSplitRatio.Some? {
      var (n, cost, p1) := NumberToSplit(cfg, t, p0).value;
      var total := RatioSum(cfg.metadataNameSplitRatio.value, t.postings, p0, p1).value;
      var mode := Proportional(cfg.metadataNameSplitRatio.value, total, n, cost);
      var s0 := p1.(meta := p1.meta - {cfg.metadataNameType});
      SplitPostingsPointwise(cfg, mode, p0, s0, t.postings);
      PointwiseShape(cfg, mode, p0, s0, t.postings, SplitPostings(cfg, mode, p0, s0, t.postings).value);
    }
  }

  /** Posting by posting, the loop keeps accounts and metadata, except that the flagged
      posting is replaced by `s0`. */
  lemma PointwiseShape(cfg: PostSplitterConfig, mode: Mode, p0: Posting, s0: Posting, ps: seq<Posting>, outs: seq<Posting>)
    requires |outs| == |ps| && forall i :: 0 <= i < |ps| ==> SplitOne(cfg, mode, p0, s0, ps[i]) == Ok(outs[i])
    ensures forall i :: 0 <= i < |ps| ==>
      (ps[i] == p0 ==> outs[i] == s0)
      && (ps[i] != p0 ==> outs[i].account == ps[i].account && outs[i].meta == ps[i].meta)
  {
  }

  /** No posting equals the flagged one without its split-type key; the loop would
      take such a posting for the flagged one. */
  ghost predicate NoTwin(ps: seq<Posting>, s0: Posting) {
    forall i :: 0 <= i < |ps| ==> ps[i] != s0
  }

  /** Every posting that is neither flagged nor filled in is in `cur`. */
  ghost predicate KeptIn(ps: seq<Posting>, p0: Posting, cur: Currency) {
    forall i :: 0 <= i < |ps| && ps[i] != p0 && !EqualNeeded(ps[i]) ==> ps[i].units.currency == cur
  }

  /** Every split ratio is an amount in `c`. */
  ghost predicate RatiosIn(key: string, ps: seq<Posting>, c: Currency) {
    forall i :: 0 <= i < |ps| && key in ps[i].meta ==> ps[i].meta[key].AmountValue? && ps[i].meta[key].amount.currency == c
  }

  /** The last step of the split loop. */
  lemma SplitPostingsLast(cfg: PostSplitterConfig, mode: Mode, p0: Posting, s0: Posting, ps: seq<Posting>, c: Currency)
    requires |ps| > 0 && SplitPostings(cfg, mode, p0, s0, ps).Ok?
    ensures SplitPostings(cfg, mode, p0, s0, ps[..|ps| - 1]).Ok? && SplitOne(cfg, mode, p0, s0, ps[|ps| - 1]).Ok?
    ensures CurrencySum(SplitPostings(cfg, mode, p0, s0, ps).value, c)
            == CurrencySum(SplitPostings(cfg, mode, p0, s0, ps[..|ps| - 1]).value, c) + UnitsIn(SplitOne(cfg, mode, p0, s0, ps[|ps| - 1]).value, c)
  {
    var front := SplitPostings(cfg, mode, p0, s0, ps[..|ps| - 1]).value;
    var out := SplitPostings(cfg, mode, p0, s0, ps).value;
    assert out == front + [SplitOne(cfg, mode, p0, s0, ps[|ps| - 1]).value];
    assert out[..|out| - 1] == front;
  }

  /** In equal mode the postings sum, in each currency, to the flagged posting's
      copies, the kept postings in that currency, and one unit per filled posting. */
  lemma {:induction false} EqualSplitSum(cfg: PostSplitterConfig, x: real, p0: Posting, s0: Posting, ps: seq<Posting>, c: Currency)
    requires s0.units == p0.units && NoTwin(ps, s0) && KeptIn(ps, p0, p0.units.currency)
    requires SplitPostings(cfg, Equal(Amount(-x, p0.units.currency)), p0, s0, ps).Ok?
    ensures CurrencySum(SplitPostings(cfg, Equal(Amount(-x, p0.units.currency)), p0, s0, ps).value, c)
            == if c == p0.units.currency
               then Times(Copies(ps, p0), p0.units.number) + EqualSum(ps, p0) - Times(EqualCount(ps, p0), x)
               else 0.0
    decreases |ps|
  {
    if |ps| > 0 {
      var mode := Equal(Amount(-x, p0.units.currency));
      var n := |ps| - 1;
      var q := ps[n];
      assert q != s0;
      assert q != p0 && !EqualNeeded(q) ==> q.units.currency == p0.units.currency;
      assert NoTwin(ps[..n], s0) && KeptIn(ps[..n], p0, p0.units.currency) by {
        assert forall i :: 0 <= i < n ==> ps[..n][i] == ps[i];
      }
      SplitPostingsLast(cfg, mode, p0, s0, ps, c);
      EqualSplitSum(cfg, x, p0, s0, ps[..n], c);
    }
  }

  /** Without rounding, an equal split balances the transaction when everything that
      is not filled in is in the flagged posting's currency (and no posting equals
      the flagged one without its key, which the loop would take for it). */
  lemma EqualSplitBalanced(cfg: PostSplitterConfig, t: Transaction)
    requires cfg.roundings.None? && |Flagged(cfg, t.postings)| == 1
    requires var p0 := Flagged(cfg, t.postings)[0];
      p0.meta[cfg.metadataNameType] == EqualKind
      && NoTwin(t.postings, p0.(meta := p0.meta - {cfg.metadataNameType}))
      && KeptIn(t.postings, p0, p0.units.currency)
    ensures SplitEntry(cfg, t).Err? <==> EqualCount(t.postings, Flagged(cfg, t.postings)[0]) == 0
    ensures SplitEntry(cfg, t).Ok? ==> Balanced(SplitEntry(cfg, t).value.postings)
  {
    var p0 := Flagged(cfg, t.postings)[0];
    SingleFlagged(cfg, t.postings);
    var d := EqualCount(t.postings, p0);
    if d > 0 {
      var cur := p0.units.currency;
      var total := p0.units.number + EqualSum(t.postings, p0);
      var x := total / d as real;
      assert EqualUnit(cfg, t.postings, p0) == Ok(Amount(-x, cur));
      var s0 := p0.(meta := p0.meta - {cfg.metadataNameType});
      EqualNeverFails(cfg, Amount(-x, cur), p0, s0, t.postings);
      if SplitEntry(cfg, t).Ok? {
        forall c: Currency
          ensures CurrencySum(SplitEntry(cfg, t).value.postings, c) == 0.0
        {
          EqualSplitSum(cfg, x, p0, s0, t.postings, c);
          TimesQuotient(d, total);
        }
      }
    }
  }

  lemma TimesQuotient(d: nat, total: real)
    requires d > 0
    ensures Times(d, total / d as real) == total
  {
    TimesIsProduct(d, total / d as real);
  }

  /** In proportional mode without rounding, the postings sum to the flagged posting's
      copies, the kept postings, and the number to split scaled by the ratios of the
      filled postings over the ratio total. */
  lemma {:induction false} ProportionalSplitSum(cfg: PostSplitterConfig, key: string, total: real, n: real, cost: Option<Cost>,
                                                 p0: Posting, s0: Posting, ps: seq<Posting>, c: Currency)
    requires cfg.roundings.None? && total != 0.0
    requires SplitPostings(cfg, Proportional(key, total, n, cost), p0, s0, ps).Ok?
    ensures CurrencySum(SplitPostings(cfg, Proportional(key, total, n, cost), p0, s0, ps).value, c)
            == Times(Copies(ps, p0), UnitsIn(s0, c)) + KeptSum(key, p0, s0, ps, c) + FilledRatio(key, p0, s0, ps, c) / total * n
  {
    ProportionalShares(cfg, key, total, n, cost, p0, s0, ps, c);
    SharesScale(key, total, n, p0, s0, ps, c);
  }

  lemma {:induction false} ProportionalShares(cfg: PostSplitterConfig, key: string, total: real, n: real, cost: Option<Cost>,
                                               p0: Posting, s0: Posting, ps: seq<Posting>, c: Currency)
    requires cfg.roundings.None? && total != 0.0
    requires SplitPostings(cfg, Proportional(key, total, n, cost), p0, s0, ps).Ok?
    ensures CurrencySum(SplitPostings(cfg, Proportional(key, total, n, cost), p0, s0, ps).value, c)
            == Times(Copies(ps, p0), UnitsIn(s0, c)) + KeptSum(key, p0, s0, ps, c) + FilledShares(key, total, n, p0, s0, ps, c)
  {
    var mode := Proportional(key, total, n, cost);
    SplitPostingsPointwise(cfg, mode, p0, s0, ps);
    var outs := SplitPostings(cfg, mode, p0, s0, ps).value;
    forall i | 0 <= i < |ps|
      ensures UnitsIn(outs[i], c) == PieceSum(key, total, n, p0, s0, ps[i], c)
    {
      ProportionalOne(cfg, key, total, n, cost, p0, s0, ps[i], c);
    }
    PiecesAddUp(key, total, n, p0, s0, ps, outs, c);
  }

  /** What the loop makes of posting `q` in `c`, in the three parts the sum is split
      into: a copy of the flagged posting, a kept posting, a filled share. */
  function PieceSum(key: string, total: real, n: real, p0: Posting, s0: Posting, q: Posting, c: Currency): real
    requires total != 0.0
  {
    (if q == p0 then UnitsIn(s0, c) else 0.0)
    + (if q != p0 && (q == s0 || key !in q.meta) then UnitsIn(q, c) else 0.0)
    + ShareOf(key, total, n, p0, s0, q, c)
  }

  /** Output postings whose units are the pieces of the inputs sum to the three parts
      added up over the inputs. */
  lemma {:induction false} PiecesAddUp(key: string, total: real, n: real, p0: Posting, s0: Posting,
                                       ps: seq<Posting>, outs: seq<Posting>, c: Currency)
    requires total != 0.0 && |outs| == |ps|
    requires forall i :: 0 <= i < |ps| ==> UnitsIn(outs[i], c) == PieceSum(key, total, n, p0, s0, ps[i], c)
    ensures CurrencySum(outs, c)
            == Times(Copies(ps, p0), UnitsIn(s0, c)) + KeptSum(key, p0, s0, ps, c) + FilledShares(key, total, n, p0, s0, ps, c)
    decreases |ps|
  {
    if |ps| > 0 {
      var m := |ps| - 1;
      var q := ps[m];
      PiecesPrefix(key, total, n, p0, s0, ps, outs, c, m);
      PiecesAddUp(key, total, n, p0, s0, ps[..m], outs[..m], c);
      var copy := q == p0;
      var kept := if q != p0 && (q == s0 || key !in q.meta) then UnitsIn(q, c) else 0.0;
      var share := ShareOf(key, total, n, p0, s0, q, c);
      assert CurrencySum(outs, c) == CurrencySum(outs[..m], c) + UnitsIn(outs[m], c);
      assert Copies(ps, p0) == Copies(ps[..m], p0) + (if copy then 1 else 0);
      assert KeptSum(key, p0, s0, ps, c) == KeptSum(key, p0, s0, ps[..m], c) + kept;
      assert FilledShares(key, total, n, p0, s0, ps, c) == FilledShares(key, total, n, p0, s0, ps[..m], c) + share;
      PieceStep(CurrencySum(outs[..m], c), UnitsIn(outs[m], c), UnitsIn(s0, c), Copies(ps[..m], p0), copy,
                KeptSum(key, p0, s0, ps[..m], c), kept, FilledShares(key, total, n, p0, s0, ps[..m], c), share);
    }
  }

  lemma PiecesPrefix(key: string, total: real, n: real, p0: Posting, s0: Posting,
                     ps: seq<Posting>, outs: seq<Posting>, c: Currency, m: nat)
    requires total != 0.0 && |outs| == |ps| && m <= |ps|
    requires forall i :: 0 <= i < |ps| ==> UnitsIn(outs[i], c) == PieceSum(key, total, n, p0, s0, ps[i], c)
    ensures forall i :: 0 <= i < m ==> UnitsIn(outs[..m][i], c) == PieceSum(key, total, n, p0, s0, ps[..m][i], c)
  {
    forall i | 0 <= i < m ensures UnitsIn(outs[..m][i], c) == PieceSum(key, total, n, p0, s0, ps[..m][i], c) {
      assert ps[..m][i] == ps[i] && outs[..m][i] == outs[i];
    }
  }

  /** Adding one output's units to the running sum adds its piece to each part. */
  lemma PieceStep(sum: real, last: real, u: real, k: nat, copy: bool, kept: real, keptLast: real, shares: real, shareLast: real)
    requires sum == Times(k, u) + kept + shares
    requires last == (if copy then u else 0.0) + keptLast + shareLast
    ensures sum + last == Times(k + (if copy then 1 else 0), u) + (kept + keptLast) + (shares + shareLast)
  {
    if copy {
      assert Times(k + 1, u) == Times(k, u) + u;
    }
  }

  /** The shares add up to the ratio sum scaled. */
  lemma {:induction false} SharesScale(key: string, total: real, n: real, p0: Posting, s0: Posting, ps: seq<Posting>, c: Currency)
    requires total != 0.0
    ensures FilledShares(key, total, n, p0, s0, ps, c) == FilledRatio(key, p0, s0, ps, c) / total * n
    decreases |ps|
  {
    if |ps| > 0 {
      var m := |ps| - 1;
      SharesScale(key, total, n, p0, s0, ps[..m], c);
      ShareAdd(FilledRatio(key, p0, s0, ps[..m], c), RatioIn(key, p0, s0, ps[m], c), total, n);
    }
  }

  /** The ratio in `c` a posting contributes to the filled total. */
  function RatioIn(key: string, p0: Posting, s0: Posting, q: Posting, c: Currency): real {
    if q != p0 && q != s0 && key in q.meta && q.meta[key].AmountValue? && q.meta[key].amount.currency == c
    then q.meta[key].amount.number else 0.0
  }

  lemma ZeroShare(total: real, n: real)
    requires total != 0.0
    ensures 0.0 / total * n == 0.0
  {
  }

  /** The shares in `c` the filled postings receive. */
  function FilledShares(key: string, total: real, n: real, p0: Posting, s0: Posting, ps: seq<Posting>, c: Currency): real
    requires total != 0.0
  {
    if |ps| == 0 then 0.0
    else
      var q := ps[|ps| - 1];
      FilledShares(key, total, n, p0, s0, ps[..|ps| - 1], c) + ShareOf(key, total, n, p0, s0, q, c)
  }

  /** The share in `c` the loop hands a posting: its ratio over the total, times the
      number to split. */
  function ShareOf(key: string, total: real, n: real, p0: Posting, s0: Posting, q: Posting, c: Currency): real
    requires total != 0.0
  {
    RatioIn(key, p0, s0, q, c) / total * n
  }

  /** What one posting of the loop contributes in `c`. */
  lemma ProportionalOne(cfg: PostSplitterConfig, key: string, total: real, n: real, cost: Option<Cost>,
                        p0: Posting, s0: Posting, q: Posting, c: Currency)
    requires cfg.roundings.None? && total != 0.0
    requires SplitOne(cfg, Proportional(key, total, n, cost), p0, s0, q).Ok?
    ensures UnitsIn(SplitOne(cfg, Proportional(key, total, n, cost), p0, s0, q).value, c)
            == (if q == p0 then UnitsIn(s0, c) else 0.0)
               + (if q != p0 && (q == s0 || key !in q.meta) then UnitsIn(q, c) else 0.0)
               + ShareOf(key, total, n, p0, s0, q, c)
  {
    if RatioIn(key, p0, s0, q, c) == 0.0 {
      ZeroShare(total, n);
    }
  }

  lemma ShareAdd(f: real, a: real, total: real, n: real)
    requires total != 0.0
    ensures f / total * n + a / total * n == (f + a) / total * n
  {
  }

  /** The units in `c` of the postings that are neither the flagged one nor filled in. */
  function KeptSum(key: string, p0: Posting, s0: Posting, ps: seq<Posting>, c: Currency): real {
    if |ps| == 0 then 0.0
    else
      var q := ps[|ps| - 1];
      KeptSum(key, p0, s0, ps[..|ps| - 1], c) + (if q != p0 && (q == s0 || key !in q.meta) then UnitsIn(q, c) else 0.0)
  }

  /** The ratios in `c` of the postings filled in. */
  function FilledRatio(key: string, p0: Posting, s0: Posting, ps: seq<Posting>, c: Currency): real {
    if |ps| == 0 then 0.0
    else
      var q := ps[|ps| - 1];
      FilledRatio(key, p0, s0, ps[..|ps| - 1], c) + RatioIn(key, p0, s0, q, c)
  }

  /** When the flagged posting carries no ratio, no other posting equals it and all
      ratios are in one currency, the filled ratios are the whole ratio total. */
  lemma {:induction false} FilledIsTotal(key: string, p0: Posting, p1: Posting, s0: Posting, ps: seq<Posting>, c: Currency)
    requires key !in p1.meta && NoTwin(ps, s0) && RatiosIn(key, ps, c)
    requires RatioSum(key, ps, p0, p1).Ok?
    ensures FilledRatio(key, p0, s0, ps, c) == RatioSum(key, ps, p0, p1).value
    decreases |ps|
  {
    if |ps| > 0 {
      var m := |ps| - 1;
      assert ps[m] != s0;
      assert key in ps[m].meta ==> ps[m].meta[key].AmountValue? && ps[m].meta[key].amount.currency == c;
      assert NoTwin(ps[..m], s0) && RatiosIn(key, ps[..m], c) by {
        assert forall i :: 0 <= i < m ==> ps[..m][i] == ps[i];
      }
      FilledIsTotal(key, p0, p1, s0, ps[..m], c);
    }
  }

  /** Without rounding and without unit metadata, a proportional split hands out
      exactly the flagged posting's units: the result sums, in the ratio currency, to
      what the kept postings sum to. */
  lemma ProportionalSplitHandsOutAll(cfg: PostSplitterConfig, t: Transaction)
    requires cfg.roundings.None? && |Flagged(cfg, t.postings)| == 1 && cfg.metadataNameSplitRatio.Some?
    requires var p0 := Flagged(cfg, t.postings)[0];
      var key := cfg.metadataNameSplitRatio.value;
      p0.meta[cfg.metadataNameType] == ProportionalKind
      && key !in p0.meta && cfg.metadataNameUnit.None?
      && NoTwin(t.postings, p0.(meta := p0.meta - {cfg.metadataNameType}))
      && RatiosIn(key, t.postings, p0.units.currency)
      && (exists i :: 0 <= i < |t.postings| && key in t.postings[i].meta)
    requires SplitEntry(cfg, t).Ok?
    ensures var p0 := Flagged(cfg, t.postings)[0];
      var key := cfg.metadataNameSplitRatio.value;
      var s0 := p0.(meta := p0.meta - {cfg.metadataNameType});
      CurrencySum(SplitEntry(cfg, t).value.postings, p0.units.currency) == KeptSum(key, p0, s0, t.postings, p0.units.currency)
  {
    var p0 := Flagged(cfg, t.postings)[0];
    var key := cfg.metadataNameSplitRatio.value;
    var cur := p0.units.currency;
    var s0 := p0.(meta := p0.meta - {cfg.metadataNameType});
    SingleFlagged(cfg, t.postings);
    assert NumberToSplit(cfg, t, p0) == Ok((-p0.units.number, None, p0));
    var total := RatioSum(key, t.postings, p0, p0).value;
    var mode := Proportional(key, total, -p0.units.number, None);
    assert SplitEntry(cfg, t) == Ok(t.(postings := SplitPostings(cfg, mode, p0, s0, t.postings).value));
    SplitPostingsPointwise(cfg, mode, p0, s0, t.postings);
    var i :| 0 <= i < |t.postings| && key in t.postings[i].meta;
    assert t.postings[i] != p0 && t.postings[i] != s0;
    assert NewUnit(cfg, mode, t.postings[i]).Ok?;
    FilledIsTotal(key, p0, p0, s0, t.postings, cur);
    SelfRatio(FilledRatio(key, p0, s0, t.postings, cur), total, -p0.units.number);
    ProportionalSumKept(cfg, key, total, -p0.units.number, p0, s0, t.postings, cur);
  }

  lemma SelfRatio(f: real, total: real, n: real)
    requires f == total && total != 0.0
    ensures f / total * n == n
  {
  }

  lemma ProportionalSumKept(cfg: PostSplitterConfig, key: string, total: real, n: real,
                            p0: Posting, s0: Posting, ps: seq<Posting>, c: Currency)
    requires cfg.roundings.None? && total != 0.0
    requires SplitPostings(cfg, Proportional(key, total, n, None), p0, s0, ps).Ok?
    requires Copies(ps, p0) == 1 && FilledRatio(key, p0, s0, ps, c) / total * n == n && n == -UnitsIn(s0, c)
    ensures CurrencySum(SplitPostings(cfg, Proportional(key, total, n, None), p0, s0, ps).value, c) == KeptSum(key, p0, s0, ps, c)
  {
    ProportionalSplitSum(cfg, key, total, n, None, p0, s0, ps, c);
    assert Times(1, UnitsIn(s0, c)) == Times(0, UnitsIn(s0, c)) + UnitsIn(s0, c);
  }

  /** Equal mode never fails once its unit is known. */
  lemma {:induction false} EqualNeverFails(cfg: PostSplitterConfig, unit: Amount, p0: Posting, s0: Posting, ps: seq<Posting>)
    ensures SplitPostings(cfg, Equal(unit), p0, s0, ps).Ok?
  {
    if |ps| > 0 {
      EqualNeverFails(cfg, unit, p0, s0, ps[..|ps| - 1]);
    }
  }

  // The loops the source runs.

  /** `EqualSplitter.__init__`'s loop and division. */
  method ConstructEqual(cfg: PostSplitterConfig, ps: seq<Posting>, p0: Posting) returns (r: Result<Amount>)
    ensures r == EqualUnit(cfg, ps, p0)
  {
    var divider: nat := 0;
    var number := p0.units.number;
    var i := 0;
    while i < |ps|
      invariant 0 <= i <= |ps|
      invariant number == p0.units.number + EqualSum(ps[..i], p0) && divider == EqualCount(ps[..i], p0)
    {
      assert ps[..i + 1][..i] == ps[..i] && ps[..i + 1][i] == ps[i];
      var q := ps[i];
      if q != p0 {
        if !EqualNeeded(q) {
          number := number + q.units.number;
        } else {
          divider := divider + 1;
        }
      }
      i := i + 1;
    }
    assert ps[..i] == ps;
    if divider == 0 {
      return Err("division by zero");
    }
    number := Rounding.Round(cfg.roundings, number / divider as real, p0.units.currency);
    r := Ok(Amount(-number, p0.units.currency));
  }

  /** `ProportionSplitter.__init__`'s `max_number` loop. */
  method MaxNumber(key: string, ps: seq<Posting>, p0: Posting, p1: Posting) returns (r: Result<real>)
    ensures r == RatioSum(key, ps, p0, p1)
  {
    var total := 0.0;
    var i := 0;
    while i < |ps|
      invariant 0 <= i <= |ps|
      invariant RatioSum(key, ps[..i], p0, p1) == Ok(total)
    {
      assert ps[..i + 1][..i] == ps[..i] && ps[..i + 1][i] == ps[i];
      var q := RatioView(ps[i], p0, p1);
      if key in q.meta {
        if !q.meta[key].AmountValue? {
          RatioSumPrefixErr(key, ps, p0, p1, i + 1);
          return Err("split ratio is not an amount");
        }
        total := total + q.meta[key].amount.number;
      }
      i := i + 1;
    }
    assert ps[..i] == ps;
    r := Ok(total);
  }

  lemma {:induction false} RatioSumPrefixErr(key: string, ps: seq<Posting>, p0: Posting, p1: Posting, k: nat)
    requires k <= |ps| && RatioSum(key, ps[..k], p0, p1).Err?
    ensures RatioSum(key, ps, p0, p1) == Err(RatioSum(key, ps[..k], p0, p1).error)
    decreases |ps| - k
  {
    if k < |ps| {
      assert ps[..k + 1][..k] == ps[..k];
      RatioSumPrefixErr(key, ps, p0, p1, k + 1);
    } else {
      assert ps[..k] == ps;
    }
  }

  /** `SplitterBase.split`'s loop over the postings. */
  method SplitLoop(cfg: PostSplitterConfig, mode: Mode, p0: Posting, s0: Posting, ps: seq<Posting>) returns (r: Result<seq<Posting>>)
    ensures r == SplitPostings(cfg, mode, p0, s0, ps)
  {
    var out := [];
    var i := 0;
    while i < |ps|
      invariant 0 <= i <= |ps|
      invariant SplitPostings(cfg, mode, p0, s0, ps[..i]) == Ok(out)
    {
      assert ps[..i + 1][..i] == ps[..i] && ps[..i + 1][i] == ps[i];
      var q := if ps[i] == p0 then s0 else ps[i];
      if q == s0 || !Needed(mode, q) {
        out := out + [q];
      } else {
        var unit := NewUnit(cfg, mode, q);
        if unit.Err? {
          SplitPostingsPrefixErr(cfg, mode, p0, s0, ps, i + 1);
          return Err(unit.error);
        }
        out := out + [Posting(q.account, unit.value, CostOf(mode), None, None, q.meta)];
      }
      i := i + 1;
    }
    assert ps[..i] == ps;
    r := Ok(out);
  }

  lemma {:induction false} SplitPostingsPrefixErr(cfg: PostSplitterConfig, mode: Mode, p0: Posting, s0: Posting, ps: seq<Posting>, k: nat)
    requires k <= |ps| && SplitPostings(cfg, mode, p0, s0, ps[..k]).Err?
    ensures SplitPostings(cfg, mode, p0, s0, ps) == Err(SplitPostings(cfg, mode, p0, s0, ps[..k]).error)
    decreases |ps| - k
  {
    if k < |ps| {
      assert ps[..k + 1][..k] == ps[..k];
      SplitPostingsPrefixErr(cfg, mode, p0, s0, ps, k + 1);
    } else {
      assert ps[..k] == ps;
    }
  }

  /** `get_splitter(entry, posting).split()` */
  method SplitTransaction(cfg: PostSplitterConfig, t: Transaction) returns (r: Result<Transaction>)
    ensures r == SplitEntry(cfg, t)
  {
    var flagged := Flagged(cfg, t.postings);
    if |flagged| != 1 {
      return Ok(t);
    }
    var p0 := flagged[0];
    var kind := p0.meta[cfg.metadataNameType];
    if kind == EqualKind {
      var unit := ConstructEqual(cfg, t.postings, p0);
      if unit.Err? {
        return Err(unit.error);
      }
      var s0 := p0.(meta := p0.meta - {cfg.metadataNameType});
      var ps := SplitLoop(cfg, Equal(unit.value), p0, s0, t.postings);
      if ps.Err? {
        return Err(ps.error);
      }
      r := Ok(t.(postings := ps.value));
    } else if kind == ProportionalKind && cfg.metadataNameSplitRatio.Some? {
      var split := NumberToSplit(cfg, t, p0);
      if split.Err? {
        return Err(split.error);
      }
      var (n, cost, p1) := split.value;
      var key := cfg.metadataNameSplitRatio.value;
      var total := MaxNumber(key, t.postings, p0, p1);
      if total.Err? {
        return Err(total.error);
      }
      var s0 := p1.(meta := p1.meta - {cfg.metadataNameType});
      var ps := SplitLoop(cfg, Proportional(key, total.value, n, cost), p0, s0, t.postings);
      if ps.Err? {
        return Err(ps.error);
      }
      r := Ok(t.(postings := ps.value));
    } else {
      r := Ok(t);
    }
  }

  /** `post_splitter` after the configuration is parsed: the entries and no errors. */
  function Run(cfg: PostSplitterConfig, entries: seq<Entry>): Result<(seq<Entry>, seq<string>)> {
    var out :- SplitEntries(cfg, entries);
    Ok((out, []))
  }

  /** `PostSplitter.split` */
  method Split(cfg: PostSplitterConfig, entries: seq<Entry>) returns (r: Result<(seq<Entry>, seq<string>)>)
    ensures r == Run(cfg, entries)
  {
    var out := [];
    var i := 0;
    while i < |entries|
      invariant 0 <= i <= |entries|
      invariant SplitEntries(cfg, entries[..i]) == Ok(out)
    {
      assert entries[..i + 1][..i] == entries[..i] && entries[..i + 1][i] == entries[i];
      if entries[i].TxnEntry? {
        var t := SplitTransaction(cfg, entries[i].txn);
        if t.Err? {
          SplitEntriesPrefixErr(cfg, entries, i + 1);
          return Err(t.error);
        }
        out := out + [TxnEntry(t.value)];
      } else {
        out := out + [entries[i]];
      }
      i := i + 1;
    }
    assert entries[..i] == entries;
    r := Ok((out, []));
  }

  lemma {:induction false} SplitEntriesPrefixErr(cfg: PostSplitterConfig, entries: seq<Entry>, k: nat)
    requires k <= |entries| && SplitEntries(cfg, entries[..k]).Err?
    ensures SplitEntries(cfg, entries) == Err(SplitEntries(cfg, entries[..k]).error)
    decreases |entries| - k
  {
    if k < |entries| {
      assert entries[..k + 1][..k] == entries[..k];
      SplitEntriesPrefixErr(cfg, entries, k + 1);
    } else {
      assert entries[..k] == entries;
    }
  }
}
