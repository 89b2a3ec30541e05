/** The spreading consolidator as the older factory wires it
    (posting_consolidators/spreading/posting_wrapper_factory.py plugged into
    posting_consolidators/posting_wrapper_factory_base.py, run by
    posting_consolidators/posting_consolidator_something_base.py): sources hand their
    amount out to the simple `Expenses:` postings, which come back followed by one
    sub-account posting per source postfix. */
module Spreader {
  import opened Results
  import opened Ledger
  import Dicts
  import Rounding
  import Naming
  import Classification
  import Distribution
  import Consolidation
  import Spreading

  // ---------------------------------------------------------------------------
  // The spreading factory's constructors

  /** A spreading source: the older source wrapper plus the postfix its shares are
      booked under. */
  datatype SpreadSource = SpreadSource(source: Distribution.OldSource, postfix: string)

  /** `_create_source_posting_wrapper`: the ids are parsed from the id text, the
      postfix is the source account's last part and the amount to hand out is the
      source's own units number. */
  function CreateSourceWrapper(req: Classification.SourceRequest): (r: Result<SpreadSource>)
    ensures r.Ok? <==> Classification.ParseIds(req.idsText).Ok?
    ensures r.Ok? ==>
      r.value.source.ids == Classification.ParseIds(req.idsText).value
      && r.value.source.posting == req.posting
      && r.value.source.distributionType == req.distributionType
      && r.value.source.maxNumber == req.posting.units.number
      && ':' !in r.value.postfix
      && |r.value.postfix| <= |req.posting.account|
      && req.posting.account[|req.posting.account| - |r.value.postfix|..] == r.value.postfix
  {
    var ids :- Classification.ParseIds(req.idsText);
    Naming.ReuseLastPartIsLeaf(true, req.posting, req.posting);
    Ok(SpreadSource(Distribution.OldSource(req.posting, req.distributionType, ids, req.posting.units.number),
                    Naming.LastPart(req.posting.account)))
  }

  /** The part of `_create_target_posting_wrapper` that runs before it fails: the
      target-id key is popped from the metadata and the ids are parsed. The constructor
      it then calls does not accept its arguments, so no target wrapper ever results. */
  function PrepareTarget(req: Classification.TargetRequest, targetIdName: string): (r: Result<Distribution.OldTarget>)
    ensures r.Ok? <==> targetIdName in req.posting.meta && Classification.ParseIds(req.idsText).Ok?
    ensures r.Ok? ==>
      targetIdName !in r.value.posting.meta
      && (forall k :: k in req.posting.meta && k != targetIdName ==>
            k in r.value.posting.meta && r.value.posting.meta[k] == req.posting.meta[k])
      && r.value.posting == req.posting.(meta := r.value.posting.meta)
  {
    if targetIdName !in req.posting.meta then Err("KeyError: target id")
    else
      var popped := req.posting.(meta := req.posting.meta - {targetIdName});
      var ids :- Classification.ParseIds(req.idsText);
      Ok(Distribution.OldTarget(popped, ids))
  }

  const TargetUnsupported := "TypeError: TargetPostingWrapper cannot be instantiated"

  // ---------------------------------------------------------------------------
  // wrap_postings with the spreading constructors

  datatype Buckets = Buckets(sources: seq<SpreadSource>, simples: seq<Posting>, irrelevant: seq<Posting>)

  /** One pass over the postings: each posting is classified and its wrapper built at
      once, so the first posting whose wrapper cannot be built decides the failure. */
  function WrapSpread(cfg: Classification.OldFactoryConfig, ps: seq<Posting>): Result<Buckets> {
    if |ps| == 0 then Ok(Buckets([], [], []))
    else
      var b :- WrapSpread(cfg, ps[..|ps| - 1]);
      WrapOne(cfg, b, ps[|ps| - 1])
  }

  /** One posting into the buckets: a source's wrapper is built, a target fails after
      its ids are read, and the other postings are kept as they are. */
  function WrapOne(cfg: Classification.OldFactoryConfig, b: Buckets, q: Posting): Result<Buckets> {
    match Classification.ClassifyOld(cfg, q)
    case SourceOf(s) =>
      var w :- CreateSourceWrapper(s);
      Ok(b.(sources := b.sources + [w]))
    case TargetOf(t) =>
      var _ :- PrepareTarget(t, cfg.targetIdName);
      Err(TargetUnsupported)
    case SimpleOf(p) => Ok(b.(simples := b.simples + [p]))
    case IrrelevantOf(p) => Ok(b.(irrelevant := b.irrelevant + [p]))
  }

  lemma WrapSpreadStep(cfg: Classification.OldFactoryConfig, ps: seq<Posting>, i: nat, b: Buckets)
    requires i < |ps| && WrapSpread(cfg, ps[..i]) == Ok(b)
    ensures WrapSpread(cfg, ps[..i + 1]) == WrapOne(cfg, b, ps[i])
  {
    assert ps[..i + 1][..i] == ps[..i] && ps[..i + 1][i] == ps[i];
  }

  /** The spreading factory succeeds exactly when no posting is a target and every
      source's ids parse; then its buckets are the classification's, sources built by
      `CreateSourceWrapper`. */
  lemma {:induction false} WrapSpreadMeaning(cfg: Classification.OldFactoryConfig, ps: seq<Posting>)
    ensures var b := Classification.WrapOld(cfg, ps);
      WrapSpread(cfg, ps).Ok? <==>
        b.targets == [] && forall k :: 0 <= k < |b.sources| ==> CreateSourceWrapper(b.sources[k]).Ok?
    ensures var b := Classification.WrapOld(cfg, ps);
      WrapSpread(cfg, ps).Ok? ==>
        var w := WrapSpread(cfg, ps).value;
        w.simples == b.simples && w.irrelevant == b.irrelevant && |w.sources| == |b.sources|
        && forall k :: 0 <= k < |b.sources| ==> CreateSourceWrapper(b.sources[k]) == Ok(w.sources[k])
  {
    if |ps| > 0 {
      var init := ps[..|ps| - 1];
      WrapSpreadMeaning(cfg, init);
      var b0 := Classification.WrapOld(cfg, init);
      var b := Classification.WrapOld(cfg, ps);
      var c := Classification.ClassifyOld(cfg, ps[|ps| - 1]);
      assert b == Classification.PlaceOld(b0, c);
      match c
      case SourceOf(s) =>
        assert b.sources == b0.sources + [s];
        if WrapSpread(cfg, init).Ok? && CreateSourceWrapper(s).Ok? {
          assert WrapSpread(cfg, ps) == Ok(WrapSpread(cfg, init).value.(sources := WrapSpread(cfg, init).value.sources + [CreateSourceWrapper(s).value]));
        }
        if b.targets == [] && forall k :: 0 <= k < |b.sources| ==> CreateSourceWrapper(b.sources[k]).Ok? {
          assert forall k :: 0 <= k < |b0.sources| ==> b0.sources[k] == b.sources[k];
          assert b.sources[|b0.sources|] == s;
        }
      case TargetOf(t) =>
        assert b.targets != [];
      case SimpleOf(p) =>
      case IrrelevantOf(p) =>
    }
  }

  // ---------------------------------------------------------------------------
  // The shares each simple posting collects

  /** Every simple wrapper starts with no totals. */
  function Start(n: nat): (r: seq<Spreading.Totals>)
    ensures |r| == n && forall j :: 0 <= j < n ==> r[j] == Dicts.Empty()
  {
    seq(n, j => Dicts.Empty())
  }

  predicate ToSimples(calls: seq<Distribution.Call>, n: nat) {
    forall k :: 0 <= k < |calls| ==> calls[k].to.SimpleRef? && calls[k].to.index < n
  }

  /** `add_posting(postfix, number)` on the simple wrapper each call names, in order. */
  function ApplyCalls(totals: seq<Spreading.Totals>, postfix: string, calls: seq<Distribution.Call>): (r: seq<Spreading.Totals>)
    requires ToSimples(calls, |totals|)
    ensures |r| == |totals|
    ensures (forall j :: 0 <= j < |totals| ==> totals[j].Valid()) ==> forall j :: 0 <= j < |r| ==> r[j].Valid()
  {
    if |calls| == 0 then totals
    else
      var n := |calls| - 1;
      var t := ApplyCalls(totals, postfix, calls[..n]);
      var j := calls[n].to.index;
      t[j := Spreading.Accumulate(t[j], postfix, calls[n].number)]
  }

  /** Without targets, a source can only reach simple postings. */
  lemma CallsToSimples(src: Distribution.OldSource, roundings: Option<map<string, int>>, simples: seq<Posting>)
    requires Distribution.DistributeOld(src, roundings, [], simples).Ok?
    ensures ToSimples(Distribution.DistributeOld(src, roundings, [], simples).value, |simples|)
  {
    Distribution.DistributeOldMeaning(src, roundings, [], simples);
  }

  /** The totals after every source, in order, has handed out its shares. */
  function SpreadTotals(sources: seq<SpreadSource>, simples: seq<Posting>, roundings: Option<map<string, int>>)
    : (r: Result<seq<Spreading.Totals>>)
    ensures r.Ok? ==> |r.value| == |simples| && forall j :: 0 <= j < |simples| ==> r.value[j].Valid()
  {
    if |sources| == 0 then Ok(Start(|simples|))
    else
      var n := |sources| - 1;
      var t :- SpreadTotals(sources[..n], simples, roundings);
      var calls :- Distribution.DistributeOld(sources[n].source, roundings, [], simples);
      CallsToSimples(sources[n].source, roundings, simples);
      Ok(ApplyCalls(t, sources[n].postfix, calls))
  }

  /** Each simple posting's rebuilt postings, in the order of the simple postings. */
  function Expand(simples: seq<Posting>, totals: seq<Spreading.Totals>): seq<Posting>
    requires |simples| == |totals| && forall j :: 0 <= j < |totals| ==> totals[j].Valid()
  {
    if |simples| == 0 then []
    else
      var n := |simples| - 1;
      Expand(simples[..n], totals[..n]) + Spreading.SpreadOutputs(simples[n], totals[n], true)
  }

  datatype SpreaderConfig = SpreaderConfig(
    factory: Option<Classification.OldFactoryConfig>,
    roundings: Option<map<string, int>>,
    accountPostfix: string)

  /** `execute`: the irrelevant postings, then every simple posting's rebuilt postings;
      the sources themselves are dropped and the rest of the transaction is kept. */
  function Spread(cfg: SpreaderConfig, e: Transaction): Result<Transaction> {
    if cfg.factory.None? then Err("TypeError: no posting wrapper factory")
    else
      var b :- WrapSpread(cfg.factory.value, e.postings);
      var totals :- SpreadTotals(b.sources, b.simples, cfg.roundings);
      Ok(e.(postings := b.irrelevant + Expand(b.simples, totals)))
  }

  // ---------------------------------------------------------------------------
  // What the totals add up to

  /** The grand total of every simple wrapper's totals. */
  function AllTotals(totals: seq<Spreading.Totals>): real
    requires forall j :: 0 <= j < |totals| ==> totals[j].Valid()
  {
    if |totals| == 0 then 0.0
    else
      var n := |totals| - 1;
      assert totals[n].Valid();
      AllTotals(totals[..n]) + Spreading.KeysTotal(totals[n].keys, totals[n].values)
  }

  /** The rounded amounts the sources hand out, together. */
  function HandedOut(sources: seq<SpreadSource>, simples: seq<Posting>, roundings: Option<map<string, int>>): real {
    if |sources| == 0 then 0.0
    else
      var n := |sources| - 1;
      var calls := Distribution.DistributeOld(sources[n].source, roundings, [], simples);
      HandedOut(sources[..n], simples, roundings) + (if calls.Ok? then Distribution.CallSum(calls.value) else 0.0)
  }

  /** Nothing is lost or made up on the way into the simple wrappers: the totals add
      up to exactly what the sources handed out after rounding. */
  lemma {:induction false} SpreadTotalsConserve(sources: seq<SpreadSource>, simples: seq<Posting>, roundings: Option<map<string, int>>)
    requires SpreadTotals(sources, simples, roundings).Ok?
    ensures AllTotals(SpreadTotals(sources, simples, roundings).value) == HandedOut(sources, simples, roundings)
  {
    if |sources| == 0 {
      StartTotal(|simples|);
    } else {
      var n := |sources| - 1;
      SpreadTotalsConserve(sources[..n], simples, roundings);
      var t := SpreadTotals(sources[..n], simples, roundings).value;
      var calls := Distribution.DistributeOld(sources[n].source, roundings, [], simples).value;
      CallsToSimples(sources[n].source, roundings, simples);
      ApplyCallsTotal(t, sources[n].postfix, calls);
    }
  }

  lemma {:induction false} StartTotal(n: nat)
    ensures AllTotals(Start(n)) == 0.0
  {
    if n > 0 {
      StartTotal(n - 1);
      assert Start(n)[..n - 1] == Start(n - 1);
    }
  }

  lemma {:induction false} ApplyCallsTotal(totals: seq<Spreading.Totals>, postfix: string, calls: seq<Distribution.Call>)
    requires ToSimples(calls, |totals|) && forall j :: 0 <= j < |totals| ==> totals[j].Valid()
    ensures AllTotals(ApplyCalls(totals, postfix, calls)) == AllTotals(totals) + Distribution.CallSum(calls)
  {
    if |calls| > 0 {
      var n := |calls| - 1;
      assert ToSimples(calls[..n], |totals|);
      ApplyCallsTotal(totals, postfix, calls[..n]);
      var t := ApplyCalls(totals, postfix, calls[..n]);
      var j := calls[n].to.index;
      var d := Spreading.Accumulate(t[j], postfix, calls[n].number);
      AccumulateTotal(t[j], postfix, calls[n].number);
      AllTotalsUpdate(t, j, d);
    }
  }

  /** One add raises a wrapper's grand total by the number added. */
  lemma AccumulateTotal(d: Spreading.Totals, key: string, x: real)
    requires d.Valid()
    ensures var r := Spreading.Accumulate(d, key, x);
      Spreading.KeysTotal(r.keys, r.values) == Spreading.KeysTotal(d.keys, d.values) + x
  {
    if key in d.values {
      KeysTotalUpdate(d.keys, d.values, key, d.values[key] + x);
    } else {
      KeysTotalSame(d.keys, d.values, d.values[key := x]);
      var keys := d.keys + [key];
      assert keys[..|keys| - 1] == d.keys;
    }
  }

  lemma {:induction false} KeysTotalUpdate(keys: seq<string>, values: map<string, real>, key: string, v: real)
    requires forall k :: k in keys ==> k in values
    requires forall i, j :: 0 <= i < j < |keys| ==> keys[i] != keys[j]
    requires key in keys
    ensures Spreading.KeysTotal(keys, values[key := v]) == Spreading.KeysTotal(keys, values) - values[key] + v
  {
    var n := |keys| - 1;
    if keys[n] == key {
      assert forall i :: 0 <= i < n ==> keys[..n][i] != key;
      KeysTotalSame(keys[..n], values, values[key := v]);
    } else {
      KeysTotalUpdate(keys[..n], values, key, v);
    }
  }

  lemma {:induction false} KeysTotalSame(keys: seq<string>, a: map<string, real>, b: map<string, real>)
    requires forall k :: k in keys ==> k in a && k in b && a[k] == b[k]
    ensures Spreading.KeysTotal(keys, a) == Spreading.KeysTotal(keys, b)
  {
    if |keys| > 0 {
      KeysTotalSame(keys[..|keys| - 1], a, b);
    }
  }

  lemma {:induction false} AllTotalsUpdate(t: seq<Spreading.Totals>, j: nat, d: Spreading.Totals)
    requires j < |t| && d.Valid() && forall i :: 0 <= i < |t| ==> t[i].Valid()
    ensures AllTotals(t[j := d]) == AllTotals(t) - Spreading.KeysTotal(t[j].keys, t[j].values) + Spreading.KeysTotal(d.keys, d.values)
  {
    var n := |t| - 1;
    if j == n {
      assert t[j := d][..n] == t[..n];
    } else {
      AllTotalsUpdate(t[..n], j, d);
      assert t[j := d][..n] == t[..n][j := d];
    }
  }

  lemma {:induction false} WrapSpreadPrefixErr(cfg: Classification.OldFactoryConfig, ps: seq<Posting>, k: nat, e: string)
    requires k <= |ps| && WrapSpread(cfg, ps[..k]) == Err(e)
    ensures WrapSpread(cfg, ps) == Err(e)
    decreases |ps| - k
  {
    if k < |ps| {
      assert ps[..k + 1][..k] == ps[..k];
      WrapSpreadPrefixErr(cfg, ps, k + 1, e);
    } else {
      assert ps[..k] == ps;
    }
  }

  lemma {:induction false} SpreadTotalsPrefixErr(sources: seq<SpreadSource>, simples: seq<Posting>,
                                                 roundings: Option<map<string, int>>, k: nat, e: string)
    requires k <= |sources| && SpreadTotals(sources[..k], simples, roundings) == Err(e)
    ensures SpreadTotals(sources, simples, roundings) == Err(e)
    decreases |sources| - k
  {
    if k < |sources| {
      assert sources[..k + 1][..k] == sources[..k];
      SpreadTotalsPrefixErr(sources, simples, roundings, k + 1, e);
    } else {
      assert sources[..k] == sources;
    }
  }

  // ---------------------------------------------------------------------------
  // The consolidator run on one transaction

  /** `wrap_postings` with the spreading constructors: the buckets, and one fresh,
      empty simple wrapper per simple posting. */
  method WrapPostingsSpread(manager: Consolidation.AccountConsolidationDataManager, fc: Classification.OldFactoryConfig,
                            accountPostfix: string, ps: seq<Posting>)
    returns (r: Result<Buckets>, simples: seq<Spreading.SimplePostingWrapper>)
    ensures r == WrapSpread(fc, ps)
    ensures r.Ok? ==> |simples| == |r.value.simples|
    ensures r.Ok? ==> forall j :: 0 <= j < |simples| ==>
      fresh(simples[j]) && simples[j].posting == r.value.simples[j] && simples[j].manager == manager
      && simples[j].accountPostfix == accountPostfix
      && simples[j].numbers == Dicts.Empty() && simples[j].consolidation == null
    ensures forall a, b :: 0 <= a < b < |simples| ==> simples[a] != simples[b]
  {
    var sources: seq<SpreadSource> := [];
    var simplePostings: seq<Posting> := [];
    var irrelevant: seq<Posting> := [];
    simples := [];
    var i := 0;
    while i < |ps|
      invariant 0 <= i <= |ps|
      invariant WrapSpread(fc, ps[..i]) == Ok(Buckets(sources, simplePostings, irrelevant))
      invariant |simples| == |simplePostings|
      invariant forall j :: 0 <= j < |simples| ==>
        fresh(simples[j]) && simples[j].posting == simplePostings[j] && simples[j].manager == manager
        && simples[j].accountPostfix == accountPostfix
        && simples[j].numbers == Dicts.Empty() && simples[j].consolidation == null
      invariant forall a, b :: 0 <= a < b < |simples| ==> simples[a] != simples[b]
    {
      var p := ps[i];
      WrapSpreadStep(fc, ps, i, Buckets(sources, simplePostings, irrelevant));
      var c := Classification.ClassifyOld(fc, p);
      match c {
        case SourceOf(req) =>
          var w := CreateSourceWrapper(req);
          if w.Err? {
            WrapSpreadPrefixErr(fc, ps, i + 1, w.error);
            return Err(w.error), simples;
          }
          sources := sources + [w.value];
        case TargetOf(req) =>
          var t := PrepareTarget(req, fc.targetIdName);
          if t.Err? {
            WrapSpreadPrefixErr(fc, ps, i + 1, t.error);
            return Err(t.error), simples;
          }
          WrapSpreadPrefixErr(fc, ps, i + 1, TargetUnsupported);
          return Err(TargetUnsupported), simples;
        case SimpleOf(q) =>
          var w := new Spreading.SimplePostingWrapper(manager, accountPostfix, q);
          simples := simples + [w];
          simplePostings := simplePostings + [q];
        case IrrelevantOf(q) =>
          irrelevant := irrelevant + [q];
      }
      i := i + 1;
    }
    assert ps[..i] == ps;
    r := Ok(Buckets(sources, simplePostings, irrelevant));
  }

  /** The wrappers hold the given totals, are valid, and any record they hold was
      registered after `fresh` was taken. */
  ghost predicate Holding(simples: seq<Spreading.SimplePostingWrapper>, manager: Consolidation.AccountConsolidationDataManager,
                          simplePostings: seq<Posting>, totals: seq<Spreading.Totals>)
    reads simples
  {
    |simples| == |simplePostings| == |totals|
    && (forall j :: 0 <= j < |simples| ==>
          simples[j].posting == simplePostings[j] && simples[j].manager == manager
          && simples[j].numbers == totals[j] && simples[j].Valid())
    && (forall a, b :: 0 <= a < b < |simples| ==> simples[a] != simples[b])
  }

  /** The target accounts the run registered: the sub-account, split off with
      `accountPostfix`, of every simple posting with a total. */
  ghost function Targets(simplePostings: seq<Posting>, totals: seq<Spreading.Totals>, accountPostfix: string): set<Account> {
    set j | 0 <= j < |simplePostings| && j < |totals| && totals[j].keys != [] :: SubAccount(simplePostings[j].account, accountPostfix)
  }

  /** One more share for simple posting `i` registers its sub-account, if it was not yet. */
  lemma TargetsStep(simplePostings: seq<Posting>, totals: seq<Spreading.Totals>, accountPostfix: string,
                    i: nat, key: string, n: real)
    requires i < |simplePostings| == |totals| && totals[i].Valid()
    ensures Targets(simplePostings, totals[i := Spreading.Accumulate(totals[i], key, n)], accountPostfix)
            == Targets(simplePostings, totals, accountPostfix) + {SubAccount(simplePostings[i].account, accountPostfix)}
  {
    var totals' := totals[i := Spreading.Accumulate(totals[i], key, n)];
    var target := SubAccount(simplePostings[i].account, accountPostfix);
    assert totals'[i].keys != [];
    assert target in Targets(simplePostings, totals', accountPostfix);
    forall t | t in Targets(simplePostings, totals, accountPostfix)
      ensures t in Targets(simplePostings, totals', accountPostfix)
    {
      var j :| 0 <= j < |simplePostings| && j < |totals| && totals[j].keys != []
        && t == SubAccount(simplePostings[j].account, accountPostfix);
      assert totals'[j].keys != [];
    }
    forall t | t in Targets(simplePostings, totals', accountPostfix) && t != target
      ensures t in Targets(simplePostings, totals, accountPostfix)
    {
      var j :| 0 <= j < |simplePostings| && j < |totals'| && totals'[j].keys != []
        && t == SubAccount(simplePostings[j].account, accountPostfix);
      assert j != i && totals[j] == totals'[j];
    }
  }

  /** The record each simple wrapper holds, if any. */
  ghost function Held(simples: seq<Spreading.SimplePostingWrapper>): (r: seq<Consolidation.AccountConsolidationData?>)
    reads simples
    ensures |r| == |simples| && forall j :: 0 <= j < |simples| ==> r[j] == simples[j].consolidation
  {
    seq(|simples|, j requires 0 <= j < |simples| reads simples => simples[j].consolidation)
  }

  /** With `held` the record each simple wrapper holds: a wrapper holds a record exactly
      when it has a total, made in this run (none of `records0`) and shared with no other
      wrapper. */
  ghost predicate HeldApart(held: seq<Consolidation.AccountConsolidationData?>, totals: seq<Spreading.Totals>,
                            records0: map<Account, Consolidation.AccountConsolidationData>)
  {
    |held| == |totals|
    && (forall j :: 0 <= j < |held| && held[j] != null ==> totals[j].keys != [])
    && (forall j :: 0 <= j < |held| && held[j] != null ==> held[j] !in records0.Values)
    && (forall a, b :: 0 <= a < b < |held| && held[a] != null ==> held[a] != held[b])
  }

  /** The registry `d` against the one the run started from (`keys0`, `records0`), when
      the run registered `targets`: the start's target accounts come first and keep their
      order; the registry holds the start's target accounts and `targets`; one not in
      `targets` keeps its old record, and one in `targets` holds the record of a wrapper
      on that account. */
  ghost predicate Stored(d: Dicts.Dict<Account, Consolidation.AccountConsolidationData>,
                         held: seq<Consolidation.AccountConsolidationData?>, simplePostings: seq<Posting>,
                         targets: set<Account>, accountPostfix: string,
                         keys0: seq<Account>, records0: map<Account, Consolidation.AccountConsolidationData>)
  {
    |held| == |simplePostings|
    && keys0 <= d.keys
    && (forall t :: t in d.values <==> t in records0 || t in targets)
    && (forall t :: t in d.values && t !in targets ==> d.values[t] == records0[t])
    && (forall t :: t in d.values && t in targets ==>
          exists j :: 0 <= j < |held| && held[j] != null
            && t == SubAccount(simplePostings[j].account, accountPostfix) && d.values[t] == held[j])
  }

  /** The registry `d` during a run, with `held` the wrappers' records: the records are
      apart, and the registry stores what the run registered. */
  ghost predicate Tracking(d: Dicts.Dict<Account, Consolidation.AccountConsolidationData>,
                           held: seq<Consolidation.AccountConsolidationData?>,
                           simplePostings: seq<Posting>, totals: seq<Spreading.Totals>, accountPostfix: string,
                           keys0: seq<Account>, records0: map<Account, Consolidation.AccountConsolidationData>)
  {
    HeldApart(held, totals, records0)
    && Stored(d, held, simplePostings, Targets(simplePostings, totals, accountPostfix), accountPostfix, keys0, records0)
  }

  /** The registry during a run, against the one it started from: every simple wrapper
      splits off `accountPostfix`, the manager's registry and the wrappers' records are
      `Tracking` what the run registered, and a record a wrapper holds names its account
      and sub-account and has no additional accounts yet. */
  ghost predicate Registry(manager: Consolidation.AccountConsolidationDataManager, simples: seq<Spreading.SimplePostingWrapper>,
                           simplePostings: seq<Posting>, totals: seq<Spreading.Totals>, accountPostfix: string,
                           keys0: seq<Account>, records0: map<Account, Consolidation.AccountConsolidationData>)
    reads manager, simples, set j | 0 <= j < |simples| :: simples[j].consolidation
  {
    |simples| == |simplePostings|
    && (forall j :: 0 <= j < |simples| ==> simples[j].accountPostfix == accountPostfix)
    && Tracking(manager.consolidators, Held(simples), simplePostings, totals, accountPostfix, keys0, records0)
    && (forall j :: 0 <= j < |simples| && simples[j].consolidation != null ==>
          simples[j].consolidation.Value()
          == Consolidation.Record(simplePostings[j].account, SubAccount(simplePostings[j].account, accountPostfix), {}))
  }

  /** Freshly built wrappers, none holding a record yet, against the registry as it is. */
  lemma RegistryStart(manager: Consolidation.AccountConsolidationDataManager, simples: seq<Spreading.SimplePostingWrapper>,
                      simplePostings: seq<Posting>, accountPostfix: string)
    requires |simples| == |simplePostings|
    requires forall j :: 0 <= j < |simples| ==> simples[j].accountPostfix == accountPostfix && simples[j].consolidation == null
    ensures Registry(manager, simples, simplePostings, Start(|simplePostings|), accountPostfix,
                     manager.consolidators.keys, manager.consolidators.values)
  {
    assert Targets(simplePostings, Start(|simplePostings|), accountPostfix) == {};
  }

  /** A share under a key simple posting `i` has already seen: nothing the registry
      tracks changes. */
  lemma TrackingOldKey(d: Dicts.Dict<Account, Consolidation.AccountConsolidationData>,
                       held: seq<Consolidation.AccountConsolidationData?>,
                       simplePostings: seq<Posting>, totals: seq<Spreading.Totals>, accountPostfix: string,
                       keys0: seq<Account>, records0: map<Account, Consolidation.AccountConsolidationData>,
                       i: nat, key: string, n: real)
    requires Tracking(d, held, simplePostings, totals, accountPostfix, keys0, records0)
    requires i < |simplePostings| == |totals| && totals[i].Valid() && key in totals[i].values
    ensures Tracking(d, held, simplePostings, totals[i := Spreading.Accumulate(totals[i], key, n)],
                     accountPostfix, keys0, records0)
  {
    TargetsOldKey(simplePostings, totals, accountPostfix, i, key, n);
    HeldOldKey(held, totals, records0, i, key, n);
  }

  /** A share under a key simple posting `i` has not seen: its fresh record `c` is stored under its sub-account and becomes the one it holds. */
  lemma TrackingNewKey(d: Dicts.Dict<Account, Consolidation.AccountConsolidationData>,
                       held: seq<Consolidation.AccountConsolidationData?>,
                       simplePostings: seq<Posting>, totals: seq<Spreading.Totals>, accountPostfix: string,
                       keys0: seq<Account>, records0: map<Account, Consolidation.AccountConsolidationData>,
                       i: nat, key: string, n: real, c: Consolidation.AccountConsolidationData)
    requires Tracking(d, held, simplePostings, totals, accountPostfix, keys0, records0)
    requires i < |simplePostings| == |totals| && totals[i].Valid()
    requires c !in records0.Values && c !in held
    ensures var target := SubAccount(simplePostings[i].account, accountPostfix);
      Tracking(d.Put(target, c), held[i := c], simplePostings, totals[i := Spreading.Accumulate(totals[i], key, n)], accountPostfix, keys0, records0)
  {
    TargetsStep(simplePostings, totals, accountPostfix, i, key, n);
    HeldNewKey(held, totals, records0, i, key, n, c);
    StoredNewKey(d, held, simplePostings, Targets(simplePostings, totals, accountPostfix), accountPostfix, keys0, records0, i, c);
  }

  /** A share under a key simple posting `i` has already seen registers nothing new. */
  lemma TargetsOldKey(simplePostings: seq<Posting>, totals: seq<Spreading.Totals>, accountPostfix: string, i: nat, key: string, n: real)
    requires i < |simplePostings| == |totals| && totals[i].Valid() && key in totals[i].values
    ensures Targets(simplePostings, totals[i := Spreading.Accumulate(totals[i], key, n)], accountPostfix)
            == Targets(simplePostings, totals, accountPostfix)
  {
    assert totals[i].keys != [] by {
      assert key in totals[i].values.Keys;
    }
    TargetsStep(simplePostings, totals, accountPostfix, i, key, n);
  }

  /** A share under a key simple posting `i` has already seen keeps its record. */
  lemma HeldOldKey(held: seq<Consolidation.AccountConsolidationData?>, totals: seq<Spreading.Totals>,
                   records0: map<Account, Consolidation.AccountConsolidationData>, i: nat, key: string, n: real)
    requires HeldApart(held, totals, records0)
    requires i < |totals| && totals[i].Valid() && key in totals[i].values
    ensures HeldApart(held, totals[i := Spreading.Accumulate(totals[i], key, n)], records0)
  {
    assert totals[i].keys != [] by {
      assert key in totals[i].values.Keys;
    }
  }

  /** The fresh record `c` of simple posting `i` keeps the wrappers' records apart. */
  lemma HeldNewKey(held: seq<Consolidation.AccountConsolidationData?>, totals: seq<Spreading.Totals>,
                   records0: map<Account, Consolidation.AccountConsolidationData>,
                   i: nat, key: string, n: real, c: Consolidation.AccountConsolidationData)
    requires HeldApart(held, totals, records0)
    requires i < |totals| && totals[i].Valid()
    requires c !in records0.Values && c !in held
    ensures HeldApart(held[i := c], totals[i := Spreading.Accumulate(totals[i], key, n)], records0)
  {
    var held' := held[i := c];
    forall a, b | 0 <= a < b < |held'| && held'[a] != null
      ensures held'[a] != held'[b]
    {
      if a == i {
        assert held[b] in held;
      } else if b == i {
        assert held[a] in held;
      }
    }
  }

  /** The fresh record `c` of simple posting `i`, stored under its sub-account. */
  lemma StoredNewKey(d: Dicts.Dict<Account, Consolidation.AccountConsolidationData>, held: seq<Consolidation.AccountConsolidationData?>,
                     simplePostings: seq<Posting>, targets: set<Account>, accountPostfix: string,
                     keys0: seq<Account>, records0: map<Account, Consolidation.AccountConsolidationData>,
                     i: nat, c: Consolidation.AccountConsolidationData)
    requires Stored(d, held, simplePostings, targets, accountPostfix, keys0, records0)
    requires i < |held|
    ensures Stored(d.Put(SubAccount(simplePostings[i].account, accountPostfix), c), held[i := c], simplePostings,
                   targets + {SubAccount(simplePostings[i].account, accountPostfix)}, accountPostfix, keys0, records0)
  {
    var target := SubAccount(simplePostings[i].account, accountPostfix);
    var d' := d.Put(target, c);
    var held' := held[i := c];
    forall t | t in d'.values && t in targets + {target}
      ensures exists j :: 0 <= j < |held'| && held'[j] != null
                && t == SubAccount(simplePostings[j].account, accountPostfix) && d'.values[t] == held'[j]
    {
      if t == target {
        assert held'[i] == c;
      } else {
        var j :| 0 <= j < |held| && held[j] != null
          && t == SubAccount(simplePostings[j].account, accountPostfix) && d.values[t] == held[j];
        assert j != i && held'[j] == held[j];
      }
    }
  }

  /** One source's calls, delivered in order: `add_posting(postfix, number)` on the
      simple wrapper each call names. */
  method ApplyShares(manager: Consolidation.AccountConsolidationDataManager, simples: seq<Spreading.SimplePostingWrapper>,
                     ghost simplePostings: seq<Posting>, ghost before: seq<Spreading.Totals>,
                     postfix: string, cs: seq<Distribution.Call>,
                     ghost accountPostfix: string, ghost keys0: seq<Account>, ghost records0: map<Account, Consolidation.AccountConsolidationData>)
    requires manager.Valid() && Holding(simples, manager, simplePostings, before)
    requires Registry(manager, simples, simplePostings, before, accountPostfix, keys0, records0)
    requires ToSimples(cs, |simples|)
    modifies manager, simples
    ensures manager.Valid() && Holding(simples, manager, simplePostings, ApplyCalls(before, postfix, cs))
    ensures Registry(manager, simples, simplePostings, ApplyCalls(before, postfix, cs), accountPostfix, keys0, records0)
    ensures forall j :: 0 <= j < |simples| ==>
      simples[j].consolidation == old(simples[j].consolidation) || fresh(simples[j].consolidation)
  {
    var m := 0;
    while m < |cs|
      invariant 0 <= m <= |cs|
      invariant manager.Valid() && Holding(simples, manager, simplePostings, ApplyCalls(before, postfix, cs[..m]))
      invariant Registry(manager, simples, simplePostings, ApplyCalls(before, postfix, cs[..m]), accountPostfix, keys0, records0)
      invariant forall j :: 0 <= j < |simples| ==>
        simples[j].consolidation == old(simples[j].consolidation) || fresh(simples[j].consolidation)
    {
      ApplyCallsStep(before, postfix, cs, m);
      Deliver(manager, simples, simplePostings, ApplyCalls(before, postfix, cs[..m]), postfix, cs[m], accountPostfix, keys0, records0);
      m := m + 1;
    }
    assert cs[..m] == cs;
  }

  lemma ApplyCallsStep(totals: seq<Spreading.Totals>, postfix: string, cs: seq<Distribution.Call>, m: nat)
    requires m < |cs| && ToSimples(cs, |totals|)
    ensures ToSimples(cs[..m], |totals|) && ToSimples(cs[..m + 1], |totals|)
    ensures var t := ApplyCalls(totals, postfix, cs[..m]);
      ApplyCalls(totals, postfix, cs[..m + 1]) == t[cs[m].to.index := Spreading.Accumulate(t[cs[m].to.index], postfix, cs[m].number)]
  {
    assert cs[..m + 1][..m] == cs[..m];
  }

  /** One call delivered: `add_posting(postfix, number)` on the simple wrapper it names,
      which alone takes the amount. A key the wrapper has not seen registers a fresh
      record under its sub-account. */
  method Deliver(manager: Consolidation.AccountConsolidationDataManager, simples: seq<Spreading.SimplePostingWrapper>,
                 ghost simplePostings: seq<Posting>, ghost totals: seq<Spreading.Totals>, postfix: string, c: Distribution.Call,
                 ghost accountPostfix: string, ghost keys0: seq<Account>, ghost records0: map<Account, Consolidation.AccountConsolidationData>)
    requires manager.Valid() && Holding(simples, manager, simplePostings, totals)
    requires Registry(manager, simples, simplePostings, totals, accountPostfix, keys0, records0)
    requires c.to.SimpleRef? && c.to.index < |simples|
    modifies manager, simples
    ensures manager.Valid()
    ensures Holding(simples, manager, simplePostings,
                    totals[c.to.index := Spreading.Accumulate(totals[c.to.index], postfix, c.number)])
    ensures Registry(manager, simples, simplePostings,
                     totals[c.to.index := Spreading.Accumulate(totals[c.to.index], postfix, c.number)],
                     accountPostfix, keys0, records0)
    ensures postfix !in old(simples[c.to.index].numbers.values) ==>
      manager.consolidators == old(manager.consolidators).Put(
        SubAccount(simplePostings[c.to.index].account, accountPostfix), simples[c.to.index].consolidation)
    ensures postfix in old(simples[c.to.index].numbers.values) ==> manager.consolidators == old(manager.consolidators)
    ensures forall j :: 0 <= j < |simples| ==>
      simples[j].consolidation == old(simples[j].consolidation) || fresh(simples[j].consolidation)
  {
    if postfix in simples[c.to.index].numbers.values {
      DeliverSeen(manager, simples, simplePostings, totals, postfix, c, accountPostfix, keys0, records0);
    } else {
      DeliverNew(manager, simples, simplePostings, totals, postfix, c, accountPostfix, keys0, records0);
    }
  }

  /** `Deliver` under a key the wrapper has already seen. */
  method DeliverSeen(manager: Consolidation.AccountConsolidationDataManager, simples: seq<Spreading.SimplePostingWrapper>,
                     ghost simplePostings: seq<Posting>, ghost totals: seq<Spreading.Totals>, postfix: string, c: Distribution.Call,
                     ghost accountPostfix: string, ghost keys0: seq<Account>, ghost records0: map<Account, Consolidation.AccountConsolidationData>)
    requires manager.Valid() && Holding(simples, manager, simplePostings, totals)
    requires Registry(manager, simples, simplePostings, totals, accountPostfix, keys0, records0)
    requires c.to.SimpleRef? && c.to.index < |simples| && postfix in simples[c.to.index].numbers.values
    modifies manager, simples[c.to.index]
    ensures manager.Valid() && manager.consolidators == old(manager.consolidators)
    ensures Holding(simples, manager, simplePostings,
                    totals[c.to.index := Spreading.Accumulate(totals[c.to.index], postfix, c.number)])
    ensures Registry(manager, simples, simplePostings,
                     totals[c.to.index := Spreading.Accumulate(totals[c.to.index], postfix, c.number)],
                     accountPostfix, keys0, records0)
    ensures forall j :: 0 <= j < |simples| ==> simples[j].consolidation == old(simples[j].consolidation)
  {
    var i := c.to.index;
    ghost var held := Held(simples);
    ghost var totals' := totals[i := Spreading.Accumulate(totals[i], postfix, c.number)];
    ghost var d := manager.consolidators;
    assert Tracking(d, held, simplePostings, totals, accountPostfix, keys0, records0);
    simples[i].AddPosting(postfix, c.number);
    forall j | 0 <= j < |simples|
      ensures simples[j].posting == simplePostings[j] && simples[j].manager == manager
              && simples[j].numbers == totals'[j] && simples[j].Valid()
    {
      if j != i {
        assert simples[j] != simples[i];
      }
    }
    TrackingOldKey(d, held, simplePostings, totals, accountPostfix, keys0, records0, i, postfix, c.number);
    assert Held(simples) == held;
  }

  /** `Deliver` under a key the wrapper has not seen. */
  method DeliverNew(manager: Consolidation.AccountConsolidationDataManager, simples: seq<Spreading.SimplePostingWrapper>,
                    ghost simplePostings: seq<Posting>, ghost totals: seq<Spreading.Totals>, postfix: string, c: Distribution.Call,
                    ghost accountPostfix: string, ghost keys0: seq<Account>, ghost records0: map<Account, Consolidation.AccountConsolidationData>)
    requires manager.Valid() && Holding(simples, manager, simplePostings, totals)
    requires Registry(manager, simples, simplePostings, totals, accountPostfix, keys0, records0)
    requires c.to.SimpleRef? && c.to.index < |simples| && postfix !in simples[c.to.index].numbers.values
    modifies manager, simples[c.to.index]
    ensures manager.Valid()
    ensures Holding(simples, manager, simplePostings,
                    totals[c.to.index := Spreading.Accumulate(totals[c.to.index], postfix, c.number)])
    ensures Registry(manager, simples, simplePostings,
                     totals[c.to.index := Spreading.Accumulate(totals[c.to.index], postfix, c.number)],
                     accountPostfix, keys0, records0)
    ensures manager.consolidators == old(manager.consolidators).Put(
      SubAccount(simplePostings[c.to.index].account, accountPostfix), simples[c.to.index].consolidation)
    ensures fresh(simples[c.to.index].consolidation)
    ensures forall j :: 0 <= j < |simples| && j != c.to.index ==> simples[j].consolidation == old(simples[j].consolidation)
  {
    var i := c.to.index;
    ghost var held := Held(simples);
    ghost var totals' := totals[i := Spreading.Accumulate(totals[i], postfix, c.number)];
    ghost var d := manager.consolidators;
    assert Tracking(d, held, simplePostings, totals, accountPostfix, keys0, records0);
    simples[i].AddPosting(postfix, c.number);
    forall j | 0 <= j < |simples|
      ensures simples[j].posting == simplePostings[j] && simples[j].manager == manager
              && simples[j].numbers == totals'[j] && simples[j].Valid()
    {
      if j != i {
        assert simples[j] != simples[i];
      }
    }
    var made := simples[i].consolidation;
    assert made !in held;
    TrackingNewKey(d, held, simplePostings, totals, accountPostfix, keys0, records0, i, postfix, c.number, made);
    ghost var held' := held[i := made];
    forall j | 0 <= j < |simples|
      ensures simples[j].consolidation == held'[j]
    {
      if j != i {
        assert simples[j] != simples[i];
      }
    }
    assert Held(simples) == held';
    forall j | 0 <= j < |simples| && j != i && held[j] != null
      ensures held[j].Value() == Consolidation.Record(simplePostings[j].account, SubAccount(simplePostings[j].account, accountPostfix), {})
    {
      assert held[j].Value() == old(held[j].Value());
    }
  }

  /** One more source: its calls reach only simple postings and are applied on top. */
  lemma SpreadTotalsStep(sources: seq<SpreadSource>, simples: seq<Posting>, roundings: Option<map<string, int>>,
                         k: nat, totals: seq<Spreading.Totals>, calls: Result<seq<Distribution.Call>>)
    requires k < |sources|
    requires SpreadTotals(sources[..k], simples, roundings) == Ok(totals)
    requires Distribution.DistributeOld(sources[k].source, roundings, [], simples) == calls
    ensures calls.Err? ==> SpreadTotals(sources[..k + 1], simples, roundings) == Err(calls.error)
    ensures calls.Ok? ==> |totals| == |simples| && ToSimples(calls.value, |simples|)
    ensures calls.Ok? ==>
      SpreadTotals(sources[..k + 1], simples, roundings) == Ok(ApplyCalls(totals, sources[k].postfix, calls.value))
  {
    assert sources[..k + 1][..k] == sources[..k];
    if calls.Ok? {
      CallsToSimples(sources[k].source, roundings, simples);
    }
  }

  /** One source computes its calls and, when that succeeds, delivers them: the run
      so far, extended by this source, fails with its error or holds its totals. */
  method ProcessSource(manager: Consolidation.AccountConsolidationDataManager, sources: seq<SpreadSource>, k: nat,
                       simples: seq<Spreading.SimplePostingWrapper>, simplePostings: seq<Posting>,
                       ghost totals: seq<Spreading.Totals>, roundings: Option<map<string, int>>,
                       ghost accountPostfix: string, ghost keys0: seq<Account>, ghost records0: map<Account, Consolidation.AccountConsolidationData>)
    returns (calls: Result<seq<Distribution.Call>>)
    requires k < |sources| && SpreadTotals(sources[..k], simplePostings, roundings) == Ok(totals)
    requires manager.Valid() && Holding(simples, manager, simplePostings, totals)
    requires Registry(manager, simples, simplePostings, totals, accountPostfix, keys0, records0)
    modifies manager, simples
    ensures manager.Valid()
    ensures calls.Err? ==> SpreadTotals(sources[..k + 1], simplePostings, roundings) == Err(calls.error)
    ensures calls.Ok? ==> ToSimples(calls.value, |totals|)
    ensures calls.Ok? ==>
      SpreadTotals(sources[..k + 1], simplePostings, roundings) == Ok(ApplyCalls(totals, sources[k].postfix, calls.value))
    ensures calls.Ok? ==> Holding(simples, manager, simplePostings, ApplyCalls(totals, sources[k].postfix, calls.value))
    ensures calls.Ok? ==>
      Registry(manager, simples, simplePostings, ApplyCalls(totals, sources[k].postfix, calls.value), accountPostfix, keys0, records0)
    ensures forall j :: 0 <= j < |simples| ==>
      simples[j].consolidation == old(simples[j].consolidation) || fresh(simples[j].consolidation)
  {
    var source := sources[k];
    calls := Distribution.ProcessPostingsOld(source.source, roundings, [], simplePostings);
    SpreadTotalsStep(sources, simplePostings, roundings, k, totals, calls);
    if calls.Ok? {
      ApplyShares(manager, simples, simplePostings, totals, source.postfix, calls.value, accountPostfix, keys0, records0);
    }
  }

  /** Every source, in order, computes its calls and delivers them; the first source
      that fails stops the run. */
  method ProcessSources(manager: Consolidation.AccountConsolidationDataManager, sources: seq<SpreadSource>,
                        simples: seq<Spreading.SimplePostingWrapper>, simplePostings: seq<Posting>,
                        roundings: Option<map<string, int>>, ghost accountPostfix: string)
    returns (failure: Option<string>)
    requires manager.Valid() && Holding(simples, manager, simplePostings, Start(|simplePostings|))
    requires Registry(manager, simples, simplePostings, Start(|simplePostings|), accountPostfix,
                      manager.consolidators.keys, manager.consolidators.values)
    modifies manager, simples
    ensures manager.Valid()
    ensures failure.Some? ==> SpreadTotals(sources, simplePostings, roundings) == Err(failure.value)
    ensures failure.None? ==> SpreadTotals(sources, simplePostings, roundings).Ok?
    ensures failure.None? ==>
      Holding(simples, manager, simplePostings, SpreadTotals(sources, simplePostings, roundings).value)
    ensures failure.None? ==>
      Registry(manager, simples, simplePostings, SpreadTotals(sources, simplePostings, roundings).value, accountPostfix,
               old(manager.consolidators.keys), old(manager.consolidators.values))
    ensures forall j :: 0 <= j < |simples| && simples[j].consolidation != null ==> fresh(simples[j].consolidation)
  {
    ghost var totals := Start(|simplePostings|);
    ghost var keys0, records0 := manager.consolidators.keys, manager.consolidators.values;
    var k := 0;
    while k < |sources|
      invariant 0 <= k <= |sources|
      invariant SpreadTotals(sources[..k], simplePostings, roundings) == Ok(totals)
      invariant manager.Valid() && Holding(simples, manager, simplePostings, totals)
      invariant Registry(manager, simples, simplePostings, totals, accountPostfix, keys0, records0)
      invariant forall j :: 0 <= j < |simples| && simples[j].consolidation != null ==> fresh(simples[j].consolidation)
    {
      var calls := ProcessSource(manager, sources, k, simples, simplePostings, totals, roundings,
                                 accountPostfix, keys0, records0);
      if calls.Err? {
        SpreadTotalsPrefixErr(sources, simplePostings, roundings, k + 1, calls.error);
        return Some(calls.error);
      }
      totals := ApplyCalls(totals, sources[k].postfix, calls.value);
      k := k + 1;
    }
    assert sources[..k] == sources;
    failure := None;
  }

  /** `Spread` on a configured factory, read off its three phases. */
  lemma SpreadPhases(cfg: SpreaderConfig, e: Transaction)
    requires cfg.factory.Some?
    ensures WrapSpread(cfg.factory.value, e.postings).Err? ==>
      Spread(cfg, e) == Err(WrapSpread(cfg.factory.value, e.postings).error)
    ensures WrapSpread(cfg.factory.value, e.postings).Ok? ==>
      var b := WrapSpread(cfg.factory.value, e.postings).value;
      var t := SpreadTotals(b.sources, b.simples, cfg.roundings);
      (t.Err? ==> Spread(cfg, e) == Err(t.error))
      && (t.Ok? ==> Spread(cfg, e) == Ok(e.(postings := b.irrelevant + Expand(b.simples, t.value))))
  {
  }

  lemma ExpandStep(simples: seq<Posting>, totals: seq<Spreading.Totals>, j: nat)
    requires j < |simples| == |totals| && forall i :: 0 <= i < |totals| ==> totals[i].Valid()
    ensures Expand(simples[..j + 1], totals[..j + 1]) == Expand(simples[..j], totals[..j]) + Spreading.SpreadOutputs(simples[j], totals[j], true)
  {
    assert simples[..j + 1][..j] == simples[..j];
    assert totals[..j + 1][..j] == totals[..j];
  }

  /** Every record in the registry, as a value. */
  ghost function Snapshot(manager: Consolidation.AccountConsolidationDataManager): map<Account, Consolidation.Record>
    reads manager, manager.consolidators.values.Values
  {
    map t | t in manager.consolidators.values :: manager.consolidators.values[t].Value()
  }

  /** The registry after a run that succeeded, against the one it started from (`keys0`,
      `records0`, and their values `values0`): the start's target accounts come first and
      keep their order; the registry holds exactly the start's target accounts and the
      ones the run registered; a target account the run did not register keeps its
      record, unchanged; and under each target account the run registered sits a record
      for a simple posting on that account, naming the account and the target, whose
      additional accounts are the sub-accounts of all of that posting's keys. */
  ghost predicate Settled(manager: Consolidation.AccountConsolidationDataManager, simplePostings: seq<Posting>,
                          totals: seq<Spreading.Totals>, accountPostfix: string, keys0: seq<Account>,
                          records0: map<Account, Consolidation.AccountConsolidationData>, values0: map<Account, Consolidation.Record>)
    reads manager, manager.consolidators.values.Values
  {
    keys0 <= manager.consolidators.keys
    && (forall t :: t in manager.consolidators.values <==> t in records0 || t in Targets(simplePostings, totals, accountPostfix))
    && (forall t :: t in manager.consolidators.values && t !in Targets(simplePostings, totals, accountPostfix) ==>
          manager.consolidators.values[t] == records0[t] && t in values0 && manager.consolidators.values[t].Value() == values0[t])
    && (forall t :: t in manager.consolidators.values && t in Targets(simplePostings, totals, accountPostfix) ==>
          exists j :: 0 <= j < |simplePostings| && j < |totals| && totals[j].keys != []
            && t == SubAccount(simplePostings[j].account, accountPostfix)
            && manager.consolidators.values[t].Value()
               == Consolidation.Record(simplePostings[j].account, t, Spreading.SubAccounts(simplePostings[j].account, totals[j].keys)))
  }

  /** The record a simple posting's target account holds: before its postings are
      collected (`emitted` false) it names no additional account; after, the
      sub-accounts of all the posting's keys. */
  function Registered(p: Posting, total: Spreading.Totals, accountPostfix: string, emitted: bool): Consolidation.Record
  {
    Consolidation.Record(p.account, SubAccount(p.account, accountPostfix),
                         if emitted then Spreading.SubAccounts(p.account, total.keys) else {})
  }

  /** `get_postings` on simple wrapper `j`: its record, if any, gains the sub-accounts of
      all its keys, and no other wrapper's record and none of `records0` changes. */
  method EmitOne(manager: Consolidation.AccountConsolidationDataManager, simples: seq<Spreading.SimplePostingWrapper>,
                 ghost simplePostings: seq<Posting>, ghost totals: seq<Spreading.Totals>, j: nat,
                 ghost accountPostfix: string, ghost held: seq<Consolidation.AccountConsolidationData?>, ghost records0: map<Account, Consolidation.AccountConsolidationData>)
    returns (more: seq<Posting>)
    requires Holding(simples, manager, simplePostings, totals) && j < |simples|
    requires HeldApart(held, totals, records0) && forall i :: 0 <= i < |simples| ==> simples[i].consolidation == held[i]
    modifies simples[j].consolidation
    ensures more == Spreading.SpreadOutputs(simplePostings[j], totals[j], true)
    ensures held[j] != null && old(held[j].Value()) == Registered(simplePostings[j], totals[j], accountPostfix, false) ==>
      held[j].Value() == Registered(simplePostings[j], totals[j], accountPostfix, true)
    ensures forall i :: 0 <= i < |simples| && i != j && held[i] != null ==> held[i].Value() == old(held[i].Value())
    ensures unchanged(records0.Values)
  {
    more := simples[j].GetPostings();
    forall i | 0 <= i < |simples| && i != j && held[i] != null
      ensures held[i].Value() == old(held[i].Value())
    {
      assert held[i] != held[j];
    }
  }

  /** `get_postings` on every simple wrapper, in order, after the irrelevant postings. */
  method EmitPostings(manager: Consolidation.AccountConsolidationDataManager, simples: seq<Spreading.SimplePostingWrapper>,
                      simplePostings: seq<Posting>, ghost totals: seq<Spreading.Totals>, irrelevant: seq<Posting>,
                      ghost accountPostfix: string, ghost held: seq<Consolidation.AccountConsolidationData?>,
                      ghost records0: map<Account, Consolidation.AccountConsolidationData>)
    returns (out: seq<Posting>)
    requires Holding(simples, manager, simplePostings, totals)
    requires HeldApart(held, totals, records0) && forall i :: 0 <= i < |simples| ==> simples[i].consolidation == held[i]
    requires forall j :: 0 <= j < |simples| && held[j] != null ==>
      held[j].Value() == Registered(simplePostings[j], totals[j], accountPostfix, false)
    modifies set i | 0 <= i < |simples| :: simples[i].consolidation
    ensures out == irrelevant + Expand(simplePostings, totals)
    ensures forall j :: 0 <= j < |simples| && held[j] != null ==>
      held[j].Value() == Registered(simplePostings[j], totals[j], accountPostfix, true)
    ensures unchanged(records0.Values)
  {
    var emitted := [];
    var j := 0;
    while j < |simples|
      invariant 0 <= j <= |simples|
      invariant emitted == Expand(simplePostings[..j], totals[..j])
      invariant forall i :: 0 <= i < |simples| && held[i] != null ==>
        held[i].Value() == Registered(simplePostings[i], totals[i], accountPostfix, i < j)
      invariant unchanged(records0.Values)
    {
      var more := EmitOne(manager, simples, simplePostings, totals, j, accountPostfix, held, records0);
      ExpandStep(simplePostings, totals, j);
      emitted := emitted + more;
      j := j + 1;
    }
    assert simplePostings[..j] == simplePostings && totals[..j] == totals;
    out := irrelevant + emitted;
  }

  /** The collecting half of `execute`: the irrelevant postings, then every simple
      wrapper's postings; the registry the sources left is then settled. */
  method Collect(manager: Consolidation.AccountConsolidationDataManager, simples: seq<Spreading.SimplePostingWrapper>,
                 simplePostings: seq<Posting>, ghost totals: seq<Spreading.Totals>, irrelevant: seq<Posting>,
                 ghost accountPostfix: string, ghost keys0: seq<Account>,
                 ghost records0: map<Account, Consolidation.AccountConsolidationData>, ghost values0: map<Account, Consolidation.Record>)
    returns (out: seq<Posting>)
    requires Holding(simples, manager, simplePostings, totals)
    requires Registry(manager, simples, simplePostings, totals, accountPostfix, keys0, records0)
    requires forall t :: t in records0 ==> t in values0 && records0[t].Value() == values0[t]
    modifies set i | 0 <= i < |simples| :: simples[i].consolidation
    ensures out == irrelevant + Expand(simplePostings, totals)
    ensures Settled(manager, simplePostings, totals, accountPostfix, keys0, records0, values0)
  {
    ghost var held := Held(simples);
    out := EmitPostings(manager, simples, simplePostings, totals, irrelevant, accountPostfix, held, records0);
    assert forall t :: t in records0 ==> records0[t].Value() == values0[t];
    SettleAfterEmit(manager, held, simplePostings, totals, accountPostfix, keys0, records0, values0);
  }

  /** Once every simple wrapper's record names its keys' sub-accounts, with the registry
      as the sources left it and the start's records as they were, the registry is settled. */
  lemma SettleAfterEmit(manager: Consolidation.AccountConsolidationDataManager, held: seq<Consolidation.AccountConsolidationData?>,
                        simplePostings: seq<Posting>, totals: seq<Spreading.Totals>, accountPostfix: string, keys0: seq<Account>,
                        records0: map<Account, Consolidation.AccountConsolidationData>, values0: map<Account, Consolidation.Record>)
    requires Tracking(manager.consolidators, held, simplePostings, totals, accountPostfix, keys0, records0)
    requires forall t :: t in records0 ==> t in values0 && records0[t].Value() == values0[t]
    requires forall j :: 0 <= j < |held| && held[j] != null ==>
      held[j].Value() == Registered(simplePostings[j], totals[j], accountPostfix, true)
    ensures Settled(manager, simplePostings, totals, accountPostfix, keys0, records0, values0)
  {
    forall t | t in manager.consolidators.values && t in Targets(simplePostings, totals, accountPostfix)
      ensures exists j :: 0 <= j < |simplePostings| && j < |totals| && totals[j].keys != []
                && t == SubAccount(simplePostings[j].account, accountPostfix)
                && manager.consolidators.values[t].Value()
                   == Consolidation.Record(simplePostings[j].account, t, Spreading.SubAccounts(simplePostings[j].account, totals[j].keys))
    {
      var j :| 0 <= j < |held| && held[j] != null
        && t == SubAccount(simplePostings[j].account, accountPostfix) && manager.consolidators.values[t] == held[j];
      assert held[j].Value() == Registered(simplePostings[j], totals[j], accountPostfix, true);
    }
  }

  /** The two phases of `execute` after wrapping: every source hands out its shares,
      then the postings are collected; the registry ends settled. */
  method SpreadBuckets(manager: Consolidation.AccountConsolidationDataManager, simples: seq<Spreading.SimplePostingWrapper>,
                       buckets: Buckets, roundings: Option<map<string, int>>, ghost accountPostfix: string)
    returns (r: Result<seq<Posting>>)
    requires manager.Valid() && Holding(simples, manager, buckets.simples, Start(|buckets.simples|))
    requires Registry(manager, simples, buckets.simples, Start(|buckets.simples|), accountPostfix,
                      manager.consolidators.keys, manager.consolidators.values)
    modifies manager, simples
    ensures manager.Valid()
    ensures SpreadTotals(buckets.sources, buckets.simples, roundings).Err? ==>
      r == Err(SpreadTotals(buckets.sources, buckets.simples, roundings).error)
    ensures SpreadTotals(buckets.sources, buckets.simples, roundings).Ok? ==>
      r == Ok(buckets.irrelevant + Expand(buckets.simples, SpreadTotals(buckets.sources, buckets.simples, roundings).value))
      && Settled(manager, buckets.simples, SpreadTotals(buckets.sources, buckets.simples, roundings).value, accountPostfix,
                 old(manager.consolidators.keys), old(manager.consolidators.values), old(Snapshot(manager)))
  {
    ghost var keys0, records0, values0 := manager.consolidators.keys, manager.consolidators.values, Snapshot(manager);
    var failure := ProcessSources(manager, buckets.sources, simples, buckets.simples, roundings, accountPostfix);
    if failure.Some? {
      return Err(failure.value);
    }
    ghost var totals := SpreadTotals(buckets.sources, buckets.simples, roundings).value;
    var out := Collect(manager, simples, buckets.simples, totals, buckets.irrelevant, accountPostfix, keys0, records0, values0);
    r := Ok(out);
  }

  /** `execute` with the spreading factory: build the wrappers, let every source hand
      out its shares, then collect the irrelevant postings and the rebuilt simple
      postings. The side data is the registry's records. */
  method Execute(manager: Consolidation.AccountConsolidationDataManager, cfg: SpreaderConfig, entry: Transaction)
    returns (r: Result<Transaction>, other: seq<Consolidation.AccountConsolidationData>)
    requires manager.Valid()
    modifies manager
    ensures manager.Valid()
    ensures r == Spread(cfg, entry)
    ensures r.Ok? ==> other == manager.GetAccountConsolidators()
    ensures r.Ok? ==> cfg.factory.Some? && WrapSpread(cfg.factory.value, entry.postings).Ok?
    ensures r.Ok? ==>
      var b := WrapSpread(cfg.factory.value, entry.postings).value;
      SpreadTotals(b.sources, b.simples, cfg.roundings).Ok?
      && Settled(manager, b.simples, SpreadTotals(b.sources, b.simples, cfg.roundings).value, cfg.accountPostfix,
                 old(manager.consolidators.keys), old(manager.consolidators.values), old(Snapshot(manager)))
  {
    if cfg.factory.None? {
      return Err("TypeError: no posting wrapper factory"), [];
    }
    SpreadPhases(cfg, entry);
    var b, simples := WrapPostingsSpread(manager, cfg.factory.value, cfg.accountPostfix, entry.postings);
    if b.Err? {
      return Err(b.error), [];
    }
    var buckets := b.value;
    RegistryStart(manager, simples, buckets.simples, cfg.accountPostfix);
    var out := SpreadBuckets(manager, simples, buckets, cfg.roundings, cfg.accountPostfix);
    if out.Err? {
      return Err(out.error), [];
    }
    r := Ok(entry.(postings := out.value));
    other := manager.GetAccountConsolidators();
  }
}
