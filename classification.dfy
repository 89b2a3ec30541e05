/** Sorting a transaction's postings into roles: `wrap_postings` of the older factory
    (posting_consolidators/posting_wrapper_factory_base.py, four buckets) and of the
    newer one (posting_wrapping/posting_wrapper_factory_base.py, three buckets), and the
    older factory's integer id parser. */
module Classification {
  import opened Results
  import opened Ledger
  import Text
  import Matching
  import Naming

  // ---------------------------------------------------------------------------
  // Older factory: source / target / simple / irrelevant

  datatype OldFactoryConfig = OldFactoryConfig(
    distributionTypeName: string,
    sourceIdName: string,
    targetIdName: string)

  /** What `_create_source_posting_wrapper(posting, distribution_type, ids_text)` receives. */
  datatype SourceRequest = SourceRequest(posting: Posting, distributionType: Option<MetaValue>, idsText: MetaValue)

  /** What `_create_target_posting_wrapper(posting, ids_text)` receives. */
  datatype TargetRequest = TargetRequest(posting: Posting, idsText: MetaValue)

  datatype OldClassified =
    | SourceOf(s: SourceRequest)
    | TargetOf(t: TargetRequest)
    | SimpleOf(p: Posting)
    | IrrelevantOf(p: Posting)

  /** One iteration of the older `wrap_postings` loop: the first test that holds decides
      (a source id, then a target id, then an `Expenses:` account). An id counts when
      `meta.get` gives something other than `None`, so a key holding `None` is as good
      as absent; so is a distribution type of `None`. */
  function ClassifyOld(cfg: OldFactoryConfig, p: Posting): OldClassified {
    if Given(p.meta, cfg.sourceIdName) then
      SourceOf(SourceRequest(p, DistributionTypeOf(cfg, p), p.meta[cfg.sourceIdName]))
    else if Given(p.meta, cfg.targetIdName) then TargetOf(TargetRequest(p, p.meta[cfg.targetIdName]))
    else if Text.StartsWith(p.account, "Expenses:") then SimpleOf(p)
    else IrrelevantOf(p)
  }

  /** `posting.meta.get(distribution_type_name)`, with `None` as `None`. */
  function DistributionTypeOf(cfg: OldFactoryConfig, p: Posting): Option<MetaValue> {
    if Given(p.meta, cfg.distributionTypeName) then Some(p.meta[cfg.distributionTypeName]) else None
  }

  datatype OldBuckets = OldBuckets(
    sources: seq<SourceRequest>,
    targets: seq<TargetRequest>,
    simples: seq<Posting>,
    irrelevant: seq<Posting>)

  function PlaceOld(b: OldBuckets, c: OldClassified): OldBuckets {
    match c
    case SourceOf(s) => b.(sources := b.sources + [s])
    case TargetOf(t) => b.(targets := b.targets + [t])
    case SimpleOf(p) => b.(simples := b.simples + [p])
    case IrrelevantOf(p) => b.(irrelevant := b.irrelevant + [p])
  }

  function WrapOld(cfg: OldFactoryConfig, ps: seq<Posting>): OldBuckets {
    if |ps| == 0 then OldBuckets([], [], [], [])
    else PlaceOld(WrapOld(cfg, ps[..|ps| - 1]), ClassifyOld(cfg, ps[|ps| - 1]))
  }

  /** The older `wrap_postings`: one pass that hands every posting to exactly one bucket. */
  method WrapPostingsOld(cfg: OldFactoryConfig, postings: seq<Posting>) returns (b: OldBuckets)
    ensures b == WrapOld(cfg, postings)
  {
    b := OldBuckets([], [], [], []);
    var i := 0;
    while i < |postings|
      invariant 0 <= i <= |postings|
      invariant b == WrapOld(cfg, postings[..i])
    {
      var p := postings[i];
      assert postings[..i + 1][..i] == postings[..i];
      if Given(p.meta, cfg.sourceIdName) {
        var distributionType := if Given(p.meta, cfg.distributionTypeName) then Some(p.meta[cfg.distributionTypeName]) else None;
        b := b.(sources := b.sources + [SourceRequest(p, distributionType, p.meta[cfg.sourceIdName])]);
      } else if Given(p.meta, cfg.targetIdName) {
        b := b.(targets := b.targets + [TargetRequest(p, p.meta[cfg.targetIdName])]);
      } else if Text.StartsWith(p.account, "Expenses:") {
        b := b.(simples := b.simples + [p]);
      } else {
        b := b.(irrelevant := b.irrelevant + [p]);
      }
      i := i + 1;
    }
    assert postings[..i] == postings;
  }

  function SourcePostings(rs: seq<SourceRequest>): seq<Posting> {
    if |rs| == 0 then [] else SourcePostings(rs[..|rs| - 1]) + [rs[|rs| - 1].posting]
  }

  function TargetPostings(rs: seq<TargetRequest>): seq<Posting> {
    if |rs| == 0 then [] else TargetPostings(rs[..|rs| - 1]) + [rs[|rs| - 1].posting]
  }

  /** The four buckets share the postings out exactly: together they hold every posting
      once, no more and no fewer. */
  lemma {:induction false} WrapOldPartition(cfg: OldFactoryConfig, ps: seq<Posting>)
    ensures var b := WrapOld(cfg, ps);
      multiset(SourcePostings(b.sources)) + multiset(TargetPostings(b.targets))
      + multiset(b.simples) + multiset(b.irrelevant) == multiset(ps)
  {
    if |ps| > 0 {
      var init := ps[..|ps| - 1];
      var last := ps[|ps| - 1];
      WrapOldPartition(cfg, init);
      assert ps == init + [last];
      assert multiset(ps) == multiset(init) + multiset{last};
      var b0 := WrapOld(cfg, init);
      var c := ClassifyOld(cfg, last);
      assert WrapOld(cfg, ps) == PlaceOld(b0, c);
      ClassifyOldKeepsPosting(cfg, last);
      PlaceOldCounts(b0, c, last);
    }
  }

  lemma ClassifyOldKeepsPosting(cfg: OldFactoryConfig, p: Posting)
    ensures var c := ClassifyOld(cfg, p);
      (c.SourceOf? ==> c.s.posting == p) && (c.TargetOf? ==> c.t.posting == p)
      && ((c.SimpleOf? || c.IrrelevantOf?) ==> c.p == p)
  {
  }

  lemma PlaceOldCounts(b0: OldBuckets, c: OldClassified, last: Posting)
    requires c.SourceOf? ==> c.s.posting == last
    requires c.TargetOf? ==> c.t.posting == last
    requires (c.SimpleOf? || c.IrrelevantOf?) ==> c.p == last
    ensures var b := PlaceOld(b0, c);
      multiset(SourcePostings(b.sources)) + multiset(TargetPostings(b.targets))
      + multiset(b.simples) + multiset(b.irrelevant)
      == multiset(SourcePostings(b0.sources)) + multiset(TargetPostings(b0.targets))
         + multiset(b0.simples) + multiset(b0.irrelevant) + multiset{last}
  {
    var b := PlaceOld(b0, c);
    match c
    case SourceOf(r) =>
      assert b.sources[..|b.sources| - 1] == b0.sources;
      assert SourcePostings(b.sources) == SourcePostings(b0.sources) + [last];
    case TargetOf(r) =>
      assert b.targets[..|b.targets| - 1] == b0.targets;
      assert TargetPostings(b.targets) == TargetPostings(b0.targets) + [last];
    case SimpleOf(p) =>
    case IrrelevantOf(p) =>
  }

  /** Each posting is put where the precedence source id, target id, `Expenses:`
      account puts it, an id counting only when it is not `None`; a wrapper receives
      the id text stored under its key, and a source its distribution type or `None`. */
  lemma {:induction false} WrapOldRoles(cfg: OldFactoryConfig, ps: seq<Posting>)
    ensures var b := WrapOld(cfg, ps);
      && (forall r :: r in b.sources ==>
            Given(r.posting.meta, cfg.sourceIdName) && r.idsText == r.posting.meta[cfg.sourceIdName]
            && r.distributionType == DistributionTypeOf(cfg, r.posting))
      && (forall r :: r in b.targets ==>
            !Given(r.posting.meta, cfg.sourceIdName) && Given(r.posting.meta, cfg.targetIdName)
            && r.idsText == r.posting.meta[cfg.targetIdName])
      && (forall p :: p in b.simples ==>
            !Given(p.meta, cfg.sourceIdName) && !Given(p.meta, cfg.targetIdName) && Text.StartsWith(p.account, "Expenses:"))
      && (forall p :: p in b.irrelevant ==>
            !Given(p.meta, cfg.sourceIdName) && !Given(p.meta, cfg.targetIdName) && !Text.StartsWith(p.account, "Expenses:"))
  {
    if |ps| > 0 {
      WrapOldRoles(cfg, ps[..|ps| - 1]);
    }
  }

  // ---------------------------------------------------------------------------
  // Older factory's `_create_ids`: integer ids

  /** `int(token)` for each token, stopping at the first that is not an integer. */
  function ParseAll(tokens: seq<string>): Result<seq<int>> {
    if |tokens| == 0 then Ok([])
    else
      var prefix :- ParseAll(tokens[..|tokens| - 1]);
      var n :- Text.ParseInt(tokens[|tokens| - 1]);
      Ok(prefix + [n])
  }

  /** The ids the older factory reads from an id text: "all" is the empty list, other
      text is split at commas and each piece must be an integer literal. A value that is
      not text fails as `str.split` would. */
  function ParseIds(text: MetaValue): Result<seq<int>> {
    if text == Text("all") then Ok([])
    else if !text.Text? then Err("id metadata is not text")
    else ParseAll(Text.Split(text.text, ","))
  }

  lemma {:induction false} ParseAllPrefixErr(tokens: seq<string>, k: nat, e: string)
    requires k <= |tokens| && ParseAll(tokens[..k]) == Err(e)
    ensures ParseAll(tokens) == Err(e)
    decreases |tokens| - k
  {
    if k < |tokens| {
      assert tokens[..k + 1][..k] == tokens[..k];
      ParseAllPrefixErr(tokens, k + 1, e);
    } else {
      assert tokens[..k] == tokens;
    }
  }

  lemma ParseAllStep(tokens: seq<string>, i: nat)
    requires i < |tokens|
    ensures ParseAll(tokens[..i]).Ok? && Text.ParseInt(tokens[i]).Ok? ==>
      ParseAll(tokens[..i + 1]) == Ok(ParseAll(tokens[..i]).value + [Text.ParseInt(tokens[i]).value])
    ensures ParseAll(tokens[..i]).Ok? && Text.ParseInt(tokens[i]).Err? ==>
      ParseAll(tokens[..i + 1]) == Err(Text.ParseInt(tokens[i]).error)
  {
    assert tokens[..i + 1][..i] == tokens[..i];
  }

  /** `PostingWrapperFactoryBase._create_ids`, with its loop. */
  method CreateIntIds(text: MetaValue) returns (r: Result<seq<int>>)
    ensures r == ParseIds(text)
  {
    if text == Text("all") {
      return Ok([]);
    }
    if !text.Text? {
      return Err("id metadata is not text");
    }
    var tokens := Text.Split(text.text, ",");
    var ids: seq<int> := [];
    var i := 0;
    while i < |tokens|
      invariant 0 <= i <= |tokens|
      invariant ParseAll(tokens[..i]) == Ok(ids)
    {
      ParseAllStep(tokens, i);
      var n := Text.ParseInt(tokens[i]);
      if n.Err? {
        ParseAllPrefixErr(tokens, i + 1, n.error);
        return Err(n.error);
      }
      ids := ids + [n.value];
      i := i + 1;
    }
    assert tokens[..i] == tokens;
    return Ok(ids);
  }

  /** How an id list is written: the text "all" for the empty list, otherwise the ids
      separated by commas. */
  function IdsText(ids: seq<int>): string {
    if ids == [] then "all" else Text.Join(IntTokens(ids), ",")
  }

  lemma NoCommaInInt(n: int)
    ensures ',' !in Text.IntToString(n)
  {
    var s := Text.IntToString(n);
    forall j | 0 <= j < |s| ensures s[j] != ',' {
      if n < 0 && j > 0 { assert s[j] == Text.NatToString(-n)[j - 1]; }
    }
  }

  /** The ids written out one by one. */
  function IntTokens(ids: seq<int>): (r: seq<string>)
    ensures |r| == |ids| && forall i :: 0 <= i < |ids| ==> r[i] == Text.IntToString(ids[i])
  {
    if |ids| == 0 then [] else IntTokens(ids[..|ids| - 1]) + [Text.IntToString(ids[|ids| - 1])]
  }

  lemma {:induction false} ParseAllInts(ids: seq<int>)
    ensures ParseAll(IntTokens(ids)) == Ok(ids)
  {
    if |ids| > 0 {
      var n := |ids| - 1;
      var tokens := IntTokens(ids);
      assert tokens[..n] == IntTokens(ids[..n]);
      assert ids == ids[..n] + [ids[n]];
      ParseAllInts(ids[..n]);
      Text.ParseIntToString(ids[n]);
    }
  }

  lemma JoinStart(parts: seq<string>, sep: string)
    requires |parts| > 0 && |parts[0]| > 0
    ensures |Text.Join(parts, sep)| > 0 && Text.Join(parts, sep)[0] == parts[0][0]
  {
  }

  /** Reading the written form of an id list gives the list back. */
  lemma ParseIdsRoundTrip(ids: seq<int>)
    ensures ParseIds(Text(IdsText(ids))) == Ok(ids)
  {
    if ids != [] {
      var tokens := IntTokens(ids);
      forall k | 0 <= k < |tokens| ensures ',' !in tokens[k] { NoCommaInInt(ids[k]); }
      Text.SplitJoin(tokens, ',');
      JoinStart(tokens, ",");
      var first := Text.IntToString(ids[0]);
      assert first[0] == '-' || Text.IsDigit(first[0]);
      assert IdsText(ids) != "all";
      ParseAllInts(ids);
    }
  }

  // ---------------------------------------------------------------------------
  // Newer factory: source / target / irrelevant

  /** What `_create_source_posting_wrapper(posting, distribution_type, matcher)` receives. */
  datatype SourceWrap = SourceWrap(posting: Posting, distributionType: Option<MetaValue>, matcher: Matching.Matcher)

  /** What `_create_target_posting_wrapper(posting, match_data)` receives: the posting as
      it is after `create_match_data` (which may have popped a metadata key). */
  datatype TargetWrap = TargetWrap(posting: Posting, matchData: seq<string>)

  datatype NewBuckets = NewBuckets(sources: seq<SourceWrap>, targets: seq<TargetWrap>, irrelevant: seq<Posting>)

  datatype Classified = AsSource(s: SourceWrap) | AsTarget(t: TargetWrap) | AsIrrelevant(p: Posting)

  /** One iteration of the newer `wrap_postings` loop. */
  function ClassifyNew(f: Matching.MatcherFactory, g: Naming.ValueGetter, p: Posting): Result<Classified> {
    var matcher :- Matching.CreateMatcher(f, p);
    if matcher.Some? then Ok(AsSource(SourceWrap(p, Naming.GetValue(g, p), matcher.value)))
    else if Text.StartsWith(p.account, "Expenses:") then
      var data :- Matching.CreateMatchData(f, p);
      Ok(AsTarget(TargetWrap(data.0, data.1)))
    else Ok(AsIrrelevant(p))
  }

  function Place(b: NewBuckets, c: Classified): NewBuckets {
    match c
    case AsSource(s) => b.(sources := b.sources + [s])
    case AsTarget(t) => b.(targets := b.targets + [t])
    case AsIrrelevant(p) => b.(irrelevant := b.irrelevant + [p])
  }

  function WrapNew(f: Matching.MatcherFactory, g: Naming.ValueGetter, ps: seq<Posting>): Result<NewBuckets> {
    if |ps| == 0 then Ok(NewBuckets([], [], []))
    else
      var prefix :- WrapNew(f, g, ps[..|ps| - 1]);
      var c :- ClassifyNew(f, g, ps[|ps| - 1]);
      Ok(Place(prefix, c))
  }

  lemma {:induction false} WrapNewPrefixErr(f: Matching.MatcherFactory, g: Naming.ValueGetter, ps: seq<Posting>, k: nat, e: string)
    requires k <= |ps| && WrapNew(f, g, ps[..k]) == Err(e)
    ensures WrapNew(f, g, ps) == Err(e)
    decreases |ps| - k
  {
    if k < |ps| {
      assert ps[..k + 1][..k] == ps[..k];
      WrapNewPrefixErr(f, g, ps, k + 1, e);
    } else {
      assert ps[..k] == ps;
    }
  }

  /** The newer `wrap_postings`. A metadata value the matcher factory cannot read stops it. */
  method WrapPostingsNew(f: Matching.MatcherFactory, g: Naming.ValueGetter, postings: seq<Posting>)
    returns (r: Result<NewBuckets>)
    ensures r == WrapNew(f, g, postings)
  {
    var b := NewBuckets([], [], []);
    var i := 0;
    while i < |postings|
      invariant 0 <= i <= |postings|
      invariant WrapNew(f, g, postings[..i]) == Ok(b)
    {
      var p := postings[i];
      assert postings[..i + 1][..i] == postings[..i];
      var matcher := Matching.CreateMatcher(f, p);
      if matcher.Err? {
        WrapNewPrefixErr(f, g, postings, i + 1, matcher.error);
        return Err(matcher.error);
      }
      if matcher.value.Some? {
        var distributionType := Naming.GetValue(g, p);
        b := b.(sources := b.sources + [SourceWrap(p, distributionType, matcher.value.value)]);
      } else if Text.StartsWith(p.account, "Expenses:") {
        var data := Matching.CreateMatchData(f, p);
        if data.Err? {
          WrapNewPrefixErr(f, g, postings, i + 1, data.error);
          return Err(data.error);
        }
        b := b.(targets := b.targets + [TargetWrap(data.value.0, data.value.1)]);
      } else {
        b := b.(irrelevant := b.irrelevant + [p]);
      }
      i := i + 1;
    }
    assert postings[..i] == postings;
    return Ok(b);
  }

  /** `cs` are the classifications of some postings of `ps`, taken in input order:
      `idx` names, strictly ascending, the position each was drawn from. */
  predicate DrawnAt(f: Matching.MatcherFactory, g: Naming.ValueGetter, ps: seq<Posting>, cs: seq<Classified>, idx: seq<nat>) {
    |idx| == |cs|
    && (forall k :: 0 <= k < |idx| ==> idx[k] < |ps| && ClassifyNew(f, g, ps[idx[k]]) == Ok(cs[k]))
    && (forall k1, k2 :: 0 <= k1 < k2 < |idx| ==> idx[k1] < idx[k2])
  }

  ghost predicate Drawn(f: Matching.MatcherFactory, g: Naming.ValueGetter, ps: seq<Posting>, cs: seq<Classified>) {
    exists idx: seq<nat> :: DrawnAt(f, g, ps, cs, idx)
  }

  function SourceItems(b: NewBuckets): seq<Classified> {
    seq(|b.sources|, k requires 0 <= k < |b.sources| => AsSource(b.sources[k]))
  }

  function TargetItems(b: NewBuckets): seq<Classified> {
    seq(|b.targets|, k requires 0 <= k < |b.targets| => AsTarget(b.targets[k]))
  }

  function IrrelevantItems(b: NewBuckets): seq<Classified> {
    seq(|b.irrelevant|, k requires 0 <= k < |b.irrelevant| => AsIrrelevant(b.irrelevant[k]))
  }

  /** One more posting: what was drawn stays drawn, and its own classification can
      be drawn after it. */
  lemma DrawnSnoc(f: Matching.MatcherFactory, g: Naming.ValueGetter, ps: seq<Posting>, cs: seq<Classified>,
                  idx: seq<nat>, p: Posting, c: Classified)
    requires DrawnAt(f, g, ps, cs, idx)
    ensures DrawnAt(f, g, ps + [p], cs, idx)
    ensures ClassifyNew(f, g, p) == Ok(c) ==> DrawnAt(f, g, ps + [p], cs + [c], idx + [|ps|])
  {
    assert forall k :: 0 <= k < |idx| ==> (ps + [p])[idx[k]] == ps[idx[k]];
  }

  /** Every posting lands in exactly one of the three buckets: a source carries the
      posting, its distribution type and the matcher `create_matcher` made for it; a
      target is an expense posting that is not a source, carrying what
      `create_match_data` gave (the posting with the target key popped, and the match
      data); an irrelevant posting is neither, and passes through unchanged. */
  lemma {:induction false} WrapNewPartition(f: Matching.MatcherFactory, g: Naming.ValueGetter, ps: seq<Posting>)
    requires WrapNew(f, g, ps).Ok?
    ensures var b := WrapNew(f, g, ps).value;
      |b.sources| + |b.targets| + |b.irrelevant| == |ps|
      && (forall t :: t in b.targets ==> Text.StartsWith(t.posting.account, "Expenses:"))
      && (forall s :: s in b.sources ==> s.posting in ps && s.distributionType == Naming.GetValue(g, s.posting)
                                         && Matching.CreateMatcher(f, s.posting) == Ok(Some(s.matcher)))
      && (forall p :: p in b.irrelevant ==>
            (p in ps && !Text.StartsWith(p.account, "Expenses:") && Matching.CreateMatcher(f, p) == Ok(None)))
  {
    if |ps| > 0 {
      var q := ps[|ps| - 1];
      WrapNewPartition(f, g, ps[..|ps| - 1]);
      assert ps == ps[..|ps| - 1] + [q];
      ClassifiedOne(f, g, q, ClassifyNew(f, g, q).value);
    }
  }

  /** What classifying one posting means, bucket by bucket. */
  lemma ClassifiedOne(f: Matching.MatcherFactory, g: Naming.ValueGetter, q: Posting, c: Classified)
    requires ClassifyNew(f, g, q) == Ok(c)
    ensures match c
      case AsSource(s) =>
        s.posting == q && s.distributionType == Naming.GetValue(g, q) && Matching.CreateMatcher(f, q) == Ok(Some(s.matcher))
      case AsTarget(t) => Text.StartsWith(q.account, "Expenses:")
      case AsIrrelevant(p) =>
        p == q && !Text.StartsWith(q.account, "Expenses:") && Matching.CreateMatcher(f, q) == Ok(None)
  {
  }

  /** What classifying one posting as a target means. */
  lemma ClassifiedTarget(f: Matching.MatcherFactory, g: Naming.ValueGetter, p: Posting, t: TargetWrap)
    requires ClassifyNew(f, g, p) == Ok(AsTarget(t))
    ensures Text.StartsWith(p.account, "Expenses:") && Matching.CreateMatcher(f, p) == Ok(None)
            && Matching.CreateMatchData(f, p) == Ok((t.posting, t.matchData))
  {
  }

  /** A target comes from an expense posting that is not a source, and carries what
      `create_match_data` gave for it. */
  lemma WrapNewTargets(f: Matching.MatcherFactory, g: Naming.ValueGetter, ps: seq<Posting>)
    requires WrapNew(f, g, ps).Ok?
    ensures forall t :: t in WrapNew(f, g, ps).value.targets ==>
      exists p :: p in ps && Text.StartsWith(p.account, "Expenses:") && Matching.CreateMatcher(f, p) == Ok(None)
                  && Matching.CreateMatchData(f, p) == Ok((t.posting, t.matchData))
  {
    var b := WrapNew(f, g, ps).value;
    WrapNewOrder(f, g, ps);
    var idx: seq<nat> :| DrawnAt(f, g, ps, TargetItems(b), idx);
    forall t | t in b.targets
      ensures exists p :: p in ps && Text.StartsWith(p.account, "Expenses:") && Matching.CreateMatcher(f, p) == Ok(None)
                          && Matching.CreateMatchData(f, p) == Ok((t.posting, t.matchData))
    {
      var k :| 0 <= k < |b.targets| && b.targets[k] == t;
      assert TargetItems(b)[k] == AsTarget(t);
      ClassifiedTarget(f, g, ps[idx[k]], t);
    }
  }


  /** Placing a classification appends it to its own bucket only. */
  lemma PlaceItems(b: NewBuckets, c: Classified)
    ensures SourceItems(Place(b, c)) == if c.AsSource? then SourceItems(b) + [c] else SourceItems(b)
    ensures TargetItems(Place(b, c)) == if c.AsTarget? then TargetItems(b) + [c] else TargetItems(b)
    ensures IrrelevantItems(Place(b, c)) == if c.AsIrrelevant? then IrrelevantItems(b) + [c] else IrrelevantItems(b)
  {
  }

  lemma DrawnStep(f: Matching.MatcherFactory, g: Naming.ValueGetter, front: seq<Posting>, p: Posting,
                  cs: seq<Classified>, c: Classified, grown: seq<Classified>)
    requires Drawn(f, g, front, cs) && ClassifyNew(f, g, p) == Ok(c)
    requires grown == cs || grown == cs + [c]
    ensures Drawn(f, g, front + [p], grown)
  {
    var idx: seq<nat> :| DrawnAt(f, g, front, cs, idx);
    DrawnSnoc(f, g, front, cs, idx, p, c);
    if grown != cs {
      assert DrawnAt(f, g, front + [p], grown, idx + [|front|]);
    } else {
      assert DrawnAt(f, g, front + [p], grown, idx);
    }
  }

  /** Each bucket keeps the input order: its entries are the classifications of
      postings drawn from ascending positions of the input. */
  lemma {:induction false} WrapNewOrder(f: Matching.MatcherFactory, g: Naming.ValueGetter, ps: seq<Posting>)
    requires WrapNew(f, g, ps).Ok?
    ensures var b := WrapNew(f, g, ps).value;
      Drawn(f, g, ps, SourceItems(b)) && Drawn(f, g, ps, TargetItems(b)) && Drawn(f, g, ps, IrrelevantItems(b))
  {
    var b := WrapNew(f, g, ps).value;
    if |ps| == 0 {
      assert DrawnAt(f, g, ps, SourceItems(b), []);
      assert DrawnAt(f, g, ps, TargetItems(b), []);
      assert DrawnAt(f, g, ps, IrrelevantItems(b), []);
    } else {
      var n := |ps| - 1;
      var front := ps[..n];
      WrapNewOrder(f, g, front);
      assert ps == front + [ps[n]];
      var b0 := WrapNew(f, g, front).value;
      var c := ClassifyNew(f, g, ps[n]).value;
      assert b == Place(b0, c);
      PlaceItems(b0, c);
      DrawnStep(f, g, front, ps[n], SourceItems(b0), c, SourceItems(b));
      DrawnStep(f, g, front, ps[n], TargetItems(b0), c, TargetItems(b));
      DrawnStep(f, g, front, ps[n], IrrelevantItems(b0), c, IrrelevantItems(b));
    }
  }



}
