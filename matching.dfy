/** Source/target matching of the newer posting-wrapping layer
    (posting_wrapping/matching): a source carries a matcher, a target carries match
    data, and a target is distributed to when the source's matcher accepts its data. */
module Matching {
  import opened Results
  import opened Ledger
  import Text

  /** `IntersectMatcher(match_data)` */
  datatype Matcher = IntersectMatcher(matchData: seq<string>)

  /** `matcher.is_matches(other)`: an empty matcher accepts anything, otherwise the two
      lists must share an entry. Unlike `Ids.is_ids_intersect`, an empty `other` is not
      a wildcard. */
  function IsMatches(m: Matcher, other: seq<string>): (r: bool)
    ensures r <==> (m.matchData == [] || exists x :: x in m.matchData && x in other)
  {
    if |m.matchData| == 0 then true
    else
      var common := (set x | x in m.matchData) * (set x | x in other);
      assert (common != {}) == (exists x :: x in m.matchData && x in other) by {
        if common != {} { var x :| x in common; assert x in m.matchData && x in other; }
        if exists x :: x in m.matchData && x in other {
          var x :| x in m.matchData && x in other;
          assert x in common;
        }
      }
      common != {}
  }

  /** A matcher with data never accepts a target that has none. */
  lemma NonEmptyRejectsEmpty(m: Matcher)
    requires m.matchData != []
    ensures !IsMatches(m, [])
  {
  }

  /** The ids written in an id text: "all" is the empty list (match everything),
      anything else is cut at the commas. */
  function IdsFromText(text: string): seq<string> {
    if text == "all" then [] else Text.Split(text, ",")
  }

  /** `IdMatcherFactory._create_ids`, with its loop. */
  method CreateIds(text: string) returns (ids: seq<string>)
    ensures ids == IdsFromText(text)
  {
    ids := [];
    if text == "all" {
      return;
    }
    var pieces := Text.Split(text, ",");
    var i := 0;
    while i < |pieces|
      invariant 0 <= i <= |pieces|
      invariant ids == pieces[..i]
    {
      ids := ids + [pieces[i]];
      i := i + 1;
    }
  }

  /** Only the text "all" stands for every id; any other text yields at least one id,
      the ids hold no comma, and joined by commas they give the text back. */
  lemma IdsFromTextMeaning(text: string)
    ensures IdsFromText(text) == [] <==> text == "all"
    ensures text != "all" ==>
      && Text.Join(IdsFromText(text), ",") == text
      && forall k :: 0 <= k < |IdsFromText(text)| ==> !Text.Contains(IdsFromText(text)[k], ",")
  {
    if text != "all" {
      Text.JoinSplit(text, ",");
      Text.SplitPiecesFree(text, ",");
    }
  }

  /** A source whose id text is "all" matches every target. */
  lemma AllMatchesEverything(other: seq<string>)
    ensures IsMatches(IntersectMatcher(IdsFromText("all")), other)
  {
  }

  /** The two ways the newer layer decides which postings are sources and what they match. */
  datatype MatcherFactory =
    | IdMatcherFactory(sourceIdName: string, targetIdName: Option<string>)
    | AccountMatcherFactory(postfixName: string)

  /** The id text under `name`, as `posting.meta.get(name) if posting.meta else None`
      followed by a truthiness test: absent or falsy is `None`; a truthy value that is
      not text makes `_create_ids` fail. */
  function IdText(meta: Meta, name: string): Result<Option<string>> {
    if name !in meta || !Truthy(meta[name]) then Ok(None)
    else match meta[name]
      case Text(s) => Ok(Some(s))
      case _ => Err("id metadata is not text")
  }

  /** `matcher_factory.create_matcher(posting)`: `None` means the posting is not a source. */
  function CreateMatcher(f: MatcherFactory, p: Posting): (r: Result<Option<Matcher>>)
    ensures f.IdMatcherFactory? ==>
      (f.sourceIdName !in p.meta || !Truthy(p.meta[f.sourceIdName]) <==> r == Ok(None))
    ensures f.IdMatcherFactory? ==>
      (r.Err? <==> f.sourceIdName in p.meta && Truthy(p.meta[f.sourceIdName]) && !p.meta[f.sourceIdName].Text?)
    ensures f.IdMatcherFactory? && f.sourceIdName in p.meta && p.meta[f.sourceIdName].Text?
            && p.meta[f.sourceIdName].text != "" ==>
      r == Ok(Some(IntersectMatcher(IdsFromText(p.meta[f.sourceIdName].text))))
    ensures f.AccountMatcherFactory? ==>
      r == Ok(if f.postfixName in p.meta then Some(IntersectMatcher([p.account])) else None)
  {
    match f
    case IdMatcherFactory(sourceName, _) =>
      var text :- IdText(p.meta, sourceName);
      Ok(if text.Some? then Some(IntersectMatcher(IdsFromText(text.value))) else None)
    case AccountMatcherFactory(postfixName) =>
      if postfixName in p.meta then Ok(Some(IntersectMatcher([p.account]))) else Ok(None)
  }

  /** `matcher_factory.create_match_data(posting)`. The id factory pops the target-id key
      from the posting's metadata when it reads it, so the posting comes back too. */
  function CreateMatchData(f: MatcherFactory, p: Posting): (r: Result<(Posting, seq<string>)>)
    ensures r.Ok? ==> r.value.0 == p.(meta := r.value.0.meta)
    ensures f.AccountMatcherFactory? ==> r == Ok((p, [p.account]))
    ensures f.IdMatcherFactory? && (f.targetIdName.None? || f.targetIdName.value == "") ==> r == Ok((p, []))
    ensures f.IdMatcherFactory? && f.targetIdName.Some? && f.targetIdName.value != "" ==>
      var name := f.targetIdName.value;
      (r.Err? <==> name in p.meta && Truthy(p.meta[name]) && !p.meta[name].Text?)
    ensures f.IdMatcherFactory? && f.targetIdName.Some? && f.targetIdName.value != "" && r.Ok? ==>
      var name := f.targetIdName.value;
      if name in p.meta && Truthy(p.meta[name])
      then p.meta[name].Text? && r.value.0.meta == p.meta - {name} && r.value.1 == IdsFromText(p.meta[name].text)
      else r.value == (p, [])
  {
    match f
    case AccountMatcherFactory(_) => Ok((p, [p.account]))
    case IdMatcherFactory(_, targetName) =>
      if targetName.None? || targetName.value == "" then Ok((p, []))
      else
        var text :- IdText(p.meta, targetName.value);
        if text.Some? then Ok((p.(meta := p.meta - {targetName.value}), IdsFromText(text.value)))
        else Ok((p, []))
  }

  /** In account mode a source distributes exactly to the targets on its own account. */
  lemma AccountModeMatchesSameAccount(postfixName: string, source: Posting, target: Posting)
    requires postfixName in source.meta
    ensures var f := AccountMatcherFactory(postfixName);
      CreateMatcher(f, source).Ok? && CreateMatcher(f, source).value.Some? && CreateMatchData(f, target).Ok?
      && (IsMatches(CreateMatcher(f, source).value.value, CreateMatchData(f, target).value.1)
          <==> source.account == target.account)
  {
    var m := IntersectMatcher([source.account]);
    if source.account == target.account {
      assert source.account in m.matchData && source.account in [target.account];
    }
  }
}
