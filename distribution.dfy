/** How a source posting's amount is shared out among the postings it reaches:
    `process_postings` of the older source wrapper
    (posting_consolidators/source_posting_wrapper_base.py), which reaches targets by id
    and, with the "all" id, the simple postings too, and of the newer one
    (posting_wrapping/source_posting_wrapper_base.py), which reaches targets through its
    matcher. Both hand each reached posting its rounded share through the abstract
    `process_posting` hook; the model returns that sequence of hook calls. */
module Distribution {
  import opened Results
  import opened Ledger
  import Text
  import Rounding
  import Ids
  import Matching
  import Classification

  // ---------------------------------------------------------------------------
  // Distribution types and shares (common to both layers)

  /** The distribution type: "unit" shares in proportion to the postings' own unit
      numbers, "equal" shares evenly, "meta:<name>" in proportion to the amount stored
      under metadata key <name>. Any other text shares nothing (every share is 0). */
  datatype Policy = UnitPolicy | EqualPolicy | MetaPolicy(field: string) | NoPolicy

  /** The if-chain `== "unit"`, `== "equal"`, `.startswith("meta:")`; the field is
      `split("meta:")[-1]`. A value that is not text, a missing one included, fails at
      `.startswith`. So only a text value is read, exactly "unit" and "equal" are
      recognised as such, and any other text is a metadata field exactly when it
      starts with "meta:". */
  function PolicyOf(distributionType: Option<MetaValue>): (r: Result<Policy>)
    ensures r.Ok? <==> distributionType.Some? && distributionType.value.Text?
    ensures r == Ok(UnitPolicy) <==> distributionType == Some(Text("unit"))
    ensures r == Ok(EqualPolicy) <==> distributionType == Some(Text("equal"))
    ensures r.Ok? && distributionType.value.text != "unit" && distributionType.value.text != "equal" ==>
      (r.value.MetaPolicy? <==> Text.StartsWith(distributionType.value.text, "meta:"))
  {
    match distributionType
    case Some(Text(s)) =>
      if s == "unit" then Ok(UnitPolicy)
      else if s == "equal" then Ok(EqualPolicy)
      else if Text.StartsWith(s, "meta:") then Ok(MetaPolicy(Text.LastSegment(s, "meta:")))
      else Ok(NoPolicy)
    case _ => Err("distribution type is not text")
  }

  /** The metadata field is all of the text after its last "meta:". */
  lemma PolicyOfField(s: string)
    requires PolicyOf(Some(Text(s))).Ok? && PolicyOf(Some(Text(s))).value.MetaPolicy?
    ensures var field := PolicyOf(Some(Text(s))).value.field;
      Text.StartsWith(s, "meta:") && !Text.Contains(field, "meta:")
      && |field| + 5 <= |s| && s[|s| - |field|..] == field
      && Text.OccursAt(s, "meta:", |s| - |field| - 5)
  {
    assert Text.OccursAt(s, "meta:", 0);
    Text.LastSegmentSuffix(s, "meta:");
    Text.LastSegmentAfterSeparator(s, "meta:");
  }

  /** `posting.get_meta(field)` when it is an `Amount`; any other value adds nothing. */
  function MetaWeight(p: Posting, field: string): real {
    if field in p.meta && p.meta[field].AmountValue? then p.meta[field].amount.number else 0.0
  }

  /** Sum of `posting.get_number()`, the unit numbers. */
  function UnitSum(ps: seq<Posting>): real {
    if |ps| == 0 then 0.0 else UnitSum(ps[..|ps| - 1]) + ps[|ps| - 1].units.number
  }

  function WeightSum(ps: seq<Posting>, field: string): real {
    if |ps| == 0 then 0.0 else WeightSum(ps[..|ps| - 1], field) + MetaWeight(ps[|ps| - 1], field)
  }

  /** `number_base`: the source's amount per unit of weight. Decimal division by zero
      raises, so a reached set with no weight is an error. */
  function NumberBase(policy: Policy, maxNumber: real, ps: seq<Posting>): (r: Result<real>)
    ensures policy.UnitPolicy? ==> (r.Err? <==> UnitSum(ps) == 0.0)
    ensures policy.EqualPolicy? ==> (r.Err? <==> |ps| == 0)
    ensures policy.MetaPolicy? ==> (r.Err? <==> WeightSum(ps, policy.field) == 0.0)
    ensures policy.NoPolicy? ==> r == Ok(0.0)
  {
    match policy
    case UnitPolicy =>
      var total := UnitSum(ps);
      if total == 0.0 then Err("division by zero") else Ok(maxNumber / total)
    case EqualPolicy =>
      if |ps| == 0 then Err("division by zero") else Ok(maxNumber / (|ps| as real))
    case MetaPolicy(field) =>
      var total := WeightSum(ps, field);
      if total == 0.0 then Err("division by zero") else Ok(maxNumber / total)
    case NoPolicy => Ok(0.0)
  }

  /** The unrounded share of one reached posting. */
  function Share(policy: Policy, base: real, p: Posting): real {
    match policy
    case UnitPolicy => base * p.units.number
    case EqualPolicy => base
    case MetaPolicy(field) => base * MetaWeight(p, field)
    case NoPolicy => 0.0
  }

  /** The unrounded shares of the reached postings, in order. */
  function Shares(policy: Policy, base: real, ps: seq<Posting>): (r: seq<real>)
    ensures |r| == |ps|
  {
    seq(|ps|, k requires 0 <= k < |ps| => Share(policy, base, ps[k]))
  }

  function Sum(xs: seq<real>): real {
    if |xs| == 0 then 0.0 else Sum(xs[..|xs| - 1]) + xs[|xs| - 1]
  }

  /** What the source's amount is divided by: the total units, the number of
      reached postings, or the total weight. */
  function Divisor(policy: Policy, ps: seq<Posting>): real {
    match policy
    case UnitPolicy => UnitSum(ps)
    case EqualPolicy => |ps| as real
    case MetaPolicy(field) => WeightSum(ps, field)
    case NoPolicy => 0.0
  }

  /** For a known distribution type a number base exists exactly when the divisor is
      not 0, and it is the source's amount divided by the divisor. */
  lemma NumberBaseValue(policy: Policy, maxNumber: real, ps: seq<Posting>)
    requires !policy.NoPolicy? && NumberBase(policy, maxNumber, ps).Ok?
    ensures Divisor(policy, ps) != 0.0 && NumberBase(policy, maxNumber, ps).value == maxNumber / Divisor(policy, ps)
  {
  }

  lemma {:induction false} ShareSumValue(policy: Policy, base: real, ps: seq<Posting>)
    ensures Sum(Shares(policy, base, ps)) == base * Divisor(policy, ps)
  {
    if |ps| > 0 {
      var n := |ps| - 1;
      ShareSumValue(policy, base, ps[..n]);
      assert Shares(policy, base, ps)[..n] == Shares(policy, base, ps[..n]);
      assert Divisor(policy, ps) == Divisor(policy, ps[..n]) + match policy
        case UnitPolicy => ps[n].units.number
        case EqualPolicy => 1.0
        case MetaPolicy(field) => MetaWeight(ps[n], field)
        case NoPolicy => 0.0;
    }
  }

  lemma DivBack(x: real, d: real)
    requires d != 0.0
    ensures (x / d) * d == x
  {
  }

  /** Before rounding, the shares add up to exactly the source's amount, whatever the
      distribution type, as long as it is one of the three known ones. */
  lemma {:induction false} SharesAddUp(policy: Policy, maxNumber: real, ps: seq<Posting>)
    requires !policy.NoPolicy? && NumberBase(policy, maxNumber, ps).Ok?
    ensures Sum(Shares(policy, NumberBase(policy, maxNumber, ps).value, ps)) == maxNumber
  {
    var base := NumberBase(policy, maxNumber, ps).value;
    var total := Divisor(policy, ps);
    assert total != 0.0 && base == maxNumber / total;
    ShareSumValue(policy, base, ps);
    DivBack(maxNumber, total);
  }

  // ---------------------------------------------------------------------------
  // The hook calls

  /** A reached posting: the i-th target wrapper or the i-th simple wrapper. */
  datatype Recipient = TargetRef(index: nat) | SimpleRef(index: nat)

  /** One `process_posting(recipient, number)` call. */
  datatype Call = Call(to: Recipient, number: real)

  /** One call per reached posting, in order, each with its share rounded in the
      source's currency. */
  function Calls(roundings: Option<map<string, int>>, currency: Currency,
                 reached: seq<Recipient>, shares: seq<real>): (r: seq<Call>)
    requires |reached| == |shares|
    ensures |r| == |reached|
  {
    seq(|reached|, k requires 0 <= k < |reached| => Call(reached[k], Rounding.Round(roundings, shares[k], currency)))
  }

  function CallSum(calls: seq<Call>): real {
    if |calls| == 0 then 0.0 else CallSum(calls[..|calls| - 1]) + calls[|calls| - 1].number
  }

  /** The rounding slack of one share: half a unit of the currency's last place, or 0
      when the currency is not rounded. */
  function Slack(roundings: Option<map<string, int>>, currency: Currency): real {
    if roundings.Some? && currency in roundings.value then Rounding.Quantum(roundings.value[currency]) / 2.0 else 0.0
  }

  /** The slack of `count` shares: `count` times the slack of one. */
  function Tolerance(roundings: Option<map<string, int>>, currency: Currency, count: nat): real {
    if count == 0 then 0.0 else Tolerance(roundings, currency, count - 1) + Slack(roundings, currency)
  }

  lemma {:induction false} ToleranceValue(roundings: Option<map<string, int>>, currency: Currency, count: nat)
    ensures Tolerance(roundings, currency, count) == (count as real) * Slack(roundings, currency)
  {
    if count > 0 {
      ToleranceValue(roundings, currency, count - 1);
    }
  }

  /** One share rounds to within one slack of itself. */
  lemma RoundSlack(roundings: Option<map<string, int>>, share: real, currency: Currency)
    ensures Rounding.Abs(Rounding.Round(roundings, share, currency) - share) <= Slack(roundings, currency)
  {
    if roundings.Some? && currency in roundings.value {
      Rounding.RoundBound(roundings, share, currency);
    }
  }

  lemma {:induction false} CallSumWithin(roundings: Option<map<string, int>>, currency: Currency,
                                         calls: seq<Call>, shares: seq<real>)
    requires |calls| == |shares|
    requires forall k :: 0 <= k < |shares| ==> Rounding.Abs(calls[k].number - shares[k]) <= Slack(roundings, currency)
    ensures Rounding.Abs(CallSum(calls) - Sum(shares)) <= Tolerance(roundings, currency, |shares|)
  {
    if |calls| > 0 {
      var n := |calls| - 1;
      CallSumWithin(roundings, currency, calls[..n], shares[..n]);
    }
  }

  lemma {:induction false} CallsWithinSlack(roundings: Option<map<string, int>>, currency: Currency,
                         reached: seq<Recipient>, shares: seq<real>)
    requires |reached| == |shares|
    ensures forall k :: 0 <= k < |shares| ==>
      Rounding.Abs(Calls(roundings, currency, reached, shares)[k].number - shares[k]) <= Slack(roundings, currency)
  {
    forall k | 0 <= k < |shares|
      ensures Rounding.Abs(Calls(roundings, currency, reached, shares)[k].number - shares[k]) <= Slack(roundings, currency)
    {
      RoundSlack(roundings, shares[k], currency);
    }
  }

  /** The rounded shares add up to the unrounded ones give or take one slack per share. */
  lemma {:induction false} CallSumBound(roundings: Option<map<string, int>>, currency: Currency,
                     reached: seq<Recipient>, shares: seq<real>)
    requires |reached| == |shares|
    ensures Rounding.Abs(CallSum(Calls(roundings, currency, reached, shares)) - Sum(shares))
            <= Tolerance(roundings, currency, |shares|)
  {
    CallsWithinSlack(roundings, currency, reached, shares);
    CallSumWithin(roundings, currency, Calls(roundings, currency, reached, shares), shares);
  }

  /** For a known distribution type, the rounded calls hand out the source's amount
      give or take one slack per call. */
  lemma {:induction false} DistributedTotal(policy: Policy, maxNumber: real, roundings: Option<map<string, int>>,
                                            currency: Currency, reached: seq<Recipient>, views: seq<Posting>)
    requires |reached| == |views| && !policy.NoPolicy? && NumberBase(policy, maxNumber, views).Ok?
    ensures var calls := Calls(roundings, currency, reached, Shares(policy, NumberBase(policy, maxNumber, views).value, views));
      Rounding.Abs(CallSum(calls) - maxNumber) <= Tolerance(roundings, currency, |calls|)
  {
    var shares := Shares(policy, NumberBase(policy, maxNumber, views).value, views);
    SharesAddUp(policy, maxNumber, views);
    CallSumBound(roundings, currency, reached, shares);
  }

  /** The part both layers share once the reached postings are known: read the
      distribution type, compute the number base, then one rounded call per reached
      posting. */
  function Distributed(distributionType: Option<MetaValue>, maxNumber: real, currency: Currency,
                       roundings: Option<map<string, int>>, reached: seq<Recipient>, views: seq<Posting>): Result<seq<Call>>
    requires |reached| == |views|
  {
    var policy :- PolicyOf(distributionType);
    var base :- NumberBase(policy, maxNumber, views);
    Ok(Calls(roundings, currency, reached, Shares(policy, base, views)))
  }

  /** A successful distribution over the reached postings makes one call per reached
      posting, in order, and for a known distribution type hands out `maxNumber` up
      to rounding. */
  lemma DistributedMeaning(distributionType: Option<MetaValue>, maxNumber: real, currency: Currency,
                           roundings: Option<map<string, int>>, reached: seq<Recipient>, views: seq<Posting>,
                           calls: seq<Call>)
    requires |reached| == |views| && Distributed(distributionType, maxNumber, currency, roundings, reached, views) == Ok(calls)
    ensures |calls| == |reached|
    ensures forall k :: 0 <= k < |calls| ==> calls[k].to == reached[k]
    ensures PolicyOf(distributionType) != Ok(NoPolicy) ==>
      Rounding.Abs(CallSum(calls) - maxNumber) <= Tolerance(roundings, currency, |calls|)
  {
    var policy := PolicyOf(distributionType).value;
    if policy != NoPolicy {
      DistributedTotal(policy, maxNumber, roundings, currency, reached, views);
    }
  }

  /** Under "equal" every reached posting receives the amount divided by the number
      of reached postings, rounded in the source's currency. */
  lemma EqualShares(distributionType: Option<MetaValue>, maxNumber: real, currency: Currency,
                    roundings: Option<map<string, int>>, reached: seq<Recipient>, views: seq<Posting>, calls: seq<Call>)
    requires |reached| == |views| && Distributed(distributionType, maxNumber, currency, roundings, reached, views) == Ok(calls)
    requires distributionType == Some(Text("equal"))
    ensures |calls| == |views| > 0
    ensures forall k :: 0 <= k < |calls| ==> calls[k].number == Rounding.Round(roundings, maxNumber / (|views| as real), currency)
  {
    var base := NumberBase(EqualPolicy, maxNumber, views).value;
    CallsAt(roundings, currency, reached, Shares(EqualPolicy, base, views), calls, EqualPolicy, base, views);
  }

  /** Under "unit" a reached posting's share is the number base times the posting's
      own units, rounded in the source's currency (`NumberBaseValue` gives the base). */
  lemma UnitShares(distributionType: Option<MetaValue>, maxNumber: real, currency: Currency,
                   roundings: Option<map<string, int>>, reached: seq<Recipient>, views: seq<Posting>, calls: seq<Call>)
    requires |reached| == |views| && Distributed(distributionType, maxNumber, currency, roundings, reached, views) == Ok(calls)
    requires distributionType == Some(Text("unit"))
    ensures |calls| == |views|
    ensures forall k :: 0 <= k < |calls| ==>
      calls[k].number == Rounding.Round(roundings, Share(UnitPolicy, NumberBase(UnitPolicy, maxNumber, views).value, views[k]), currency)
  {
    var base := NumberBase(UnitPolicy, maxNumber, views).value;
    CallsAt(roundings, currency, reached, Shares(UnitPolicy, base, views), calls, UnitPolicy, base, views);
  }

  /** Under "meta:<field>" a reached posting's share is the number base times its
      `MetaWeight`: the `Amount` stored under the field, or 0 when it holds none. */
  lemma MetaShares(distributionType: Option<MetaValue>, maxNumber: real, currency: Currency,
                   roundings: Option<map<string, int>>, reached: seq<Recipient>, views: seq<Posting>, calls: seq<Call>,
                   field: string)
    requires |reached| == |views| && Distributed(distributionType, maxNumber, currency, roundings, reached, views) == Ok(calls)
    requires PolicyOf(distributionType) == Ok(MetaPolicy(field))
    ensures |calls| == |views|
    ensures forall k :: 0 <= k < |calls| ==>
      calls[k].number == Rounding.Round(roundings, Share(MetaPolicy(field), NumberBase(MetaPolicy(field), maxNumber, views).value, views[k]), currency)
  {
    var base := NumberBase(MetaPolicy(field), maxNumber, views).value;
    CallsAt(roundings, currency, reached, Shares(MetaPolicy(field), base, views), calls, MetaPolicy(field), base, views);
  }

  /** Under any other text every reached posting still gets a call, for a rounded 0. */
  lemma OtherShares(distributionType: Option<MetaValue>, maxNumber: real, currency: Currency,
                    roundings: Option<map<string, int>>, reached: seq<Recipient>, views: seq<Posting>, calls: seq<Call>)
    requires |reached| == |views| && Distributed(distributionType, maxNumber, currency, roundings, reached, views) == Ok(calls)
    requires PolicyOf(distributionType) == Ok(NoPolicy)
    ensures |calls| == |views|
    ensures forall k :: 0 <= k < |calls| ==> calls[k].number == Rounding.Round(roundings, 0.0, currency)
  {
    CallsAt(roundings, currency, reached, Shares(NoPolicy, 0.0, views), calls, NoPolicy, 0.0, views);
  }

  /** Each call carries its posting's share, rounded. */
  lemma CallsAt(roundings: Option<map<string, int>>, currency: Currency, reached: seq<Recipient>, shares: seq<real>,
                calls: seq<Call>, policy: Policy, base: real, views: seq<Posting>)
    requires |reached| == |shares| && calls == Calls(roundings, currency, reached, shares)
    requires shares == Shares(policy, base, views)
    ensures |calls| == |views|
    ensures forall k :: 0 <= k < |calls| ==> calls[k].number == Rounding.Round(roundings, Share(policy, base, views[k]), currency)
  {
  }

  // ---------------------------------------------------------------------------
  // Older layer: ids

  /** An older target wrapper: the target posting with the ids read from it. */
  datatype OldTarget = OldTarget(posting: Posting, ids: seq<int>)

  /** An older source wrapper. */
  datatype OldSource = OldSource(posting: Posting, distributionType: Option<MetaValue>, ids: seq<int>, maxNumber: real)

  /** The indices of the targets whose ids intersect the source's, in order. */
  function IntersectingTargets(ids: seq<int>, targets: seq<OldTarget>): (r: seq<nat>)
    ensures forall k :: 0 <= k < |r| ==> r[k] < |targets| && Ids.IsIdsIntersect(targets[r[k]].ids, ids)
  {
    if |targets| == 0 then []
    else
      var n := |targets| - 1;
      var prefix := IntersectingTargets(ids, targets[..n]);
      prefix + (if Ids.IsIdsIntersect(targets[n].ids, ids) then [n] else [])
  }

  /** Every intersecting target is found, and in increasing order. */
  lemma {:induction false} IntersectingTargetsMeaning(ids: seq<int>, targets: seq<OldTarget>)
    ensures var r := IntersectingTargets(ids, targets);
      (forall i :: 0 <= i < |targets| && Ids.IsIdsIntersect(targets[i].ids, ids) ==> i in r)
      && (forall k, l :: 0 <= k < l < |r| ==> r[k] < r[l])
    decreases |targets|
  {
    if |targets| > 0 {
      var n := |targets| - 1;
      var prefix := IntersectingTargets(ids, targets[..n]);
      IntersectingTargetsMeaning(ids, targets[..n]);
      var r := IntersectingTargets(ids, targets);
      SnocIndices(prefix, n, Ids.IsIdsIntersect(targets[n].ids, ids), r);
      forall i | 0 <= i < n && Ids.IsIdsIntersect(targets[i].ids, ids)
        ensures i in r
      {
        assert targets[..n][i] == targets[i];
      }
    }
  }

  /** Indices collected in increasing order stay increasing when one more, larger
      index is added, and none is lost. */
  lemma SnocIndices(prefix: seq<nat>, n: nat, add: bool, r: seq<nat>)
    requires r == prefix + (if add then [n] else [])
    requires forall k :: 0 <= k < |prefix| ==> prefix[k] < n
    requires forall k, l :: 0 <= k < l < |prefix| ==> prefix[k] < prefix[l]
    ensures forall k, l :: 0 <= k < l < |r| ==> r[k] < r[l]
    ensures forall i :: i in prefix ==> i in r
    ensures add ==> n in r
  {
  }

  /** The postings a source reaches: the intersecting targets, then, only for a source
      whose ids are "all", every simple posting. */
  function ReachedOld(src: OldSource, targets: seq<OldTarget>, simples: seq<Posting>): (r: seq<Recipient>)
    ensures forall k :: 0 <= k < |r| ==>
      (r[k].TargetRef? ==> r[k].index < |targets|) && (r[k].SimpleRef? ==> r[k].index < |simples|)
  {
    var hits := IntersectingTargets(src.ids, targets);
    seq(|hits|, k requires 0 <= k < |hits| => TargetRef(hits[k]))
    + (if Ids.IsIntersectWithSimplePostings(src.ids)
       then seq(|simples|, j requires 0 <= j < |simples| => SimpleRef(j)) else [])
  }

  function ViewOf(r: Recipient, targets: seq<OldTarget>, simples: seq<Posting>): Posting
    requires r.TargetRef? ==> r.index < |targets|
    requires r.SimpleRef? ==> r.index < |simples|
  {
    if r.TargetRef? then targets[r.index].posting else simples[r.index]
  }

  function ViewsOld(reached: seq<Recipient>, targets: seq<OldTarget>, simples: seq<Posting>): (r: seq<Posting>)
    requires forall k :: 0 <= k < |reached| ==>
      (reached[k].TargetRef? ==> reached[k].index < |targets|) && (reached[k].SimpleRef? ==> reached[k].index < |simples|)
    ensures |r| == |reached|
  {
    seq(|reached|, k requires 0 <= k < |reached| => ViewOf(reached[k], targets, simples))
  }

  /** The older `process_postings`. */
  function DistributeOld(src: OldSource, roundings: Option<map<string, int>>,
                         targets: seq<OldTarget>, simples: seq<Posting>): Result<seq<Call>> {
    var reached := ReachedOld(src, targets, simples);
    Distributed(src.distributionType, src.maxNumber, src.posting.units.currency, roundings,
                reached, ViewsOld(reached, targets, simples))
  }

  method ProcessPostingsOld(src: OldSource, roundings: Option<map<string, int>>,
                            targets: seq<OldTarget>, simples: seq<Posting>) returns (r: Result<seq<Call>>)
    ensures r == DistributeOld(src, roundings, targets, simples)
  {
    var reached := ReachOld(src, targets, simples);
    var views := ViewsOld(reached, targets, simples);
    r := ShareOut(src.distributionType, src.maxNumber, src.posting.units.currency, roundings, reached, views);
  }

  /** The loops of the older `process_postings` that collect the reached postings:
      the ids-intersecting targets, then every simple posting for the "all" id. */
  method ReachOld(src: OldSource, targets: seq<OldTarget>, simples: seq<Posting>) returns (reached: seq<Recipient>)
    ensures reached == ReachedOld(src, targets, simples)
  {
    var hits: seq<nat> := [];
    var i := 0;
    while i < |targets|
      invariant 0 <= i <= |targets|
      invariant hits == IntersectingTargets(src.ids, targets[..i])
    {
      assert targets[..i + 1][..i] == targets[..i];
      if Ids.IsIdsIntersect(targets[i].ids, src.ids) {
        hits := hits + [i];
      }
      i := i + 1;
    }
    assert targets[..i] == targets;
    reached := seq(|hits|, k requires 0 <= k < |hits| => TargetRef(hits[k]));
    if Ids.IsIntersectWithSimplePostings(src.ids) {
      var all: seq<Recipient> := [];
      var j := 0;
      while j < |simples|
        invariant 0 <= j <= |simples|
        invariant |all| == j && forall k :: 0 <= k < j ==> all[k] == SimpleRef(k)
      {
        all := all + [SimpleRef(j)];
        j := j + 1;
      }
      assert all == seq(|simples|, k requires 0 <= k < |simples| => SimpleRef(k));
      reached := reached + all;
    }
  }

  /** The first part of `process_postings`: the number base of the reached postings,
      the source's amount over their total units, their count or their total weight.
      A zero divisor fails. */
  method ComputeNumberBase(policy: Policy, maxNumber: real, views: seq<Posting>) returns (r: Result<real>)
    ensures r == NumberBase(policy, maxNumber, views)
  {
    var total := 0.0;
    var base := 0.0;
    match policy {
      case UnitPolicy =>
        var i := 0;
        while i < |views|
          invariant 0 <= i <= |views| && total == UnitSum(views[..i])
        {
          assert views[..i + 1][..i] == views[..i];
          total := total + views[i].units.number;
          i := i + 1;
        }
        assert views[..i] == views;
        if total == 0.0 {
          return Err("division by zero");
        }
        base := maxNumber / total;
      case EqualPolicy =>
        if |views| == 0 {
          return Err("division by zero");
        }
        base := maxNumber / (|views| as real);
      case MetaPolicy(field) =>
        var i := 0;
        while i < |views|
          invariant 0 <= i <= |views| && total == WeightSum(views[..i], field)
        {
          assert views[..i + 1][..i] == views[..i];
          var meta := if field in views[i].meta then Some(views[i].meta[field]) else None;
          if meta.Some? && meta.value.AmountValue? {
            total := total + meta.value.amount.number;
          }
          i := i + 1;
        }
        assert views[..i] == views;
        if total == 0.0 {
          return Err("division by zero");
        }
        base := maxNumber / total;
      case NoPolicy =>
    }
    r := Ok(base);
  }

  /** `Distributed`, computed with a loop over the reached postings. */
  method ShareOut(distributionType: Option<MetaValue>, maxNumber: real, currency: Currency,
                  roundings: Option<map<string, int>>, reached: seq<Recipient>, views: seq<Posting>)
    returns (r: Result<seq<Call>>)
    requires |reached| == |views|
    ensures r == Distributed(distributionType, maxNumber, currency, roundings, reached, views)
  {
    var policy := PolicyOf(distributionType);
    if policy.Err? {
      return Err(policy.error);
    }
    var numberBase := ComputeNumberBase(policy.value, maxNumber, views);
    if numberBase.Err? {
      return Err(numberBase.error);
    }
    var base := numberBase.value;
    var calls: seq<Call> := [];
    var k := 0;
    while k < |views|
      invariant 0 <= k <= |views|
      invariant |calls| == k
      invariant forall j :: 0 <= j < k ==>
        calls[j] == Call(reached[j], Rounding.Round(roundings, Share(policy.value, base, views[j]), currency))
    {
      var number := Share(policy.value, base, views[k]);
      number := Rounding.Round(roundings, number, currency);
      calls := calls + [Call(reached[k], number)];
      k := k + 1;
    }
    assert calls == Calls(roundings, currency, reached, Shares(policy.value, base, views));
    return Ok(calls);
  }

  // ---------------------------------------------------------------------------
  // Newer layer: matchers

  /** A newer source wrapper: its wrapped posting, distribution type and matcher, and
      the amount it hands out. */
  datatype NewSource = NewSource(wrap: Classification.SourceWrap, maxNumber: real)

  /** The indices of the targets whose match data the source's matcher accepts. */
  function MatchingTargets(m: Matching.Matcher, targets: seq<Classification.TargetWrap>): (r: seq<nat>)
    ensures forall k :: 0 <= k < |r| ==> r[k] < |targets| && Matching.IsMatches(m, targets[r[k]].matchData)
  {
    if |targets| == 0 then []
    else
      var n := |targets| - 1;
      MatchingTargets(m, targets[..n]) + (if Matching.IsMatches(m, targets[n].matchData) then [n] else [])
  }

  /** Every matching target is found, and in increasing order. */
  lemma {:induction false} MatchingTargetsMeaning(m: Matching.Matcher, targets: seq<Classification.TargetWrap>)
    ensures var r := MatchingTargets(m, targets);
      (forall i :: 0 <= i < |targets| && Matching.IsMatches(m, targets[i].matchData) ==> i in r)
      && (forall k, l :: 0 <= k < l < |r| ==> r[k] < r[l])
    decreases |targets|
  {
    if |targets| > 0 {
      var n := |targets| - 1;
      var prefix := MatchingTargets(m, targets[..n]);
      MatchingTargetsMeaning(m, targets[..n]);
      var r := MatchingTargets(m, targets);
      SnocIndices(prefix, n, Matching.IsMatches(m, targets[n].matchData), r);
      forall i | 0 <= i < n && Matching.IsMatches(m, targets[i].matchData)
        ensures i in r
      {
        assert targets[..n][i] == targets[i];
      }
    }
  }

  /** The targets a newer source reaches, in order. */
  function ReachedNew(src: NewSource, targets: seq<Classification.TargetWrap>): (r: seq<Recipient>)
    ensures forall k :: 0 <= k < |r| ==> r[k].TargetRef? && r[k].index < |targets|
  {
    var hits := MatchingTargets(src.wrap.matcher, targets);
    seq(|hits|, k requires 0 <= k < |hits| => TargetRef(hits[k]))
  }

  function ViewsNew(reached: seq<Recipient>, targets: seq<Classification.TargetWrap>): (r: seq<Posting>)
    requires forall k :: 0 <= k < |reached| ==> reached[k].index < |targets|
    ensures |r| == |reached|
  {
    seq(|reached|, k requires 0 <= k < |reached| => targets[reached[k].index].posting)
  }

  /** The newer `process_postings`: as the older one, over the matching targets only,
      and with nothing at all to do (not even reading the distribution type) when no
      target matches. */
  function DistributeNew(src: NewSource, roundings: Option<map<string, int>>,
                         targets: seq<Classification.TargetWrap>): Result<seq<Call>> {
    var reached := ReachedNew(src, targets);
    if |reached| == 0 then Ok([])
    else
      Distributed(src.wrap.distributionType, src.maxNumber, src.wrap.posting.units.currency, roundings,
                  reached, ViewsNew(reached, targets))
  }

  method ProcessPostingsNew(src: NewSource, roundings: Option<map<string, int>>,
                            targets: seq<Classification.TargetWrap>) returns (r: Result<seq<Call>>)
    ensures r == DistributeNew(src, roundings, targets)
  {
    var hits: seq<nat> := [];
    var i := 0;
    while i < |targets|
      invariant 0 <= i <= |targets|
      invariant hits == MatchingTargets(src.wrap.matcher, targets[..i])
    {
      assert targets[..i + 1][..i] == targets[..i];
      if Matching.IsMatches(src.wrap.matcher, targets[i].matchData) {
        hits := hits + [i];
      }
      i := i + 1;
    }
    assert targets[..i] == targets;
    if |hits| == 0 {
      return Ok([]);
    }
    var reached: seq<Recipient> := seq(|hits|, k requires 0 <= k < |hits| => TargetRef(hits[k]));
    var views := ViewsNew(reached, targets);
    r := ShareOut(src.wrap.distributionType, src.maxNumber, src.wrap.posting.units.currency, roundings, reached, views);
  }

  // ---------------------------------------------------------------------------
  // Properties of a distribution

  /** A successful distribution makes one call per reached posting, in the order the
      postings were reached, and (for a known distribution type) hands out the source's
      amount up to rounding. */
  lemma {:induction false} DistributeOldMeaning(src: OldSource, roundings: Option<map<string, int>>,
                             targets: seq<OldTarget>, simples: seq<Posting>)
    requires DistributeOld(src, roundings, targets, simples).Ok?
    ensures var calls := DistributeOld(src, roundings, targets, simples).value;
      var reached := ReachedOld(src, targets, simples);
      |calls| == |reached|
      && (forall k :: 0 <= k < |calls| ==> calls[k].to == reached[k])
      && (PolicyOf(src.distributionType) != Ok(NoPolicy) ==>
            Rounding.Abs(CallSum(calls) - src.maxNumber) <= Tolerance(roundings, src.posting.units.currency, |calls|))
  {
    var reached := ReachedOld(src, targets, simples);
    DistributedMeaning(src.distributionType, src.maxNumber, src.posting.units.currency, roundings,
                       reached, ViewsOld(reached, targets, simples), DistributeOld(src, roundings, targets, simples).value);
  }

  /** Which postings the older layer reaches: exactly the targets whose ids intersect
      the source's, and the simple postings exactly when the source's ids are "all". */
  lemma {:induction false} ReachedOldMeaning(src: OldSource, targets: seq<OldTarget>, simples: seq<Posting>)
    ensures forall i :: 0 <= i < |targets| ==>
      (TargetRef(i) in ReachedOld(src, targets, simples) <==> Ids.IsIdsIntersect(targets[i].ids, src.ids))
    ensures forall j :: 0 <= j < |simples| ==>
      (SimpleRef(j) in ReachedOld(src, targets, simples) <==> src.ids == [])
  {
    var hits := IntersectingTargets(src.ids, targets);
    IntersectingTargetsMeaning(src.ids, targets);
    var reached := ReachedOld(src, targets, simples);
    forall i | 0 <= i < |targets|
      ensures TargetRef(i) in reached <==> Ids.IsIdsIntersect(targets[i].ids, src.ids)
    {
      if Ids.IsIdsIntersect(targets[i].ids, src.ids) {
        var k :| 0 <= k < |hits| && hits[k] == i;
        assert reached[k] == TargetRef(i);
      }
    }
    forall j | 0 <= j < |simples|
      ensures SimpleRef(j) in reached <==> src.ids == []
    {
      if src.ids == [] {
        assert reached[|hits| + j] == SimpleRef(j);
      }
    }
  }

  /** A source whose distribution type is not text fails, in the older layer always
      and in the newer one as soon as any target matches. */
  lemma NonTextTypeFails(src: OldSource, nsrc: NewSource, roundings: Option<map<string, int>>,
                         targets: seq<OldTarget>, simples: seq<Posting>, ntargets: seq<Classification.TargetWrap>)
    requires !(src.distributionType.Some? && src.distributionType.value.Text?)
    requires !(nsrc.wrap.distributionType.Some? && nsrc.wrap.distributionType.value.Text?)
    ensures DistributeOld(src, roundings, targets, simples).Err?
    ensures DistributeNew(nsrc, roundings, ntargets).Err? <==> |ReachedNew(nsrc, ntargets)| > 0
  {
  }

  /** The newer layer reaches exactly the targets its matcher accepts, each once and
      in order. */
  lemma {:induction false} ReachedNewMeaning(src: NewSource, targets: seq<Classification.TargetWrap>)
    ensures var reached := ReachedNew(src, targets);
      (forall i :: 0 <= i < |targets| ==>
         (TargetRef(i) in reached <==> Matching.IsMatches(src.wrap.matcher, targets[i].matchData)))
      && (forall k, l :: 0 <= k < l < |reached| ==> reached[k].index < reached[l].index)
  {
    var hits := MatchingTargets(src.wrap.matcher, targets);
    MatchingTargetsMeaning(src.wrap.matcher, targets);
    var reached := ReachedNew(src, targets);
    forall i | 0 <= i < |targets|
      ensures TargetRef(i) in reached <==> Matching.IsMatches(src.wrap.matcher, targets[i].matchData)
    {
      if Matching.IsMatches(src.wrap.matcher, targets[i].matchData) {
        var k :| 0 <= k < |hits| && hits[k] == i;
        assert reached[k] == TargetRef(i);
      }
    }
  }

  /** A successful newer distribution makes one call per reached target, in order;
      none at all when no target matches; and for a known distribution type hands out
      the source's amount up to rounding. */
  lemma {:induction false} DistributeNewMeaning(src: NewSource, roundings: Option<map<string, int>>,
                                                targets: seq<Classification.TargetWrap>)
    requires DistributeNew(src, roundings, targets).Ok?
    ensures var calls := DistributeNew(src, roundings, targets).value;
      var reached := ReachedNew(src, targets);
      |calls| == |reached|
      && (forall k :: 0 <= k < |calls| ==> calls[k].to == reached[k])
      && (|calls| > 0 && PolicyOf(src.wrap.distributionType) != Ok(NoPolicy) ==>
            Rounding.Abs(CallSum(calls) - src.maxNumber) <= Tolerance(roundings, src.wrap.posting.units.currency, |calls|))
  {
    var reached := ReachedNew(src, targets);
    if |reached| > 0 {
      DistributedMeaning(src.wrap.distributionType, src.maxNumber, src.wrap.posting.units.currency, roundings,
                         reached, ViewsNew(reached, targets), DistributeNew(src, roundings, targets).value);
    }
  }
}
