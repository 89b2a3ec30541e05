/** How the newer layer names the sub-account a spread share is booked to
    (posting_wrapping/account_naming) and where it reads a source's distribution type
    (posting_wrapping/values). Each strategy class is one variant. */
module Naming {
  import opened Results
  import opened Ledger
  import Text

  datatype AccountNamer =
    | FixAccountNamer(postfix: string)
    | ReuseLastPartAccountNamer(isSourceUsed: bool)
    | MetadataAccountNamer(isSourceUsed: bool, metadataName: string)

  /** The last `:`-separated part of an account name. */
  function LastPart(account: Account): string {
    Text.LastSegment(account, ":")
  }

  /** `namer.get_account_name(source, target)`; `None` is Python's `None` from a
      metadata lookup that found nothing. */
  function GetAccountName(n: AccountNamer, source: Posting, target: Posting): (r: Option<MetaValue>)
    ensures n.FixAccountNamer? ==> r == Some(Text(n.postfix))
    ensures n.MetadataAccountNamer? ==>
      var p := if n.isSourceUsed then source else target;
      r == if n.metadataName in p.meta then Some(p.meta[n.metadataName]) else None
  {
    match n
    case FixAccountNamer(postfix) => Some(Text(postfix))
    case ReuseLastPartAccountNamer(isSourceUsed) =>
      Some(Text(LastPart(if isSourceUsed then source.account else target.account)))
    case MetadataAccountNamer(isSourceUsed, name) =>
      var p := if isSourceUsed then source else target;
      if name in p.meta then Some(p.meta[name]) else None
  }

  /** The reuse-last-part namer names the share after the chosen posting's own leaf
      account: all of that account when it has no colon, and otherwise everything
      after its last colon. */
  lemma ReuseLastPartIsLeaf(isSourceUsed: bool, source: Posting, target: Posting)
    ensures var chosen := if isSourceUsed then source.account else target.account;
      var r := GetAccountName(ReuseLastPartAccountNamer(isSourceUsed), source, target);
      r.Some? && r.value.Text?
      && |r.value.text| <= |chosen|
      && chosen[|chosen| - |r.value.text|..] == r.value.text
      && ':' !in r.value.text
      && (':' !in chosen ==> r.value.text == chosen)
      && (':' in chosen ==> |r.value.text| < |chosen| && chosen[|chosen| - |r.value.text| - 1] == ':')
  {
    var chosen := if isSourceUsed then source.account else target.account;
    LastPartSuffix(chosen);
    if ':' in chosen {
      LastPartAfterColon(chosen);
    } else {
      LastPartOfLeaf(chosen);
    }
  }

  /** The last part is a colon-free suffix of the account. */
  lemma LastPartSuffix(account: Account)
    ensures |LastPart(account)| <= |account| && account[|account| - |LastPart(account)|..] == LastPart(account)
    ensures ':' !in LastPart(account)
  {
    Text.LastSegmentSuffix(account, ":");
    Text.ContainsChar(LastPart(account), ':');
  }

  /** In an account with a colon, the last part comes right after a colon. */
  lemma LastPartAfterColon(account: Account)
    requires ':' in account
    ensures |LastPart(account)| < |account| && account[|account| - |LastPart(account)| - 1] == ':'
  {
    Text.ContainsChar(account, ':');
    Text.LastSegmentAfterSeparator(account, ":");
    Text.OccursAtChar(account, ':', |account| - |LastPart(account)| - 1);
  }

  /** An account with no colon is its own last part. */
  lemma LastPartOfLeaf(account: Account)
    requires ':' !in account
    ensures LastPart(account) == account
  {
    Text.ContainsChar(account, ':');
    Text.SplitSingle(account, ":");
  }

  datatype ValueGetter =
    | FixedValueGetter(value: string)
    | MetadataValueGetter(metadataName: string)

  /** `getter.get_value(posting)` */
  function GetValue(g: ValueGetter, p: Posting): (r: Option<MetaValue>)
    ensures g.FixedValueGetter? ==> r == Some(Text(g.value))
    ensures g.MetadataValueGetter? ==> (r.Some? <==> g.metadataName in p.meta)
    ensures g.MetadataValueGetter? && r.Some? ==> r.value == p.meta[g.metadataName]
  {
    match g
    case FixedValueGetter(v) => Some(Text(v))
    case MetadataValueGetter(name) => if name in p.meta then Some(p.meta[name]) else None
  }
}
