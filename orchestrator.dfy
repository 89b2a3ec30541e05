// The entry manipulator orchestrator: it looks up the configured manipulators,
// threads every transaction through them in turn, merges the consolidation
// records they hand back, and finally renames the consolidated accounts in the
// `Open` directives and the postings.

module Orchestration {
  import opened Results
  import opened Ledger
  import Consolidation
  import Seqs

  type Record = Consolidation.Record

  /** The manipulators the factory table knows. */
  datatype ManipulatorKind =
    | TransactionSplitter
    | OriginalPrice
    | Spreader
    | Filler
    | PostingSplitter

  /** `manipulator_factories.get(type)` */
  function KindOf(name: string): (r: Option<ManipulatorKind>)
    ensures r.Some? <==> name in {"transaction-splitter", "posting-consolidator-original-price",
                                  "posting-spreader", "posting-filler", "posting-splitter"}
  {
    if name == "transaction-splitter" then Some(TransactionSplitter)
    else if name == "posting-consolidator-original-price" then Some(OriginalPrice)
    else if name == "posting-spreader" then Some(Spreader)
    else if name == "posting-filler" then Some(Filler)
    else if name == "posting-splitter" then Some(PostingSplitter)
    else None
  }

  function NotImplemented(name: string): string {
    "Manipulator type not implemented: " + name
  }

  /** `manipulator_factory(manipulator_config)`. `PostingConsolidatorFiller` hands its
      wrapper factory five arguments where `PostingWrapperFactory.__init__` takes three
      (filling/posting_consolidator_filler.py:15-18 against
      filling/posting_wrapper_factory.py:17-18), so building it always raises. */
  function Construct(k: ManipulatorKind): (r: Result<ManipulatorKind>)
    ensures r.Ok? <==> k != Filler
    ensures r.Ok? ==> r.value == k
  {
    if k == Filler then Err(FillerTypeError) else Ok(k)
  }

  const FillerTypeError := "TypeError: PostingWrapperFactory.__init__() takes 4 positional arguments but 6 were given"

  /** A configured type the factories know and can build. */
  predicate Buildable(name: string) {
    KindOf(name).Some? && Construct(KindOf(name).value).Ok?
  }

  /** What stops `get_manipulators` at a type that is not buildable. */
  function BuildFailure(name: string): string {
    if KindOf(name).None? then NotImplemented(name) else FillerTypeError
  }

  /** `get_manipulators`: one manipulator per configured type, in order; the first
      unknown type raises "not implemented", and the first "posting-filler" raises the
      filler's `TypeError`. */
  method GetManipulators(names: seq<string>) returns (r: Result<seq<ManipulatorKind>>)
    ensures r.Ok? <==> forall i :: 0 <= i < |names| ==> Buildable(names[i])
    ensures r.Ok? ==> r.value == KnownKinds(names)
    ensures r.Err? ==> exists i :: 0 <= i < |names| && !Buildable(names[i]) && r.error == BuildFailure(names[i])
                                   && forall j :: 0 <= j < i ==> Buildable(names[j])
  {
    var kinds := [];
    var i := 0;
    while i < |names|
      invariant 0 <= i <= |names| && |kinds| == i
      invariant forall j :: 0 <= j < i ==> Buildable(names[j]) && KindOf(names[j]) == Some(kinds[j])
    {
      var k := KindOf(names[i]);
      if k.None? {
        return Err(NotImplemented(names[i]));
      }
      var built := Construct(k.value);
      if built.Err? {
        return Err(built.error);
      }
      kinds := kinds + [built.value];
      i := i + 1;
    }
    r := Ok(kinds);
  }

  /** The kinds of a configuration whose names are all known. */
  function KnownKinds(names: seq<string>): (r: seq<ManipulatorKind>)
    requires forall i :: 0 <= i < |names| ==> KindOf(names[i]).Some?
    ensures |r| == |names| && forall i :: 0 <= i < |names| ==> KindOf(names[i]) == Some(r[i])
  {
    seq(|names|, i requires 0 <= i < |names| => KindOf(names[i]).value)
  }

  /** What a manipulator hands back for one transaction. */
  datatype ManipulationResult = ManipulationResult(entries: seq<Transaction>, otherData: seq<Record>)

  /** The manipulators themselves: `manipulator.execute(entry)`, or the exception it
      raises. */
  type Runner = (ManipulatorKind, Transaction) -> Result<ManipulationResult>

  /** One manipulator on every entry of the previous stage, outputs in order. */
  function Pass(run: Runner, k: ManipulatorKind, ts: seq<Transaction>): Result<ManipulationResult> {
    if |ts| == 0 then Ok(ManipulationResult([], []))
    else
      var n := |ts| - 1;
      var front :- Pass(run, k, ts[..n]);
      var last :- run(k, ts[n]);
      Ok(ManipulationResult(front.entries + last.entries, front.otherData + last.otherData))
  }

  /** Every manipulator in turn, each on every output of the one before. */
  function Chain(run: Runner, kinds: seq<ManipulatorKind>, ts: seq<Transaction>): Result<ManipulationResult> {
    if |kinds| == 0 then Ok(ManipulationResult(ts, []))
    else
      var n := |kinds| - 1;
      var before :- Chain(run, kinds[..n], ts);
      var after :- Pass(run, kinds[n], before.entries);
      Ok(ManipulationResult(after.entries, before.otherData + after.otherData))
  }

  /** The entries after the manipulators (non-transactions in place, each transaction
      replaced by its chain's outputs) and every record handed back, in order. */
  function ManipulateAll(run: Runner, kinds: seq<ManipulatorKind>, entries: seq<Entry>): Result<(seq<Entry>, seq<Record>)> {
    if |entries| == 0 then Ok(([], []))
    else
      var n := |entries| - 1;
      var front :- ManipulateAll(run, kinds, entries[..n]);
      var last :- ManipulateOne(run, kinds, entries[n]);
      Ok((front.0 + last.0, front.1 + last.1))
  }

  /** One entry: a non-transaction as it is, a transaction through the chain. */
  function ManipulateOne(run: Runner, kinds: seq<ManipulatorKind>, e: Entry): (r: Result<(seq<Entry>, seq<Record>)>)
    ensures !e.TxnEntry? ==> r == Ok(([e], []))
  {
    match e
    case TxnEntry(t) =>
      var c :- Chain(run, kinds, [t]);
      Ok((AsEntries(c.entries), c.otherData))
    case _ => Ok(([e], []))
  }

  function AsEntries(ts: seq<Transaction>): (r: seq<Entry>)
    ensures |r| == |ts| && forall i :: 0 <= i < |ts| ==> r[i] == TxnEntry(ts[i])
  {
    seq(|ts|, i requires 0 <= i < |ts| => TxnEntry(ts[i]))
  }

  /** The merge of the handed-back records: the first record per original account is
      kept, and later ones only add their additional accounts to it. */
  function Merge(m: map<Account, Record>, rs: seq<Record>): map<Account, Record> {
    if |rs| == 0 then m
    else
      var n := |rs| - 1;
      var before := Merge(m, rs[..n]);
      var rec := rs[n];
      if rec.originalAccount !in before then before[rec.originalAccount := rec]
      else
        var kept := before[rec.originalAccount];
        before[rec.originalAccount := kept.(additionalAccounts := kept.additionalAccounts + rec.additionalAccounts)]
  }

  /** The additional accounts of the records for `account`. */
  ghost function AdditionalOf(rs: seq<Record>, account: Account): set<Account> {
    if |rs| == 0 then {}
    else
      var n := |rs| - 1;
      AdditionalOf(rs[..n], account) + (if rs[n].originalAccount == account then rs[n].additionalAccounts else {})
  }

  /** Some record of `rs` is for `account`. */
  ghost predicate Mentions(rs: seq<Record>, account: Account) {
    exists i :: 0 <= i < |rs| && rs[i].originalAccount == account
  }

  /** The first record of `rs` for `account`. */
  ghost function FirstFor(rs: seq<Record>, account: Account): (r: Record)
    requires Mentions(rs, account)
    ensures r in rs && r.originalAccount == account
  {
    if rs[0].originalAccount == account then rs[0]
    else
      assert Mentions(rs[1..], account) by {
        var i :| 0 <= i < |rs| && rs[i].originalAccount == account;
        assert rs[1..][i - 1] == rs[i];
      }
      FirstFor(rs[1..], account)
  }

  lemma FirstForPrefix(rs: seq<Record>, n: nat, account: Account)
    requires n <= |rs| && Mentions(rs[..n], account)
    ensures Mentions(rs, account) && FirstFor(rs, account) == FirstFor(rs[..n], account)
    decreases n
  {
    var i :| 0 <= i < n && rs[..n][i].originalAccount == account;
    assert rs[i] == rs[..n][i];
    if rs[0].originalAccount != account {
      assert rs[1..][..n - 1] == rs[..n][1..];
      assert rs[1..][i - 1] == rs[i];
      FirstForPrefix(rs[1..], n - 1, account);
    }
  }

  /** Merging is a union per account: an account is kept when the map or a record
      mentions it; the map's record, or else the first record for the account, gives
      the names; the additional accounts are the union of all of them. */
  lemma {:induction false} MergeMeaning(m: map<Account, Record>, rs: seq<Record>, account: Account)
    requires forall a :: a in m ==> m[a].originalAccount == a
    ensures account in Merge(m, rs) <==> account in m || Mentions(rs, account)
    ensures account in Merge(m, rs) ==>
      var r := Merge(m, rs)[account];
      var names := if account in m then m[account] else FirstFor(rs, account);
      r.originalAccount == account && r.toAccount == names.toAccount
      && r.additionalAccounts == (if account in m then m[account].additionalAccounts else {}) + AdditionalOf(rs, account)
  {
    MergeKeys(m, rs, account);
    if |rs| > 0 {
      var n := |rs| - 1;
      MergeMeaning(m, rs[..n], account);
      var rec := rs[n];
      if Mentions(rs[..n], account) {
        FirstForPrefix(rs, n, account);
      }
      MentionsSnoc(rs, account);
      if !Mentions(rs[..n], account) && account !in m && rec.originalAccount == account {
        FirstForIsFirst(rs, n, account);
        AdditionalOfAbsent(rs[..n], account);
      }
    }
  }

  lemma {:induction false} MergeKeys(m: map<Account, Record>, rs: seq<Record>, account: Account)
    ensures account in Merge(m, rs) <==> account in m || Mentions(rs, account)
  {
    if |rs| > 0 {
      MergeKeys(m, rs[..|rs| - 1], account);
      MentionsSnoc(rs, account);
    }
  }

  /** `rs` mentions an account when its front does or its last record is for it. */
  lemma MentionsSnoc(rs: seq<Record>, account: Account)
    requires |rs| > 0
    ensures Mentions(rs, account) <==> Mentions(rs[..|rs| - 1], account) || rs[|rs| - 1].originalAccount == account
  {
    var n := |rs| - 1;
    if Mentions(rs, account) {
      var i :| 0 <= i < |rs| && rs[i].originalAccount == account;
      if i < n { assert rs[..n][i] == rs[i]; }
    }
    if Mentions(rs[..n], account) {
      var i :| 0 <= i < n && rs[..n][i].originalAccount == account;
      assert rs[i] == rs[..n][i];
    }
  }

  lemma {:induction false} AdditionalOfAbsent(rs: seq<Record>, account: Account)
    requires !Mentions(rs, account)
    ensures AdditionalOf(rs, account) == {}
  {
    if |rs| > 0 {
      MentionsSnoc(rs, account);
      AdditionalOfAbsent(rs[..|rs| - 1], account);
    }
  }

  lemma FirstForIsFirst(rs: seq<Record>, n: nat, account: Account)
    requires n < |rs| && rs[n].originalAccount == account && !Mentions(rs[..n], account)
    ensures Mentions(rs, account) && FirstFor(rs, account) == rs[n]
    decreases n
  {
    assert rs[n].originalAccount == account;
    if n > 0 {
      assert rs[0] == rs[..n][0];
      assert rs[1..][n - 1] == rs[n];
      MentionsTail(rs, n, account);
      FirstForIsFirst(rs[1..], n - 1, account);
    }
  }

  lemma MentionsTail(rs: seq<Record>, n: nat, account: Account)
    requires 0 < n <= |rs|
    ensures Mentions(rs[1..][..n - 1], account) ==> Mentions(rs[..n], account)
  {
    if Mentions(rs[1..][..n - 1], account) {
      var i :| 0 <= i < n - 1 && rs[1..][..n - 1][i].originalAccount == account;
      assert rs[..n][i + 1] == rs[1..][..n - 1][i];
    }
  }

  /** Manipulators that hand back their input and no records leave the transactions
      as they are. */
  lemma {:induction false} ChainIdentity(run: Runner, kinds: seq<ManipulatorKind>, ts: seq<Transaction>)
    requires forall k, t :: run(k, t) == Ok(ManipulationResult([t], []))
    ensures Chain(run, kinds, ts) == Ok(ManipulationResult(ts, []))
  {
    if |kinds| > 0 {
      var n := |kinds| - 1;
      ChainIdentity(run, kinds[..n], ts);
      PassIdentity(run, kinds[n], ts);
      var before := Chain(run, kinds[..n], ts).value;
      var after := Pass(run, kinds[n], before.entries).value;
      assert before.otherData + after.otherData == [];
    }
  }

  lemma {:induction false} PassIdentity(run: Runner, k: ManipulatorKind, ts: seq<Transaction>)
    requires forall k, t :: run(k, t) == Ok(ManipulationResult([t], []))
    ensures Pass(run, k, ts) == Ok(ManipulationResult(ts, []))
  {
    if |ts| > 0 {
      var n := |ts| - 1;
      PassIdentity(run, k, ts[..n]);
      var front := Pass(run, k, ts[..n]).value;
      var last := run(k, ts[n]).value;
      assert last == ManipulationResult([ts[n]], []);
      assert front.entries + last.entries == ts by { assert ts == ts[..n] + [ts[n]]; }
      assert front.otherData + last.otherData == [];
    }
  }

  /** Entries are treated one by one: the result for a concatenation is the two
      results concatenated, and a non-transaction entry stays in its place. */
  lemma {:induction false} ManipulateAllConcat(run: Runner, kinds: seq<ManipulatorKind>, a: seq<Entry>, b: seq<Entry>)
    requires ManipulateAll(run, kinds, a).Ok? && ManipulateAll(run, kinds, b).Ok?
    ensures ConcatHolds(run, kinds, a, b)
    decreases |b|
  {
    if |b| == 0 {
      ConcatEmpty(run, kinds, a, b);
    } else {
      var n := |b| - 1;
      ManipulateAllConcat(run, kinds, a, b[..n]);
      ConcatStep(run, kinds, a, b);
    }
  }

  /** The result for `a + b` is the results for `a` and for `b` concatenated. */
  ghost predicate ConcatHolds(run: Runner, kinds: seq<ManipulatorKind>, a: seq<Entry>, b: seq<Entry>)
    requires ManipulateAll(run, kinds, a).Ok? && ManipulateAll(run, kinds, b).Ok?
  {
    ManipulateAll(run, kinds, a + b) ==
      Ok((ManipulateAll(run, kinds, a).value.0 + ManipulateAll(run, kinds, b).value.0,
          ManipulateAll(run, kinds, a).value.1 + ManipulateAll(run, kinds, b).value.1))
  }

  lemma ConcatEmpty(run: Runner, kinds: seq<ManipulatorKind>, a: seq<Entry>, b: seq<Entry>)
    requires ManipulateAll(run, kinds, a).Ok? && b == []
    ensures ManipulateAll(run, kinds, b).Ok? && ConcatHolds(run, kinds, a, b)
  {
    assert a + b == a;
    var A := ManipulateAll(run, kinds, a).value;
    assert A.0 + [] == A.0 && A.1 + [] == A.1;
  }

  lemma ConcatStep(run: Runner, kinds: seq<ManipulatorKind>, a: seq<Entry>, b: seq<Entry>)
    requires |b| > 0 && ManipulateAll(run, kinds, a).Ok? && ManipulateAll(run, kinds, b).Ok?
    requires ManipulateAll(run, kinds, b[..|b| - 1]).Ok? && ConcatHolds(run, kinds, a, b[..|b| - 1])
    ensures ConcatHolds(run, kinds, a, b)
  {
    var n := |b| - 1;
    var front, e := b[..n], b[n];
    assert b == front + [e];
    ManipulateAllSnoc(run, kinds, front, e);
    ManipulateAllSingle(run, kinds, e);
    var A := ManipulateAll(run, kinds, a).value;
    var F := ManipulateAll(run, kinds, front).value;
    var L := ManipulateOne(run, kinds, e).value;
    ConcatUnfold(run, kinds, a, b);
    Seqs.Assoc(A.0, F.0, L.0);
    Seqs.Assoc(A.1, F.1, L.1);
  }

  /** `ManipulateAll` on `a + b` unfolded once, at the last entry of `b`. */
  lemma ConcatUnfold(run: Runner, kinds: seq<ManipulatorKind>, a: seq<Entry>, b: seq<Entry>)
    requires |b| > 0 && ManipulateAll(run, kinds, a + b[..|b| - 1]).Ok? && ManipulateOne(run, kinds, b[|b| - 1]).Ok?
    ensures ManipulateAll(run, kinds, a + b) ==
      Ok((ManipulateAll(run, kinds, a + b[..|b| - 1]).value.0 + ManipulateOne(run, kinds, b[|b| - 1]).value.0,
          ManipulateAll(run, kinds, a + b[..|b| - 1]).value.1 + ManipulateOne(run, kinds, b[|b| - 1]).value.1))
  {
    var x, e := a + b[..|b| - 1], b[|b| - 1];
    assert a + b == x + [e] by { assert b == b[..|b| - 1] + [e]; }
    ManipulateAllSnoc(run, kinds, x, e);
    ManipulateAllSingle(run, kinds, e);
  }

  /** One more entry at the end: its own result is appended. */
  lemma ManipulateAllSnoc(run: Runner, kinds: seq<ManipulatorKind>, es: seq<Entry>, e: Entry)
    ensures ManipulateAll(run, kinds, es + [e]).Ok? <==> ManipulateAll(run, kinds, es).Ok? && ManipulateAll(run, kinds, [e]).Ok?
    ensures ManipulateAll(run, kinds, es + [e]).Ok? ==>
      ManipulateAll(run, kinds, es + [e]).value ==
        (ManipulateAll(run, kinds, es).value.0 + ManipulateAll(run, kinds, [e]).value.0,
         ManipulateAll(run, kinds, es).value.1 + ManipulateAll(run, kinds, [e]).value.1)
  {
    assert (es + [e])[..|es|] == es && (es + [e])[|es|] == e;
    ManipulateAllSingle(run, kinds, e);
  }

  lemma EmptyLeft<T>(x: seq<T>) ensures [] + x == x {}

  lemma ManipulateAllSingle(run: Runner, kinds: seq<ManipulatorKind>, e: Entry)
    ensures ManipulateAll(run, kinds, [e]) == ManipulateOne(run, kinds, e)
  {
    assert [e][..0] == [];
    assert ManipulateAll(run, kinds, []) == Ok(([], []));
    var one := ManipulateOne(run, kinds, e);
    if one.Ok? {
      EmptyLeft(one.value.0);
      EmptyLeft(one.value.1);
    }
  }

  lemma NonTransactionStays(run: Runner, kinds: seq<ManipulatorKind>, e: Entry)
    requires !e.TxnEntry?
    ensures ManipulateAll(run, kinds, [e]) == Ok(([e], []))
  {
    ManipulateAllSingle(run, kinds, e);
  }

  /** The posting after consolidation: moved to the record's target account when its
      account has a record, otherwise unchanged. */
  function Renamed(m: map<Account, Record>, p: Posting): (r: Posting)
    ensures p.account in m ==> r == p.(account := m[p.account].toAccount)
    ensures p.account !in m ==> r == p
  {
    if p.account in m then p.(account := m[p.account].toAccount) else p
  }

  /** `Open(meta, date, account, currencies, booking)` for another account. */
  function OpenFor(e: Entry, account: Account): Entry
    requires e.Open?
  {
    Open(e.meta, e.date, account, e.currencies, e.booking)
  }

  /** A valid output of `consolidate_open`: the renamed `Open`, then one `Open` per
      additional account, in some order. */
  ghost predicate OpenExpansion(rec: Record, e: Entry, r: seq<Entry>)
    requires e.Open?
  {
    |r| == 1 + |rec.additionalAccounts| && r[0] == OpenFor(e, rec.toAccount)
    && (forall i :: 1 <= i < |r| ==> r[i].Open? && r[i] == OpenFor(e, r[i].account) && r[i].account in rec.additionalAccounts)
    && (forall i, j :: 1 <= i < j < |r| ==> r[i].account != r[j].account)
    && (forall a :: a in rec.additionalAccounts ==> HasOpen(r, a))
  }

  /** Some entry after the first of `r` is for `account`. */
  ghost predicate HasOpen(r: seq<Entry>, account: Account) {
    exists i :: 1 <= i < |r| && r[i].Open? && r[i].account == account
  }

  /** What `consolidate_entries` makes of one entry. */
  ghost predicate ConsolidatedAs(m: map<Account, Record>, e: Entry, r: seq<Entry>) {
    if e.Open? && e.account in m then OpenExpansion(m[e.account], e, r)
    else if e.TxnEntry? then
      r == [TxnEntry(e.txn.(postings := seq(|e.txn.postings|, i requires 0 <= i < |e.txn.postings| => Renamed(m, e.txn.postings[i]))))]
    else r == [e]
  }

  /** `r` is the entries' consolidations, one piece per entry, concatenated. */
  ghost predicate ConsolidatedAll(m: map<Account, Record>, entries: seq<Entry>, pieces: seq<seq<Entry>>, r: seq<Entry>) {
    |pieces| == |entries| && r == Flatten(pieces)
    && forall i :: 0 <= i < |entries| ==> ConsolidatedAs(m, entries[i], pieces[i])
  }

  function Flatten(pieces: seq<seq<Entry>>): seq<Entry> {
    if |pieces| == 0 then [] else Flatten(pieces[..|pieces| - 1]) + pieces[|pieces| - 1]
  }

  class Orchestrator {
    /** The merged records by original account. */
    var accountConsolidators: map<Account, Record>

    ghost predicate Valid()
      reads this
    {
      forall a :: a in accountConsolidators ==> accountConsolidators[a].originalAccount == a
    }

    constructor ()
      ensures Valid() && accountConsolidators == map[]
    {
      accountConsolidators := map[];
    }

    /** One manipulator on every entry of the previous stage. */
    static method RunPass(run: Runner, k: ManipulatorKind, ts: seq<Transaction>) returns (r: Result<ManipulationResult>)
      ensures r == Pass(run, k, ts)
    {
      var out := [];
      var other := [];
      var i := 0;
      while i < |ts|
        invariant 0 <= i <= |ts|
        invariant Pass(run, k, ts[..i]) == Ok(ManipulationResult(out, other))
      {
        assert ts[..i + 1][..i] == ts[..i] && ts[..i + 1][i] == ts[i];
        var res := run(k, ts[i]);
        if res.Err? {
          PassPrefixErr(run, k, ts, i + 1);
          return Err(res.error);
        }
        out := out + res.value.entries;
        other := other + res.value.otherData;
        i := i + 1;
      }
      assert ts[..i] == ts;
      r := Ok(ManipulationResult(out, other));
    }

    /** The manipulators in turn on one transaction. */
    static method RunChain(run: Runner, kinds: seq<ManipulatorKind>, t: Transaction) returns (r: Result<ManipulationResult>)
      ensures r == Chain(run, kinds, [t])
    {
      var current := [t];
      var other := [];
      var i := 0;
      while i < |kinds|
        invariant 0 <= i <= |kinds|
        invariant Chain(run, kinds[..i], [t]) == Ok(ManipulationResult(current, other))
      {
        assert kinds[..i + 1][..i] == kinds[..i] && kinds[..i + 1][i] == kinds[i];
        var next := RunPass(run, kinds[i], current);
        if next.Err? {
          ChainPrefixErr(run, kinds, [t], i + 1);
          return Err(next.error);
        }
        current := next.value.entries;
        other := other + next.value.otherData;
        i := i + 1;
      }
      assert kinds[..i] == kinds;
      r := Ok(ManipulationResult(current, other));
    }

    /** `manipulate_entries`: every transaction through the chain, then the records
        merged into the orchestrator's map. An exception leaves the map as it was. */
    method ManipulateEntries(entries: seq<Entry>, kinds: seq<ManipulatorKind>, run: Runner) returns (r: Result<seq<Entry>>)
      requires Valid()
      modifies this
      ensures Valid()
      ensures ManipulateAll(run, kinds, entries).Err? ==>
        r == Err(ManipulateAll(run, kinds, entries).error) && accountConsolidators == old(accountConsolidators)
      ensures ManipulateAll(run, kinds, entries).Ok? ==>
        r == Ok(ManipulateAll(run, kinds, entries).value.0)
        && accountConsolidators == Merge(old(accountConsolidators), ManipulateAll(run, kinds, entries).value.1)
    {
      var out := [];
      var other := [];
      var i := 0;
      while i < |entries|
        invariant 0 <= i <= |entries|
        invariant ManipulateAll(run, kinds, entries[..i]) == Ok((out, other))
        invariant Valid() && accountConsolidators == old(accountConsolidators)
      {
        assert entries[..i + 1][..i] == entries[..i] && entries[..i + 1][i] == entries[i];
        match entries[i] {
          case TxnEntry(t) =>
            var c := RunChain(run, kinds, t);
            if c.Err? {
              ManipulateAllPrefixErr(run, kinds, entries, i + 1);
              return Err(c.error);
            }
            out := out + AsEntries(c.value.entries);
            other := other + c.value.otherData;
          case _ =>
            out := out + [entries[i]];
            other := other + [];
        }
        i := i + 1;
      }
      assert entries[..i] == entries;
      MergeInto(other);
      r := Ok(out);
    }

    /** The merge loop over the collected records. */
    method MergeInto(rs: seq<Record>)
      requires Valid()
      modifies this
      ensures Valid() && accountConsolidators == Merge(old(accountConsolidators), rs)
    {
      var i := 0;
      while i < |rs|
        invariant 0 <= i <= |rs|
        invariant Valid() && accountConsolidators == Merge(old(accountConsolidators), rs[..i])
      {
        assert rs[..i + 1][..i] == rs[..i] && rs[..i + 1][i] == rs[i];
        var rec := rs[i];
        if rec.originalAccount !in accountConsolidators {
          accountConsolidators := accountConsolidators[rec.originalAccount := rec];
        } else {
          var kept := accountConsolidators[rec.originalAccount];
          accountConsolidators := accountConsolidators[rec.originalAccount :=
            kept.(additionalAccounts := kept.additionalAccounts + rec.additionalAccounts)];
        }
        i := i + 1;
      }
      assert rs[..i] == rs;
    }

    /** `consolidate_open`: the `Open` renamed to the record's target account, then
        an `Open` for every additional account, in the order the set yields them. */
    method ConsolidateOpen(e: Entry) returns (r: seq<Entry>)
      requires e.Open? && e.account in accountConsolidators
      ensures OpenExpansion(accountConsolidators[e.account], e, r)
    {
      var rec := accountConsolidators[e.account];
      r := [OpenFor(e, rec.toAccount)];
      var rest := rec.additionalAccounts;
      while rest != {}
        invariant rest <= rec.additionalAccounts
        invariant |r| + |rest| == 1 + |rec.additionalAccounts| && r[0] == OpenFor(e, rec.toAccount)
        invariant forall i :: 1 <= i < |r| ==>
          r[i].Open? && r[i] == OpenFor(e, r[i].account) && r[i].account in rec.additionalAccounts - rest
        invariant forall i, j :: 1 <= i < j < |r| ==> r[i].account != r[j].account
        invariant forall b :: b in rec.additionalAccounts - rest ==> HasOpen(r, b)
        decreases |rest|
      {
        var a :| a in rest;
        ghost var before := r;
        r := r + [OpenFor(e, a)];
        rest := rest - {a};
        forall b | b in rec.additionalAccounts - rest
          ensures HasOpen(r, b)
        {
          if b == a {
            assert r[|before|].account == a;
          } else {
            assert HasOpen(before, b);
            var i :| 1 <= i < |before| && before[i].Open? && before[i].account == b;
            assert r[i] == before[i];
          }
        }
      }
    }

    /** The postings of one transaction, renamed. */
    method RenamePostings(ps: seq<Posting>) returns (r: seq<Posting>)
      ensures |r| == |ps| && forall i :: 0 <= i < |ps| ==> r[i] == Renamed(accountConsolidators, ps[i])
    {
      r := [];
      var i := 0;
      while i < |ps|
        invariant 0 <= i <= |ps| && |r| == i
        invariant forall j :: 0 <= j < i ==> r[j] == Renamed(accountConsolidators, ps[j])
      {
        if ps[i].account !in accountConsolidators {
          r := r + [ps[i]];
        } else {
          r := r + [ps[i].(account := accountConsolidators[ps[i].account].toAccount)];
        }
        i := i + 1;
      }
    }

    /** `consolidate_entries`: each entry's consolidation, in order. */
    method ConsolidateEntries(entries: seq<Entry>) returns (r: seq<Entry>, ghost pieces: seq<seq<Entry>>)
      ensures ConsolidatedAll(accountConsolidators, entries, pieces, r)
    {
      r := [];
      pieces := [];
      var i := 0;
      while i < |entries|
        invariant 0 <= i <= |entries| && |pieces| == i && r == Flatten(pieces)
        invariant forall j :: 0 <= j < i ==> ConsolidatedAs(accountConsolidators, entries[j], pieces[j])
      {
        var e := entries[i];
        var piece;
        if e.Open? && e.account in accountConsolidators {
          piece := ConsolidateOpen(e);
        } else if e.TxnEntry? {
          var ps := RenamePostings(e.txn.postings);
          var m := accountConsolidators;
          assert ps == seq(|e.txn.postings|, i requires 0 <= i < |e.txn.postings| => Renamed(m, e.txn.postings[i]));
          piece := [TxnEntry(e.txn.(postings := ps))];
        } else {
          piece := [e];
        }
        assert ConsolidatedAs(accountConsolidators, e, piece);
        assert (pieces + [piece])[..i] == pieces;
        assert forall j :: 0 <= j < i ==> (pieces + [piece])[j] == pieces[j];
        pieces := pieces + [piece];
        r := r + piece;
        i := i + 1;
      }
    }

    /** `execute`: the manipulators looked up, the entries manipulated and then
        consolidated; the error list is always empty. */
    method Execute(names: seq<string>, entries: seq<Entry>, run: Runner)
      returns (r: Result<seq<Entry>>, errors: seq<string>)
      requires Valid()
      modifies this
      ensures Valid() && errors == []
      ensures (exists i :: 0 <= i < |names| && !Buildable(names[i])) ==> r.Err? && accountConsolidators == old(accountConsolidators)
      ensures (forall i :: 0 <= i < |names| ==> Buildable(names[i])) ==>
        var all := ManipulateAll(run, KnownKinds(names), entries);
        (all.Err? ==> r == Err(all.error) && accountConsolidators == old(accountConsolidators))
        && (all.Ok? ==> r.Ok? && accountConsolidators == Merge(old(accountConsolidators), all.value.1)
                        && exists pieces :: ConsolidatedAll(accountConsolidators, all.value.0, pieces, r.value))
    {
      errors := [];
      var kinds := GetManipulators(names);
      if kinds.Err? {
        return Err(kinds.error), errors;
      }
      var manipulated := ManipulateEntries(entries, kinds.value, run);
      if manipulated.Err? {
        return Err(manipulated.error), errors;
      }
      var consolidated, pieces := ConsolidateEntries(manipulated.value);
      assert ConsolidatedAll(accountConsolidators, manipulated.value, pieces, consolidated);
      r := Ok(consolidated);
    }
  }

  lemma {:induction false} PassPrefixErr(run: Runner, k: ManipulatorKind, ts: seq<Transaction>, n: nat)
    requires n <= |ts| && Pass(run, k, ts[..n]).Err?
    ensures Pass(run, k, ts) == Err(Pass(run, k, ts[..n]).error)
    decreases |ts| - n
  {
    if n < |ts| {
      assert ts[..n + 1][..n] == ts[..n];
      PassPrefixErr(run, k, ts, n + 1);
    } else {
      assert ts[..n] == ts;
    }
  }

  lemma {:induction false} ChainPrefixErr(run: Runner, kinds: seq<ManipulatorKind>, ts: seq<Transaction>, n: nat)
    requires n <= |kinds| && Chain(run, kinds[..n], ts).Err?
    ensures Chain(run, kinds, ts) == Err(Chain(run, kinds[..n], ts).error)
    decreases |kinds| - n
  {
    if n < |kinds| {
      assert kinds[..n + 1][..n] == kinds[..n];
      ChainPrefixErr(run, kinds, ts, n + 1);
    } else {
      assert kinds[..n] == kinds;
    }
  }

  lemma {:induction false} ManipulateAllPrefixErr(run: Runner, kinds: seq<ManipulatorKind>, entries: seq<Entry>, n: nat)
    requires n <= |entries| && ManipulateAll(run, kinds, entries[..n]).Err?
    ensures ManipulateAll(run, kinds, entries) == Err(ManipulateAll(run, kinds, entries[..n]).error)
    decreases |entries| - n
  {
    if n < |entries| {
      assert entries[..n + 1][..n] == entries[..n];
      ManipulateAllPrefixErr(run, kinds, entries, n + 1);
    } else {
      assert entries[..n] == entries;
    }
  }
}
