/** The work-list transaction splitter: a posting tagged with a date key is split
    off into a second transaction on that date, the two halves joined by a pair of
    transfer postings; each half goes back on the work list until no posting of it
    triggers a split. */
module TransactionSplitter {
  import opened Results
  import opened Ledger

  /** The manipulator's configuration. `moveMode` is `None` when the
      `dated-posting-move-mode` key is absent; `accountFilter` stands for the
      regular-expression search of the `account` key, when configured. */
  datatype SplitConfig = SplitConfig(
    metadataNameDate: string,
    metadataNameTransferAccount: Option<string>,
    transferAccount: Option<Account>,
    moveMode: Option<string>,
    accountFilter: Option<Account -> bool>,
    stayedNarration: Option<string>,
    movedNarration: Option<string>,
    metadataNameMovedNarration: Option<string>)

  /** A transfer account comes from posting metadata or from the configuration. */
  predicate HasTransfer(cfg: SplitConfig) {
    cfg.metadataNameTransferAccount.Some? || cfg.transferAccount.Some?
  }

  /** The keys the main posting's copy loses: the date key, the transfer-account key
      when configured, and the moved-narration key when configured and non-empty. */
  function Removal(cfg: SplitConfig): set<string> {
    {cfg.metadataNameDate} + TransferKey(cfg) + MovedNarrationKey(cfg)
  }

  function TransferKey(cfg: SplitConfig): set<string> {
    if cfg.metadataNameTransferAccount.Some? then {cfg.metadataNameTransferAccount.value} else {}
  }

  function MovedNarrationKey(cfg: SplitConfig): set<string> {
    match cfg.metadataNameMovedNarration
    case Some(k) => if k != "" then {k} else {}
    case None => {}
  }

  /** The posting is dated and passes the account filter. */
  predicate Triggers(cfg: SplitConfig, p: Posting) {
    cfg.metadataNameDate in p.meta && (cfg.accountFilter.None? || cfg.accountFilter.value(p.account))
  }

  /** `__get_narration`: the stayed and the moved narration. A moved narration read
      from the posting's metadata that is `None` falls back to the transaction's
      narration, not to the configured one. */
  function Narrations(cfg: SplitConfig, t: Transaction, p: Posting): (r: Result<(string, string)>)
    ensures r.Ok? ==> r.value.0 == cfg.stayedNarration.GetOr(t.narration)
    ensures (cfg.metadataNameMovedNarration.None? || cfg.metadataNameMovedNarration.value !in p.meta) ==>
      r == Ok((cfg.stayedNarration.GetOr(t.narration), cfg.movedNarration.GetOr(t.narration)))
    ensures cfg.metadataNameMovedNarration.Some? && cfg.metadataNameMovedNarration.value in p.meta ==>
      match p.meta[cfg.metadataNameMovedNarration.value]
      case Text(s) => r.Ok? && r.value.1 == s
      case NoneValue => r.Ok? && r.value.1 == t.narration
      case _ => r.Err?
  {
    var stayed := cfg.stayedNarration.GetOr(t.narration);
    match cfg.metadataNameMovedNarration
    case Some(k) =>
      if k in p.meta then
        match p.meta[k]
        case Text(s) => Ok((stayed, s))
        case NoneValue => Ok((stayed, t.narration))
        case _ => Err("moved narration is not a string")
      else Ok((stayed, cfg.movedNarration.GetOr(t.narration)))
    case None => Ok((stayed, cfg.movedNarration.GetOr(t.narration)))
  }

  /** `transfer_account_get(posting)`: the metadata value (`meta.get`, so `None` when
      the key is absent or holds `None`), or the configured account. */
  function TransferAccountOf(cfg: SplitConfig, p: Posting): (r: Result<Option<Account>>)
    requires HasTransfer(cfg)
    ensures cfg.metadataNameTransferAccount.None? ==> r == Ok(cfg.transferAccount)
    ensures cfg.metadataNameTransferAccount.Some? ==>
      var k := cfg.metadataNameTransferAccount.value;
      (r == Ok(None) <==> k !in p.meta || p.meta[k] == NoneValue)
      && (k in p.meta && p.meta[k].Text? ==> r == Ok(Some(p.meta[k].text)))
      && (r.Err? <==> k in p.meta && !p.meta[k].Text? && p.meta[k] != NoneValue)
  {
    match cfg.metadataNameTransferAccount
    case Some(k) =>
      if k !in p.meta || p.meta[k] == NoneValue then Ok(None)
      else if p.meta[k].Text? then Ok(Some(p.meta[k].text))
      else Err("transfer account is not a string")
    case None => Ok(cfg.transferAccount)
  }

  /** `__get_date` */
  function DateOf(cfg: SplitConfig, p: Posting): Result<Date>
    requires cfg.metadataNameDate in p.meta
  {
    match p.meta[cfg.metadataNameDate]
    case DateValue(d) => Ok(d)
    case _ => Err("split date is not a date")
  }

  /** `__create_transfer_posting`: the posting's units, negated when it balances the
      main posting, on the transfer account, with nothing else. */
  function TransferPosting(p: Posting, account: Account, withMain: bool): (r: Posting)
    ensures r.units == (if withMain then Neg(p.units) else p.units)
    ensures r.account == account && r.cost.None? && r.price.None? && r.flag.None? && r.meta == map[]
  {
    Posting(account, if withMain then Neg(p.units) else p.units, None, None, None, map[])
  }

  /** `__get_main_posting_copy` */
  function MainCopy(p: Posting, keys: set<string>): (r: Posting)
    ensures r.meta.Keys == p.meta.Keys - keys && forall k :: k in r.meta ==> r.meta[k] == p.meta[k]
    ensures r.account == p.account && r.units == p.units && r.cost == p.cost && r.price == p.price && r.flag == p.flag
  {
    p.(meta := Without(p.meta, keys))
  }

  /** `filter(lambda q: q != p, postings)`: every posting equal to `p` is dropped,
      the others keep their order. */
  function Others(ps: seq<Posting>, p: Posting): (r: seq<Posting>)
    ensures forall q :: multiset(r)[q] == if q == p then 0 else multiset(ps)[q]
  {
    if |ps| == 0 then []
    else
      assert ps == [ps[0]] + ps[1..];
      if ps[0] == p then Others(ps[1..], p) else [ps[0]] + Others(ps[1..], p)
  }

  /** The two halves of a split on `p`: in `stay` mode the original keeps the main
      posting and a balancing transfer, and the new one takes the others and the
      opposite transfer; `move` swaps the two posting lists. */
  ghost predicate SplitHalves(cfg: SplitConfig, t: Transaction, p: Posting, account: Account, a: Transaction, b: Transaction)
    requires cfg.moveMode.Some? && cfg.metadataNameDate in p.meta
  {
    Narrations(cfg, t, p).Ok? && DateOf(cfg, p).Ok?
    && var narrations := Narrations(cfg, t, p).value;
    var kept := [MainCopy(p, Removal(cfg)), TransferPosting(p, account, true)];
    var rest := Others(t.postings, p) + [TransferPosting(p, account, false)];
    a == t.(narration := narrations.0, postings := if cfg.moveMode.value == "stay" then kept else rest)
    && b == t.(date := DateOf(cfg, p).value, narration := narrations.1,
               postings := if cfg.moveMode.value == "stay" then rest else kept)
  }

  /** `__process_posting`: the pair (original, new) when `p` splits `t`, `None`
      when it does not, or the error raised on the way. */
  function Split(cfg: SplitConfig, t: Transaction, p: Posting): (r: Result<Option<(Transaction, Transaction)>>)
    requires HasTransfer(cfg)
    ensures cfg.moveMode.None? ==> r.Err?
    ensures cfg.moveMode.Some? && !Triggers(cfg, p) ==> r == Ok(None)
    ensures cfg.moveMode.Some? && Triggers(cfg, p) && cfg.moveMode.value != "stay" && cfg.moveMode.value != "move" ==> r.Ok? ==> r.value.None?
    ensures r.Ok? && r.value.Some? ==>
      Triggers(cfg, p) && cfg.moveMode.value in {"stay", "move"}
      && TransferAccountOf(cfg, p).Ok? && TransferAccountOf(cfg, p).value.Some?
      && SplitHalves(cfg, t, p, TransferAccountOf(cfg, p).value.value, r.value.value.0, r.value.value.1)
  {
    if cfg.moveMode.None? then Err("KeyError: dated-posting-move-mode")
    else if !Triggers(cfg, p) then Ok(None)
    else
      var narrations :- Narrations(cfg, t, p);
      var account :- TransferAccountOf(cfg, p);
      var mode := cfg.moveMode.value;
      if account.None? || (mode != "stay" && mode != "move") then Ok(None)
      else
        var date :- DateOf(cfg, p);
        var kept := [MainCopy(p, Removal(cfg)), TransferPosting(p, account.value, true)];
        var rest := Others(t.postings, p) + [TransferPosting(p, account.value, false)];
        var a := t.(narration := narrations.0, postings := if mode == "stay" then kept else rest);
        var b := t.(date := date, narration := narrations.1, postings := if mode == "stay" then rest else kept);
        Ok(Some((a, b)))
  }

  /** `__process_entry` on the postings `ps`: the first posting's split, in order. */
  function FirstSplit(cfg: SplitConfig, t: Transaction, ps: seq<Posting>): (r: Result<Option<(Transaction, Transaction)>>)
    requires HasTransfer(cfg)
    ensures r == Ok(None) <==> forall i :: 0 <= i < |ps| ==> Split(cfg, t, ps[i]) == Ok(None)
    ensures r != Ok(None) ==> exists i :: 0 <= i < |ps| && Split(cfg, t, ps[i]) == r
                                           && forall j :: 0 <= j < i ==> Split(cfg, t, ps[j]) == Ok(None)
  {
    if |ps| == 0 then Ok(None)
    else
      var s := Split(cfg, t, ps[0]);
      if s != Ok(None) then s
      else
        var rest := FirstSplit(cfg, t, ps[1..]);
        assert forall i :: 1 <= i < |ps| ==> ps[1..][i - 1] == ps[i];
        rest
  }

  /** The number of postings carrying `key` in their metadata. */
  function Tagged(key: string, ps: seq<Posting>): nat {
    if |ps| == 0 then 0 else (if key in ps[0].meta then 1 else 0) + Tagged(key, ps[1..])
  }

  /** The dated postings still waiting in the work list. */
  function Pending(key: string, queue: seq<Transaction>): nat {
    if |queue| == 0 then 0 else Tagged(key, queue[0].postings) + Pending(key, queue[1..])
  }

  lemma {:induction false} TaggedConcat(key: string, a: seq<Posting>, b: seq<Posting>)
    ensures Tagged(key, a + b) == Tagged(key, a) + Tagged(key, b)
    decreases |a|
  {
    if |a| > 0 {
      assert (a + b)[0] == a[0] && (a + b)[1..] == a[1..] + b;
      TaggedConcat(key, a[1..], b);
    } else {
      assert a + b == b;
    }
  }

  lemma {:induction false} PendingConcat(key: string, a: seq<Transaction>, b: seq<Transaction>)
    ensures Pending(key, a + b) == Pending(key, a) + Pending(key, b)
    decreases |a|
  {
    if |a| > 0 {
      assert (a + b)[0] == a[0] && (a + b)[1..] == a[1..] + b;
      PendingConcat(key, a[1..], b);
    } else {
      assert a + b == b;
    }
  }

  /** Dropping a dated posting drops at least one dated posting. */
  lemma {:induction false} OthersTagged(key: string, ps: seq<Posting>, p: Posting)
    requires p in ps && key in p.meta
    ensures Tagged(key, Others(ps, p)) < Tagged(key, ps)
    decreases |ps|
  {
    if ps[0] == p {
      OthersNotMore(key, ps[1..], p);
    } else {
      OthersTagged(key, ps[1..], p);
      TaggedCons(key, ps[0], Others(ps[1..], p));
    }
  }

  lemma {:induction false} OthersNotMore(key: string, ps: seq<Posting>, p: Posting)
    ensures Tagged(key, Others(ps, p)) <= Tagged(key, ps)
    decreases |ps|
  {
    if |ps| > 0 {
      OthersNotMore(key, ps[1..], p);
      TaggedCons(key, ps[0], Others(ps[1..], p));
    }
  }

  lemma TaggedCons(key: string, q: Posting, ps: seq<Posting>)
    ensures Tagged(key, [q] + ps) == (if key in q.meta then 1 else 0) + Tagged(key, ps)
  {
    assert ([q] + ps)[0] == q && ([q] + ps)[1..] == ps;
  }

  /** Two more transactions at the back of the queue add their dated postings. */
  lemma PendingPair(key: string, q: seq<Transaction>, a: Transaction, b: Transaction)
    ensures Pending(key, q + [a, b]) == Pending(key, q) + Tagged(key, a.postings) + Tagged(key, b.postings)
  {
    PendingConcat(key, q, [a, b]);
    assert [a, b][0] == a && [a, b][1..] == [b];
    assert [b][0] == b && [b][1..] == [];
    assert Pending(key, [b]) == Tagged(key, b.postings) + Pending(key, []);
    assert Pending(key, [a, b]) == Tagged(key, a.postings) + Pending(key, [b]);
  }

  /** A split leaves fewer dated postings in its two halves than the transaction had:
      the main copy has lost its date key and transfer postings carry no metadata. */
  lemma SplitShrinks(cfg: SplitConfig, t: Transaction, p: Posting)
    requires HasTransfer(cfg) && p in t.postings && Split(cfg, t, p).Ok? && Split(cfg, t, p).value.Some?
    ensures var (a, b) := Split(cfg, t, p).value.value;
      Tagged(cfg.metadataNameDate, a.postings) + Tagged(cfg.metadataNameDate, b.postings)
      < Tagged(cfg.metadataNameDate, t.postings)
  {
    var key := cfg.metadataNameDate;
    var account := TransferAccountOf(cfg, p).value.value;
    var kept := [MainCopy(p, Removal(cfg)), TransferPosting(p, account, true)];
    var rest := Others(t.postings, p) + [TransferPosting(p, account, false)];
    assert key in Removal(cfg);
    TaggedCons(key, kept[0], [kept[1]]);
    TaggedCons(key, kept[1], []);
    assert kept == [kept[0]] + [kept[1]] && [kept[1]] == [kept[1]] + [];
    var one := [TransferPosting(p, account, false)];
    TaggedCons(key, one[0], []);
    assert one == [one[0]] + [];
    TaggedConcat(key, Others(t.postings, p), one);
    OthersTagged(key, t.postings, p);
  }

  /** The first split of a transaction shrinks it as well. */
  lemma FirstSplitShrinks(cfg: SplitConfig, t: Transaction)
    requires HasTransfer(cfg) && FirstSplit(cfg, t, t.postings).Ok? && FirstSplit(cfg, t, t.postings).value.Some?
    ensures var (a, b) := FirstSplit(cfg, t, t.postings).value.value;
      Tagged(cfg.metadataNameDate, a.postings) + Tagged(cfg.metadataNameDate, b.postings)
      < Tagged(cfg.metadataNameDate, t.postings)
  {
    var i :| 0 <= i < |t.postings| && Split(cfg, t, t.postings[i]) == FirstSplit(cfg, t, t.postings);
    SplitShrinks(cfg, t, t.postings[i]);
  }

  /** The work-list loop of `execute`: the head is split and its halves queued at
      the back, or it is done. It terminates because every split lowers the number
      of dated postings waiting, and every other step shortens the queue. */
  function Drain(cfg: SplitConfig, queue: seq<Transaction>, done: seq<Transaction>): Result<seq<Transaction>>
    requires HasTransfer(cfg)
    decreases Pending(cfg.metadataNameDate, queue), |queue|
  {
    if |queue| == 0 then Ok(done)
    else
      var s :- FirstSplit(cfg, queue[0], queue[0].postings);
      match s
      case None => Drain(cfg, queue[1..], done + [queue[0]])
      case Some(halves) =>
        FirstSplitShrinks(cfg, queue[0]);
        PendingPair(cfg.metadataNameDate, queue[1..], halves.0, halves.1);
        Drain(cfg, queue[1..] + [halves.0, halves.1], done)
  }

  /** `execute`: without any transfer account configured the transaction is
      returned as it is; otherwise the work list is drained. */
  function SplitTransaction(cfg: SplitConfig, t: Transaction): (r: Result<seq<Transaction>>)
    ensures !HasTransfer(cfg) ==> r == Ok([t])
  {
    if !HasTransfer(cfg) then Ok([t]) else Drain(cfg, [t], [])
  }

  /** A transaction none of whose postings splits it. */
  ghost predicate Settled(cfg: SplitConfig, t: Transaction)
    requires HasTransfer(cfg)
  {
    FirstSplit(cfg, t, t.postings) == Ok(None)
  }

  /** Everything the work list hands back is settled. */
  lemma {:induction false} DrainSettled(cfg: SplitConfig, queue: seq<Transaction>, done: seq<Transaction>)
    requires HasTransfer(cfg) && forall i :: 0 <= i < |done| ==> Settled(cfg, done[i])
    requires Drain(cfg, queue, done).Ok?
    ensures forall i :: 0 <= i < |Drain(cfg, queue, done).value| ==> Settled(cfg, Drain(cfg, queue, done).value[i])
    decreases Pending(cfg.metadataNameDate, queue), |queue|
  {
    if |queue| > 0 {
      var s := FirstSplit(cfg, queue[0], queue[0].postings).value;
      match s
      case None =>
        var done' := done + [queue[0]];
        assert forall i :: 0 <= i < |done'| ==> Settled(cfg, done'[i]) by {
          assert forall i :: 0 <= i < |done| ==> done'[i] == done[i];
        }
        DrainSettled(cfg, queue[1..], done');
      case Some(halves) =>
        FirstSplitShrinks(cfg, queue[0]);
        PendingPair(cfg.metadataNameDate, queue[1..], halves.0, halves.1);
        DrainSettled(cfg, queue[1..] + [halves.0, halves.1], done);
    }
  }

  /** Every transaction `execute` returns is settled: no posting of it would split
      it again. */
  lemma SplitTransactionSettled(cfg: SplitConfig, t: Transaction)
    requires HasTransfer(cfg) && SplitTransaction(cfg, t).Ok?
    ensures forall i :: 0 <= i < |SplitTransaction(cfg, t).value| ==> Settled(cfg, SplitTransaction(cfg, t).value[i])
  {
    DrainSettled(cfg, [t], []);
  }

  /** The number of postings of `ps` equal to `p`. */
  function Count(ps: seq<Posting>, p: Posting): (r: nat)
    ensures r == multiset(ps)[p]
  {
    if |ps| == 0 then 0
    else
      assert ps == [ps[0]] + ps[1..];
      (if ps[0] == p then 1 else 0) + Count(ps[1..], p)
  }


  /** Dropping every copy of `p` drops its units once per copy. */
  lemma {:induction false} OthersSum(ps: seq<Posting>, p: Posting, currency: Currency)
    ensures CurrencySum(Others(ps, p), currency) == CurrencySum(ps, currency) - Times(Count(ps, p), UnitsIn(p, currency))
    decreases |ps|
  {
    if |ps| > 0 {
      var head, rest := ps[0], ps[1..];
      var kept := Others(rest, p);
      var n := Count(rest, p);
      OthersSum(rest, p, currency);
      UnfoldFront(ps, p, kept, n);
      CurrencySumCons(head, rest, currency);
      CurrencySumCons(head, kept, currency);
      DropStep(UnitsIn(head, currency), CurrencySum(rest, currency), CurrencySum(kept, currency),
               UnitsIn(p, currency), n, head == p);
    }
  }

  /** One unfolding of `Others` and `Count` at the front of `ps`. */
  lemma UnfoldFront(ps: seq<Posting>, p: Posting, kept: seq<Posting>, n: nat)
    requires |ps| > 0 && kept == Others(ps[1..], p) && n == Count(ps[1..], p)
    ensures ps == [ps[0]] + ps[1..]
    ensures Others(ps, p) == if ps[0] == p then kept else [ps[0]] + kept
    ensures Count(ps, p) == if ps[0] == p then n + 1 else n
  {
    assert ps == [ps[0]] + ps[1..];
  }

  /** Putting one posting in front: a copy of the main posting adds one more copy to
      take off, any other posting is kept on both sides. */
  lemma DropStep(head: real, sumRest: real, othersRest: real, u: real, n: nat, isMain: bool)
    requires othersRest == sumRest - Times(n, u)
    requires isMain ==> head == u
    ensures isMain ==> othersRest == (head + sumRest) - Times(n + 1, u)
    ensures !isMain ==> head + othersRest == (head + sumRest) - Times(n, u)
  {
    assert Times(n + 1, u) == Times(n, u) + u;
  }

  /** The half holding the main copy balances on its own; the other half sums to
      what the transaction summed to, less the main posting's units for every copy
      of it beyond the first. With the main posting occurring once, a balanced
      transaction splits into two balanced ones. */
  lemma SplitBalances(cfg: SplitConfig, t: Transaction, p: Posting, currency: Currency)
    requires HasTransfer(cfg) && Split(cfg, t, p).Ok? && Split(cfg, t, p).value.Some?
    ensures var (a, b) := Split(cfg, t, p).value.value;
      var (withMain, withOthers) := if cfg.moveMode.value == "stay" then (a, b) else (b, a);
      CurrencySum(withMain.postings, currency) == 0.0
      && CurrencySum(withOthers.postings, currency)
         == CurrencySum(t.postings, currency) - Times(Count(t.postings, p), UnitsIn(p, currency)) + UnitsIn(p, currency)
  {
    var account := TransferAccountOf(cfg, p).value.value;
    var copy := MainCopy(p, Removal(cfg));
    var back := TransferPosting(p, account, true);
    CurrencySumCons(copy, [back], currency);
    CurrencySumCons(back, [], currency);
    assert [copy, back] == [copy] + [back] && [back] == [back] + [];
    var one := [TransferPosting(p, account, false)];
    CurrencySumCons(one[0], [], currency);
    assert one == [one[0]] + [];
    OthersSum(t.postings, p, currency);
    CurrencySumConcat(Others(t.postings, p), one, currency);
  }

  /** A balanced transaction whose main posting occurs once splits into two
      balanced transactions. */
  lemma SplitKeepsBalance(cfg: SplitConfig, t: Transaction, p: Posting)
    requires HasTransfer(cfg) && Split(cfg, t, p).Ok? && Split(cfg, t, p).value.Some?
    requires Balanced(t.postings) && Count(t.postings, p) == 1
    ensures Balanced(Split(cfg, t, p).value.value.0.postings) && Balanced(Split(cfg, t, p).value.value.1.postings)
  {
    forall c: Currency
      ensures CurrencySum(Split(cfg, t, p).value.value.0.postings, c) == 0.0
      ensures CurrencySum(Split(cfg, t, p).value.value.1.postings, c) == 0.0
    {
      SplitBalances(cfg, t, p, c);
      assert Times(1, UnitsIn(p, c)) == UnitsIn(p, c);
    }
  }

  /** The queue of `execute` and the keys removed so far. */
  method Execute(cfg: SplitConfig, t: Transaction) returns (r: Result<seq<Transaction>>)
    ensures r == SplitTransaction(cfg, t)
  {
    var names := {cfg.metadataNameDate};
    if cfg.metadataNameTransferAccount.Some? {
      names := names + {cfg.metadataNameTransferAccount.value};
    } else if cfg.transferAccount.Some? {
    } else {
      return Ok([t]);
    }
    var done := [];
    var queue := [t];
    while |queue| > 0
      invariant names + MovedNarrationKey(cfg) == Removal(cfg)
      invariant Drain(cfg, queue, done) == Drain(cfg, [t], [])
      decreases Pending(cfg.metadataNameDate, queue), |queue|
    {
      var main := queue[0];
      var s;
      s, names := ProcessEntry(cfg, main, names);
      if s.Err? {
        return Err(s.error);
      }
      match s.value
      case None =>
        queue := queue[1..];
        done := done + [main];
      case Some(halves) =>
        FirstSplitShrinks(cfg, main);
        PendingPair(cfg.metadataNameDate, queue[1..], halves.0, halves.1);
        queue := queue[1..] + [halves.0, halves.1];
    }
    r := Ok(done);
  }

  /** `__process_entry`: the postings in order until one splits the transaction. */
  method ProcessEntry(cfg: SplitConfig, t: Transaction, names: set<string>)
    returns (r: Result<Option<(Transaction, Transaction)>>, names': set<string>)
    requires HasTransfer(cfg) && names + MovedNarrationKey(cfg) == Removal(cfg)
    ensures r == FirstSplit(cfg, t, t.postings) && names' + MovedNarrationKey(cfg) == Removal(cfg)
  {
    names' := names;
    var i := 0;
    while i < |t.postings|
      invariant 0 <= i <= |t.postings| && names' + MovedNarrationKey(cfg) == Removal(cfg)
      invariant FirstSplit(cfg, t, t.postings) == FirstSplit(cfg, t, t.postings[i..])
    {
      assert t.postings[i..][0] == t.postings[i] && t.postings[i..][1..] == t.postings[i + 1..];
      var s;
      s, names' := ProcessPosting(cfg, t, t.postings[i], names');
      if s != Ok(None) {
        return s, names';
      }
      i := i + 1;
    }
    r := Ok(None);
  }

  /** `__process_posting`, adding the moved-narration key to the keys to remove once
      a dated posting passes the filter. */
  method ProcessPosting(cfg: SplitConfig, t: Transaction, p: Posting, names: set<string>)
    returns (r: Result<Option<(Transaction, Transaction)>>, names': set<string>)
    requires HasTransfer(cfg) && names + MovedNarrationKey(cfg) == Removal(cfg)
    ensures r == Split(cfg, t, p) && names' + MovedNarrationKey(cfg) == Removal(cfg)
  {
    names' := names;
    if cfg.moveMode.None? {
      return Err("KeyError: dated-posting-move-mode"), names';
    }
    var mode := cfg.moveMode.value;
    if cfg.metadataNameDate !in p.meta {
      return Ok(None), names';
    }
    if cfg.accountFilter.Some? && !cfg.accountFilter.value(p.account) {
      return Ok(None), names';
    }
    var narrations := Narrations(cfg, t, p);
    if narrations.Err? {
      return Err(narrations.error), names';
    }
    if cfg.metadataNameMovedNarration.Some? && cfg.metadataNameMovedNarration.value != "" {
      names' := names' + {cfg.metadataNameMovedNarration.value};
    }
    assert names' == Removal(cfg);
    var copy := MainPostingCopy(p, names');
    var others := Others(t.postings, p);
    var account := TransferAccountOf(cfg, p);
    if account.Err? {
      return Err(account.error), names';
    }
    if account.value.None? {
      return Ok(None), names';
    }
    var a, b;
    if mode == "stay" {
      a := t.(narration := narrations.value.0,
              postings := [copy, TransferPosting(p, account.value.value, true)]);
      b := others + [TransferPosting(p, account.value.value, false)];
    } else if mode == "move" {
      a := t.(narration := narrations.value.0,
              postings := others + [TransferPosting(p, account.value.value, false)]);
      b := [copy, TransferPosting(p, account.value.value, true)];
    } else {
      return Ok(None), names';
    }
    var date := DateOf(cfg, p);
    if date.Err? {
      return Err(date.error), names';
    }
    r := Ok(Some((a, t.(date := date.value, narration := narrations.value.1, postings := b))));
  }

  /** The copy loop over the main posting's metadata keys, in any order. */
  method MainPostingCopy(p: Posting, keys: set<string>) returns (q: Posting)
    ensures q == MainCopy(p, keys)
  {
    var meta: Meta := map[];
    var left := p.meta.Keys;
    while left != {}
      invariant left <= p.meta.Keys
      invariant meta == map k | k in p.meta && k !in left && k !in keys :: p.meta[k]
      decreases |left|
    {
      var k :| k in left;
      if k !in keys {
        meta := meta[k := p.meta[k]];
      }
      left := left - {k};
    }
    q := Posting(p.account, p.units, p.cost, p.price, p.flag, meta);
  }
}
