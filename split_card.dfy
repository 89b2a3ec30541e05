/** The card-transaction splitter plugin: a posting paid by card and booked on a
    later date is moved into a booking transaction of its own on that date. The
    posting is selected either by its metadata (booking date and transfer account)
    or by account rules (booking date on a configured account). */
module SplitCard {
  import opened Results
  import opened Ledger
  import opened PostingEdits
  import Seqs

  datatype AccountSplitter = AccountSplitter(account: Account, transferAccount: Option<Account>)

  /** The configuration once the configured values are merged into the defaults. */
  datatype CardConfig = CardConfig(
    bookingDate: string,
    bookingTransferAccount: string,
    bookingPostingNarration: string,
    accountBasedSplitters: seq<AccountSplitter>)

  const Defaults := CardConfig("booking-date", "booking-transfer-account", "Card transaction booking", [])

  /** The configuration text: blank (the defaults), a configuration that parses,
      or text that does not. */
  datatype ConfigText = Parsed(config: CardConfig) | Malformed(text: string)

  datatype PluginError = PluginError(message: string)

  /** Where the transfer account comes from: a metadata key of the posting, or a
      configured account (which may be missing). */
  datatype Target = MetaTarget(key: string) | AccountTarget(account: Option<Account>)

  /** The two selectors: the metadata one, and the account one for one rule. */
  datatype Selector = ByMeta | ByAccount(account: Account)

  predicate Relevant(cfg: CardConfig, sel: Selector, q: Posting) {
    cfg.bookingDate in q.meta
    && match sel
       case ByMeta => cfg.bookingTransferAccount in q.meta
       case ByAccount(account) => q.account == account
  }

  function Relevants(cfg: CardConfig, sel: Selector, ps: seq<Posting>): (r: seq<Posting>)
    ensures |r| <= |ps|
    ensures forall i :: 0 <= i < |r| ==> Relevant(cfg, sel, r[i])
  {
    if |ps| == 0 then []
    else Relevants(cfg, sel, ps[..|ps| - 1]) + (if Relevant(cfg, sel, ps[|ps| - 1]) then [ps[|ps| - 1]] else [])
  }
  /** The relevance test as a value, for `Seqs.Filtered`. */
  function Keep(cfg: CardConfig, sel: Selector): Posting -> bool {
    q => Relevant(cfg, sel, q)
  }

  /** The relevant postings are exactly the postings that pass the test, in input
      order: `[q for q in postings if relevant(q)]`. */
  lemma {:induction false} RelevantsFiltered(cfg: CardConfig, sel: Selector, ps: seq<Posting>)
    ensures Seqs.Filtered(Relevants(cfg, sel, ps), ps, Keep(cfg, sel))
  {
    if |ps| == 0 {
      Seqs.FilteredEmpty(Keep(cfg, sel));
    } else {
      var n := |ps| - 1;
      RelevantsFiltered(cfg, sel, ps[..n]);
      Seqs.FilteredSnoc(Relevants(cfg, sel, ps[..n]), ps[..n], Keep(cfg, sel), ps[n]);
      assert ps[..n] + [ps[n]] == ps;
    }
  }


  predicate Fits(cfg: CardConfig, p: Posting, target: Target) {
    cfg.bookingDate in p.meta && (target.MetaTarget? ==> target.key in p.meta)
  }

  /** The keys consumed by a split: the booking date, and the transfer-account key
      when the account came from metadata. */
  function Consumed(cfg: CardConfig, target: Target): seq<string> {
    [cfg.bookingDate] + (if target.MetaTarget? then [target.key] else [])
  }

  /** The transfer account a split would use: the configured one, or the posting's
      metadata value, which may be `None`. */
  function TransferAccount(p: Posting, target: Target): (r: Result<Option<Account>>)
    requires target.MetaTarget? ==> target.key in p.meta
    ensures target.AccountTarget? ==> r == Ok(target.account)
    ensures target.MetaTarget? ==>
      (r == Ok(None) <==> p.meta[target.key] == NoneValue)
      && (r.Err? <==> !p.meta[target.key].Text? && p.meta[target.key] != NoneValue)
      && (p.meta[target.key].Text? ==> r == Ok(Some(p.meta[target.key].text)))
  {
    match target
    case MetaTarget(key) =>
      (match p.meta[key]
       case Text(a) => Ok(Some(a))
       case NoneValue => Ok(None)
       case _ => Err("booking transfer account is not a string"))
    case AccountTarget(a) => Ok(a)
  }

  /** `split_booking_txn`: the changed original and the booking transaction, or
      nothing when the transfer account is `None` (the booking date is not looked at
      then). */
  function SplitBooking(cfg: CardConfig, t: Transaction, p: Posting, target: Target): (r: Result<Option<(Transaction, Transaction)>>)
    requires Fits(cfg, p, target)
    ensures r == Ok(None) <==> TransferAccount(p, target) == Ok(None)
    ensures TransferAccount(p, target).Err? ==> r.Err?
  {
    var account :- TransferAccount(p, target);
    if account.None? then Ok(None)
    else
      var v := p.meta[cfg.bookingDate];
      if !v.DateValue? then Err("booking date is not a date")
      else
        var meta :- DeleteAll(p.meta, Consumed(cfg, target));
        var s := p.(meta := meta);
        var booking := t.(payee := None, narration := cfg.bookingPostingNarration, date := v.date,
                          postings := [s, PlainPosting(account.value, -p.units.number, p.units.currency)]);
        var original := t.(postings := RemoveFirst(Replace(t.postings, p, s), s) + [PlainPosting(account.value, p.units.number, p.units.currency)]);
        Ok(Some((original, booking)))
  }

  /** `split_txn_metadata_based_splitter` */
  function MetaSplit(cfg: CardConfig, t: Transaction): (r: Result<Option<(Transaction, Transaction)>>)
    ensures r == Ok(None) <==>
      var rel := Relevants(cfg, ByMeta, t.postings);
      |rel| != 1 || rel[0].meta[cfg.bookingTransferAccount] == NoneValue
  {
    var rel := Relevants(cfg, ByMeta, t.postings);
    if |rel| != 1 then Ok(None)
    else
      assert Relevant(cfg, ByMeta, rel[0]);
      SplitBooking(cfg, t, rel[0], MetaTarget(cfg.bookingTransferAccount))
  }

  /** `split_txn_account_based_splitter`: the first rule with exactly one relevant
      posting decides; the later rules are not tried. */
  function AccountSplit(cfg: CardConfig, splitters: seq<AccountSplitter>, t: Transaction): Result<Option<(Transaction, Transaction)>> {
    if |splitters| == 0 then Ok(None)
    else
      var rel := Relevants(cfg, ByAccount(splitters[0].account), t.postings);
      if |rel| != 1 then AccountSplit(cfg, splitters[1..], t)
      else
        assert Relevant(cfg, ByAccount(splitters[0].account), rel[0]);
        SplitBooking(cfg, t, rel[0], AccountTarget(splitters[0].transferAccount))
  }

  /** One transaction: the metadata selector, then the account selector on the
      transaction as the first left it. */
  function ProcessTxn(cfg: CardConfig, t: Transaction): Result<(Transaction, seq<Transaction>)> {
    var byMeta :- MetaSplit(cfg, t);
    var (t1, news1) := if byMeta.Some? then (byMeta.value.0, [byMeta.value.1]) else (t, []);
    var byAccount :- AccountSplit(cfg, cfg.accountBasedSplitters, t1);
    if byAccount.Some? then Ok((byAccount.value.0, news1 + [byAccount.value.1])) else Ok((t1, news1))
  }

  function ProcessEntries(cfg: CardConfig, entries: seq<Entry>): (r: Result<(seq<Entry>, seq<Transaction>)>)
    ensures r.Ok? ==> |r.value.0| == |entries|
  {
    if |entries| == 0 then Ok(([], []))
    else
      var n := |entries| - 1;
      var front :- ProcessEntries(cfg, entries[..n]);
      if entries[n].TxnEntry? then
        var (t, news) :- ProcessTxn(cfg, entries[n].txn);
        Ok((front.0 + [TxnEntry(t)], front.1 + news))
      else Ok((front.0 + [entries[n]], front.1))
  }

  function Entries(ts: seq<Transaction>): (r: seq<Entry>)
    ensures |r| == |ts| && forall i :: 0 <= i < |ts| ==> r[i] == TxnEntry(ts[i])
  {
    if |ts| == 0 then [] else Entries(ts[..|ts| - 1]) + [TxnEntry(ts[|ts| - 1])]
  }

  /** `split_card_transactions`: the entries as changed, followed by the booking
      transactions; text that does not parse gives back the entries and one error. */
  function Run(config: ConfigText, entries: seq<Entry>): (r: Result<(seq<Entry>, seq<PluginError>)>)
    ensures config.Malformed? ==> r.Ok? && r.value.0 == entries && |r.value.1| == 1
    ensures config.Parsed? && r.Ok? ==> r.value.1 == [] && |r.value.0| >= |entries|
  {
    match config
    case Malformed(text) => Ok((entries, [PluginError("Syntax error in config: " + text)]))
    case Parsed(cfg) =>
      var (changed, news) :- ProcessEntries(cfg, entries);
      Ok((changed + Entries(news), []))
  }

  // Properties.

  lemma {:induction false} RelevantsMember(cfg: CardConfig, sel: Selector, ps: seq<Posting>, k: nat)
    requires k < |Relevants(cfg, sel, ps)|
    ensures Relevants(cfg, sel, ps)[k] in ps
    decreases |ps|
  {
    var n := |ps| - 1;
    if k < |Relevants(cfg, sel, ps[..n])| {
      RelevantsMember(cfg, sel, ps[..n], k);
    }
  }

  /** The booking transaction has no payee, the configured narration and the
      booking date, and holds the posting without its consumed keys balanced by the
      negated transfer; the original keeps its other fields and its totals. */
  lemma SplitBookingShape(cfg: CardConfig, t: Transaction, p: Posting, target: Target)
    requires p in t.postings && Fits(cfg, p, target)
    requires SplitBooking(cfg, t, p, target).Ok? && SplitBooking(cfg, t, p, target).value.Some?
    ensures var (original, booking) := SplitBooking(cfg, t, p, target).value.value;
      booking.payee == None && booking.narration == cfg.bookingPostingNarration
      && p.meta[cfg.bookingDate] == DateValue(booking.date)
      && booking.meta == t.meta && booking.flag == t.flag && booking.tags == t.tags && booking.links == t.links
      && |booking.postings| == 2 && booking.postings[0] == p.(meta := p.meta - KeySet(Consumed(cfg, target)))
      && booking.postings[1].units == Neg(p.units)
      && booking.postings[1].account == original.postings[|original.postings| - 1].account
      && original.postings[|original.postings| - 1].units == p.units
      && (target.AccountTarget? ==> booking.postings[1].account == target.account.value)
      && (target.MetaTarget? ==> p.meta[target.key] == Text(booking.postings[1].account))
      && Balanced(booking.postings)
      && original.(postings := t.postings) == t
      && forall c :: CurrencySum(original.postings, c) == CurrencySum(t.postings, c)
  {
    var (original, booking) := SplitBooking(cfg, t, p, target).value.value;
    var s := booking.postings[0];
    var account := booking.postings[1].account;
    forall c
      ensures CurrencySum(RemoveFirst(Replace(t.postings, p, s), s) + [PlainPosting(account, p.units.number, p.units.currency)], c) == CurrencySum(t.postings, c)
    {
      RemoveReplacedSum(t.postings, p, s, account, c);
    }
    PairBalanced(s, account);
  }

  /** When `p` occurs once and nothing in the transaction equals it without its
      consumed keys, the changed original is the transaction less exactly `p`, the
      others in their order, followed by the transfer posting of `p`'s units. */
  lemma SplitBookingMovesPosting(cfg: CardConfig, t: Transaction, p: Posting, target: Target)
    requires p in t.postings && Fits(cfg, p, target)
    requires SplitBooking(cfg, t, p, target).Ok? && SplitBooking(cfg, t, p, target).value.Some?
    requires forall i, j :: 0 <= i < j < |t.postings| && t.postings[i] == p ==> t.postings[j] != p
    requires var s := SplitBooking(cfg, t, p, target).value.value.1.postings[0];
      forall i :: 0 <= i < |t.postings| ==> t.postings[i] != s
    ensures var (original, booking) := SplitBooking(cfg, t, p, target).value.value;
      original.postings
      == RemoveFirst(t.postings, p) + [PlainPosting(booking.postings[1].account, p.units.number, p.units.currency)]
  {
    var s := SplitBooking(cfg, t, p, target).value.value.1.postings[0];
    ReplaceThenRemove(t.postings, p, s);
  }

  /** The metadata selector's split takes out exactly the one relevant posting, when
      nothing equals it without its consumed keys. */
  lemma MetaSplitMovesPosting(cfg: CardConfig, t: Transaction)
    requires MetaSplit(cfg, t).Ok? && MetaSplit(cfg, t).value.Some?
    requires var s := MetaSplit(cfg, t).value.value.1.postings[0];
      forall i :: 0 <= i < |t.postings| ==> t.postings[i] != s
    ensures var (original, booking) := MetaSplit(cfg, t).value.value;
      var p := Relevants(cfg, ByMeta, t.postings)[0];
      original.postings
      == RemoveFirst(t.postings, p) + [PlainPosting(booking.postings[1].account, p.units.number, p.units.currency)]
  {
    var p := Relevants(cfg, ByMeta, t.postings)[0];
    RelevantsMember(cfg, ByMeta, t.postings, 0);
    forall i, j | 0 <= i < j < |t.postings| && t.postings[i] == p
      ensures t.postings[j] != p
    {
      if t.postings[j] == p {
        TwoRelevant(cfg, ByMeta, t.postings, i, j);
      }
    }
    SplitBookingMovesPosting(cfg, t, p, MetaTarget(cfg.bookingTransferAccount));
  }

  lemma {:induction false} TwoRelevant(cfg: CardConfig, sel: Selector, ps: seq<Posting>, i: nat, j: nat)
    requires i < j < |ps| && Relevant(cfg, sel, ps[i]) && Relevant(cfg, sel, ps[j])
    ensures |Relevants(cfg, sel, ps)| >= 2
    decreases |ps|
  {
    var n := |ps| - 1;
    if j == n {
      OneRelevant(cfg, sel, ps[..n], i);
    } else {
      TwoRelevant(cfg, sel, ps[..n], i, j);
    }
  }

  lemma {:induction false} OneRelevant(cfg: CardConfig, sel: Selector, ps: seq<Posting>, i: nat)
    requires i < |ps| && Relevant(cfg, sel, ps[i])
    ensures |Relevants(cfg, sel, ps)| >= 1
    decreases |ps|
  {
    var n := |ps| - 1;
    if i < n {
      OneRelevant(cfg, sel, ps[..n], i);
    }
  }

  /** With the date key and the transfer key the same, the metadata selector on
      the one relevant posting splits nothing when the shared value is `None`, and
      otherwise fails: in the source on the second `del`, here already on the kind
      checks, since one value cannot be both a text and a date. */
  lemma SameKeysFail(cfg: CardConfig, t: Transaction)
    requires cfg.bookingDate == cfg.bookingTransferAccount
    requires |Relevants(cfg, ByMeta, t.postings)| == 1
    ensures MetaSplit(cfg, t).Err? <==> Relevants(cfg, ByMeta, t.postings)[0].meta[cfg.bookingDate] != NoneValue
  {
    var p := Relevants(cfg, ByMeta, t.postings)[0];
    assert Consumed(cfg, MetaTarget(cfg.bookingTransferAccount)) == [cfg.bookingDate, cfg.bookingDate];
  }

  /** The account selector takes the first rule with exactly one relevant posting. */
  lemma {:induction false} AccountSplitFirst(cfg: CardConfig, splitters: seq<AccountSplitter>, t: Transaction, i: nat)
    requires i < |splitters| && |Relevants(cfg, ByAccount(splitters[i].account), t.postings)| == 1
    requires forall j :: 0 <= j < i ==> |Relevants(cfg, ByAccount(splitters[j].account), t.postings)| != 1
    ensures var p := Relevants(cfg, ByAccount(splitters[i].account), t.postings)[0];
      Fits(cfg, p, AccountTarget(splitters[i].transferAccount))
      && AccountSplit(cfg, splitters, t) == SplitBooking(cfg, t, p, AccountTarget(splitters[i].transferAccount))
  {
    if i > 0 {
      assert forall j :: 0 <= j < i - 1 ==> splitters[1..][j] == splitters[j + 1];
      AccountSplitFirst(cfg, splitters[1..], t, i - 1);
    }
  }

  /** Without such a rule the account selector changes nothing. */
  lemma {:induction false} AccountSplitNone(cfg: CardConfig, splitters: seq<AccountSplitter>, t: Transaction)
    requires forall j :: 0 <= j < |splitters| ==> |Relevants(cfg, ByAccount(splitters[j].account), t.postings)| != 1
    ensures AccountSplit(cfg, splitters, t) == Ok(None)
  {
    if |splitters| > 0 {
      assert forall j :: 0 <= j < |splitters| - 1 ==> splitters[1..][j] == splitters[j + 1];
      AccountSplitNone(cfg, splitters[1..], t);
    }
  }

  /** Whatever the selector, a split leaves a balanced transaction balanced and
      produces a balanced booking. */
  lemma {:induction false} AccountSplitBalanced(cfg: CardConfig, splitters: seq<AccountSplitter>, t: Transaction)
    requires Balanced(t.postings)
    requires AccountSplit(cfg, splitters, t).Ok? && AccountSplit(cfg, splitters, t).value.Some?
    ensures var (original, booking) := AccountSplit(cfg, splitters, t).value.value;
      Balanced(original.postings) && Balanced(booking.postings)
  {
    var rel := Relevants(cfg, ByAccount(splitters[0].account), t.postings);
    if |rel| != 1 {
      AccountSplitBalanced(cfg, splitters[1..], t);
    } else {
      RelevantsMember(cfg, ByAccount(splitters[0].account), t.postings, 0);
      SplitBookingShape(cfg, t, rel[0], AccountTarget(splitters[0].transferAccount));
    }
  }

  lemma ProcessTxnBalanced(cfg: CardConfig, t: Transaction)
    requires Balanced(t.postings) && ProcessTxn(cfg, t).Ok?
    ensures var (final, news) := ProcessTxn(cfg, t).value;
      Balanced(final.postings) && forall i :: 0 <= i < |news| ==> Balanced(news[i].postings)
  {
    var byMeta := MetaSplit(cfg, t).value;
    var t1 := if byMeta.Some? then byMeta.value.0 else t;
    if byMeta.Some? {
      RelevantsMember(cfg, ByMeta, t.postings, 0);
      SplitBookingShape(cfg, t, Relevants(cfg, ByMeta, t.postings)[0], MetaTarget(cfg.bookingTransferAccount));
    }
    if AccountSplit(cfg, cfg.accountBasedSplitters, t1).value.Some? {
      AccountSplitBalanced(cfg, cfg.accountBasedSplitters, t1);
    }
  }

  /** What the plugin puts in place of entry `e`: a transaction, changed by the two
      splitters; any other entry, itself. */
  ghost predicate Mirrors(cfg: CardConfig, e: Entry, c: Entry) {
    (e.TxnEntry? ==> ProcessTxn(cfg, e.txn).Ok? && c == TxnEntry(ProcessTxn(cfg, e.txn).value.0))
    && (!e.TxnEntry? ==> c == e)
  }

  /** The entries keep their places, and each transaction comes back as the two
      selectors leave it. */
  lemma {:induction false} ProcessEntriesInPlace(cfg: CardConfig, entries: seq<Entry>)
    requires ProcessEntries(cfg, entries).Ok?
    ensures var changed := ProcessEntries(cfg, entries).value.0;
      |changed| == |entries| && forall i :: 0 <= i < |entries| ==> Mirrors(cfg, entries[i], changed[i])
  {
    if |entries| > 0 {
      var n := |entries| - 1;
      ProcessEntriesInPlace(cfg, entries[..n]);
      var front := ProcessEntries(cfg, entries[..n]).value.0;
      var changed := ProcessEntries(cfg, entries).value.0;
      assert Mirrors(cfg, entries[n], changed[n]);
      MirrorsSnoc(cfg, entries, front, changed);
    }
  }

  lemma MirrorsSnoc(cfg: CardConfig, entries: seq<Entry>, front: seq<Entry>, changed: seq<Entry>)
    requires |entries| > 0 && |changed| == |entries| && front == changed[..|entries| - 1]
    requires forall i :: 0 <= i < |front| ==> Mirrors(cfg, entries[..|entries| - 1][i], front[i])
    requires Mirrors(cfg, entries[|entries| - 1], changed[|entries| - 1])
    ensures forall i :: 0 <= i < |entries| ==> Mirrors(cfg, entries[i], changed[i])
  {
    forall i | 0 <= i < |entries| - 1
      ensures Mirrors(cfg, entries[i], changed[i])
    {
      assert entries[..|entries| - 1][i] == entries[i] && front[i] == changed[i];
    }
  }

  lemma {:induction false} ProcessEntriesBalanced(cfg: CardConfig, entries: seq<Entry>)
    requires forall i :: 0 <= i < |entries| && entries[i].TxnEntry? ==> Balanced(entries[i].txn.postings)
    requires ProcessEntries(cfg, entries).Ok?
    ensures var news := ProcessEntries(cfg, entries).value.1;
      forall i :: 0 <= i < |news| ==> Balanced(news[i].postings)
  {
    if |entries| > 0 {
      var n := |entries| - 1;
      ProcessEntriesBalanced(cfg, entries[..n]);
      if entries[n].TxnEntry? {
        ProcessTxnBalanced(cfg, entries[n].txn);
      }
    }
  }

  /** Every transaction the plugin returns balances when every transaction it was
      given does. */
  lemma RunBalanced(cfg: CardConfig, entries: seq<Entry>)
    requires forall i :: 0 <= i < |entries| && entries[i].TxnEntry? ==> Balanced(entries[i].txn.postings)
    requires Run(Parsed(cfg), entries).Ok?
    ensures var out := Run(Parsed(cfg), entries).value.0;
      forall i :: 0 <= i < |out| && out[i].TxnEntry? ==> Balanced(out[i].txn.postings)
  {
    var (changed, news) := ProcessEntries(cfg, entries).value;
    ChangedBalanced(cfg, entries);
    ProcessEntriesBalanced(cfg, entries);
    AppendBalanced(changed, news);
  }

  /** The changed entries balance when the given ones do. */
  lemma ChangedBalanced(cfg: CardConfig, entries: seq<Entry>)
    requires forall i :: 0 <= i < |entries| && entries[i].TxnEntry? ==> Balanced(entries[i].txn.postings)
    requires ProcessEntries(cfg, entries).Ok?
    ensures var changed := ProcessEntries(cfg, entries).value.0;
      forall i :: 0 <= i < |changed| && changed[i].TxnEntry? ==> Balanced(changed[i].txn.postings)
  {
    var changed := ProcessEntries(cfg, entries).value.0;
    ProcessEntriesInPlace(cfg, entries);
    forall i | 0 <= i < |changed| && changed[i].TxnEntry?
      ensures Balanced(changed[i].txn.postings)
    {
      if entries[i].TxnEntry? {
        ProcessTxnBalanced(cfg, entries[i].txn);
      }
    }
  }

  lemma AppendBalanced(changed: seq<Entry>, news: seq<Transaction>)
    requires forall i :: 0 <= i < |changed| && changed[i].TxnEntry? ==> Balanced(changed[i].txn.postings)
    requires forall i :: 0 <= i < |news| ==> Balanced(news[i].postings)
    ensures var out := changed + Entries(news);
      forall i :: 0 <= i < |out| && out[i].TxnEntry? ==> Balanced(out[i].txn.postings)
  {
    var out := changed + Entries(news);
    forall i | 0 <= i < |out| && out[i].TxnEntry?
      ensures Balanced(out[i].txn.postings)
    {
      if i >= |changed| {
        assert out[i] == TxnEntry(news[i - |changed|]);
      }
    }
  }

  // The closures and the loops the source runs.

  /** `split_booking_txn` */
  method SplitBookingTxn(cfg: CardConfig, t: Transaction, p: Posting, target: Target) returns (r: Result<Option<(Transaction, Transaction)>>)
    requires Fits(cfg, p, target)
    ensures r == SplitBooking(cfg, t, p, target)
  {
    var account: Option<Account> := None;
    if target.MetaTarget? {
      if p.meta[target.key] == NoneValue {
        return Ok(None);
      }
      if !p.meta[target.key].Text? {
        return Err("booking transfer account is not a string");
      }
      account := Some(p.meta[target.key].text);
    } else {
      account := target.account;
    }
    if account.None? {
      return Ok(None);
    }
    var v := p.meta[cfg.bookingDate];
    if !v.DateValue? {
      return Err("booking date is not a date");
    }
    var meta := DeleteEach(p.meta, Consumed(cfg, target));
    if meta.Err? {
      return Err(meta.error);
    }
    var s := p.(meta := meta.value);
    var booking := t.(payee := None, narration := cfg.bookingPostingNarration, date := v.date, postings := [s]);
    booking := booking.(postings := booking.postings + [PlainPosting(account.value, -p.units.number, p.units.currency)]);
    var original := t.(postings := RemoveFirst(Replace(t.postings, p, s), s));
    original := original.(postings := original.postings + [PlainPosting(account.value, p.units.number, p.units.currency)]);
    assert booking.postings == [s, PlainPosting(account.value, -p.units.number, p.units.currency)];
    r := Ok(Some((original, booking)));
  }

  /** `split_txn_account_based_splitter` */
  method AccountBasedSplitter(cfg: CardConfig, t: Transaction) returns (r: Result<Option<(Transaction, Transaction)>>)
    ensures r == AccountSplit(cfg, cfg.accountBasedSplitters, t)
  {
    var splitters := cfg.accountBasedSplitters;
    var i := 0;
    while i < |splitters|
      invariant 0 <= i <= |splitters|
      invariant forall j :: 0 <= j < i ==> |Relevants(cfg, ByAccount(splitters[j].account), t.postings)| != 1
    {
      var rel := Relevants(cfg, ByAccount(splitters[i].account), t.postings);
      if |rel| == 1 {
        AccountSplitFirst(cfg, splitters, t, i);
        r := SplitBookingTxn(cfg, t, rel[0], AccountTarget(splitters[i].transferAccount));
        return;
      }
      i := i + 1;
    }
    AccountSplitNone(cfg, splitters, t);
    r := Ok(None);
  }

  /** The loop over the entries of `split_card_transactions`. */
  method Split(config: ConfigText, entries: seq<Entry>) returns (r: Result<(seq<Entry>, seq<PluginError>)>)
    ensures r == Run(config, entries)
  {
    if config.Malformed? {
      return Ok((entries, [PluginError("Syntax error in config: " + config.text)]));
    }
    var cfg := config.config;
    var changed := [];
    var news := [];
    var i := 0;
    while i < |entries|
      invariant 0 <= i <= |entries|
      invariant ProcessEntries(cfg, entries[..i]) == Ok((changed, news))
    {
      assert entries[..i + 1][..i] == entries[..i] && entries[..i + 1][i] == entries[i];
      if entries[i].TxnEntry? {
        var t := entries[i].txn;
        var made: Result<Option<(Transaction, Transaction)>> := Ok(None);
        var rel := Relevants(cfg, ByMeta, t.postings);
        if |rel| == 1 {
          made := SplitBookingTxn(cfg, t, rel[0], MetaTarget(cfg.bookingTransferAccount));
        }
        if made.Err? {
          ProcessEntriesPrefixErr(cfg, entries, i + 1);
          return Err(made.error);
        }
        var bookings := [];
        if made.value.Some? {
          t, bookings := made.value.value.0, [made.value.value.1];
        }
        made := AccountBasedSplitter(cfg, t);
        if made.Err? {
          ProcessEntriesPrefixErr(cfg, entries, i + 1);
          return Err(made.error);
        }
        if made.value.Some? {
          t, bookings := made.value.value.0, bookings + [made.value.value.1];
        }
        changed := changed + [TxnEntry(t)];
        news := news + bookings;
      } else {
        changed := changed + [entries[i]];
      }
      i := i + 1;
    }
    assert entries[..i] == entries;
    r := Ok((changed + Entries(news), []));
  }

  lemma {:induction false} ProcessEntriesPrefixErr(cfg: CardConfig, entries: seq<Entry>, k: nat)
    requires k <= |entries| && ProcessEntries(cfg, entries[..k]).Err?
    ensures ProcessEntries(cfg, entries) == Err(ProcessEntries(cfg, entries[..k]).error)
    decreases |entries| - k
  {
    if k < |entries| {
      assert entries[..k + 1][..k] == entries[..k];
      ProcessEntriesPrefixErr(cfg, entries, k + 1);
    } else {
      assert entries[..k] == entries;
    }
  }
}
