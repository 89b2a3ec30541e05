/** The beancount data the plugins read and write: amounts, costs, postings with
    metadata, transactions and the other directives. Dates are day numbers. */
module Ledger {
  import opened Results
  import Seqs

  type Account = string
  type Currency = string
  type Date = int

  datatype Amount = Amount(number: real, currency: Currency)

  /** `-amount` */
  function Neg(a: Amount): Amount {
    Amount(-a.number, a.currency)
  }

  datatype Cost = Cost(number: real, currency: Currency, date: Option<Date>, costLabel: Option<string>)

  /** A metadata value as the beancount parser produces it; `NoneValue` is Python's
      `None`, which plugins may store. */
  datatype MetaValue =
    | Text(text: string)
    | AmountValue(amount: Amount)
    | DateValue(date: Date)
    | Number(n: real)
    | Bool(b: bool)
    | NoneValue

  /** Posting and entry metadata; a posting without metadata has the empty map. */
  type Meta = map<string, MetaValue>

  /** `meta.get(key) is not None`: the key is present and does not hold `None`. */
  predicate Given(meta: Meta, key: string) {
    key in meta && meta[key] != NoneValue
  }

  /** Python truthiness of a metadata value. */
  predicate Truthy(v: MetaValue) {
    match v
    case Text(s) => s != ""
    case Number(n) => n != 0.0
    case Bool(b) => b
    case NoneValue => false
    case _ => true
  }

  datatype Posting = Posting(
    account: Account,
    units: Amount,
    cost: Option<Cost>,
    price: Option<Amount>,
    flag: Option<string>,
    meta: Meta)

  datatype Transaction = Transaction(
    meta: Meta,
    date: Date,
    flag: string,
    payee: Option<string>,
    narration: string,
    tags: set<string>,
    links: set<string>,
    postings: seq<Posting>)

  datatype Entry =
    | TxnEntry(txn: Transaction)
    | Open(meta: Meta, date: Date, account: Account, currencies: seq<Currency>, booking: Option<string>)
    | Balance(meta: Meta, date: Date, account: Account, amount: Amount, tolerance: Option<real>, diffAmount: Option<Amount>)
    | OtherEntry(meta: Meta, date: Date)

  /** `account + ":" + postfix` */
  function SubAccount(account: Account, postfix: string): Account {
    account + ":" + postfix
  }

  /** A posting of `number` `currency` to `account` with no cost, price, flag or metadata. */
  function PlainPosting(account: Account, number: real, currency: Currency): Posting {
    Posting(account, Amount(number, currency), None, None, None, map[])
  }

  /** `meta` with the keys in `keys` deleted. */
  function Without(meta: Meta, keys: set<string>): (r: Meta)
    ensures r.Keys == meta.Keys - keys
    ensures forall k :: k in r ==> r[k] == meta[k]
  {
    map k | k in meta && k !in keys :: meta[k]
  }

  function WithMeta(p: Posting, meta: Meta): Posting {
    p.(meta := meta)
  }

  /** The sum of the unit numbers of the postings in `currency`. */
  function CurrencySum(ps: seq<Posting>, currency: Currency): real {
    if |ps| == 0 then 0.0
    else CurrencySum(ps[..|ps| - 1], currency)
         + (if ps[|ps| - 1].units.currency == currency then ps[|ps| - 1].units.number else 0.0)
  }

  lemma {:induction false} CurrencySumConcat(a: seq<Posting>, b: seq<Posting>, currency: Currency)
    ensures CurrencySum(a + b, currency) == CurrencySum(a, currency) + CurrencySum(b, currency)
    decreases |b|
  {
    if |b| == 0 {
      assert a + b == a;
    } else {
      assert (a + b)[..|a + b| - 1] == a + b[..|b| - 1];
      CurrencySumConcat(a, b[..|b| - 1], currency);
    }
  }

  /** The units of `p` counted in `currency`. */
  function UnitsIn(p: Posting, currency: Currency): real {
    if p.units.currency == currency then p.units.number else 0.0
  }

  lemma CurrencySumCons(q: Posting, ps: seq<Posting>, currency: Currency)
    ensures CurrencySum([q] + ps, currency) == UnitsIn(q, currency) + CurrencySum(ps, currency)
  {
    CurrencySumConcat([q], ps, currency);
    assert [q][..0] == [];
  }

  /** `x` added up `n` times. */
  function Times(n: nat, x: real): real {
    if n == 0 then 0.0 else Times(n - 1, x) + x
  }

  lemma {:induction false} TimesIsProduct(n: nat, x: real)
    ensures Times(n, x) == n as real * x
  {
    if n > 0 {
      TimesIsProduct(n - 1, x);
    }
  }

  /** Postings whose units balance in every currency. This is balance by units alone:
      beancount's weights (units times cost or price) are not modelled. */
  ghost predicate Balanced(ps: seq<Posting>) {
    forall c: Currency :: CurrencySum(ps, c) == 0.0
  }

  /** Python's `postings.remove(p)`: the first posting equal to `p` is taken out. */
  function RemoveFirst(ps: seq<Posting>, p: Posting): (r: seq<Posting>)
    ensures p !in ps ==> r == ps
    ensures p in ps ==> |r| == |ps| - 1 && multiset(r) == multiset(ps) - multiset{p}
  {
    if |ps| == 0 then ps
    else
      assert ps == [ps[0]] + ps[1..];
      if ps[0] == p then ps[1..]
      else [ps[0]] + RemoveFirst(ps[1..], p)
  }

  /** The position of the first posting equal to `p`. */
  function FirstIndex(ps: seq<Posting>, p: Posting): (i: nat)
    requires p in ps
    ensures i < |ps| && ps[i] == p && p !in ps[..i]
  {
    if ps[0] == p then 0
    else
      assert ps == [ps[0]] + ps[1..];
      var j := FirstIndex(ps[1..], p);
      assert ps[..j + 1] == [ps[0]] + ps[1..][..j];
      j + 1
  }

  /** `remove` takes out the first copy of `p` and keeps the others in order. */
  lemma {:induction false} RemoveFirstAt(ps: seq<Posting>, p: Posting)
    requires p in ps
    ensures RemoveFirst(ps, p) == ps[..FirstIndex(ps, p)] + ps[FirstIndex(ps, p) + 1..]
  {
    assert ps == [ps[0]] + ps[1..];
    if ps[0] != p {
      var tail := ps[1..];
      RemoveFirstAt(tail, p);
      Seqs.SkipCons(ps[0], tail, FirstIndex(tail, p));
    }
  }

  lemma {:induction false} CurrencySumRemoveFirst(ps: seq<Posting>, p: Posting, currency: Currency)
    requires p in ps
    ensures CurrencySum(RemoveFirst(ps, p), currency)
            == CurrencySum(ps, currency) - CurrencySum([p], currency)
    decreases |ps|
  {
    assert ps == [ps[0]] + ps[1..];
    CurrencySumConcat([ps[0]], ps[1..], currency);
    if ps[0] != p {
      CurrencySumRemoveFirst(ps[1..], p, currency);
      CurrencySumConcat([ps[0]], RemoveFirst(ps[1..], p), currency);
    }
  }
}
