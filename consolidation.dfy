/** Consolidation records: which account is renamed to which, and which further
    accounts were split off it (entry_manipulators/data/account_consolidation_data.py),
    and the registry that collects them per target account
    (entry_manipulation/data/account_consolidation_data_manager.py). */
module Consolidation {
  import opened Results
  import opened Ledger
  import Dicts

  /** A consolidation record as a value. */
  datatype Record = Record(originalAccount: Account, toAccount: Account, additionalAccounts: set<Account>)

  class AccountConsolidationData {
    var originalAccount: Account
    var toAccount: Account
    var additionalAccounts: set<Account>

    /** The additional accounts default to the empty set. */
    constructor (fromAccount: Account, toAccount: Account, additionalAccounts: Option<set<Account>>)
      ensures this.originalAccount == fromAccount && this.toAccount == toAccount
      ensures this.additionalAccounts == if additionalAccounts.Some? then additionalAccounts.value else {}
    {
      this.originalAccount := fromAccount;
      this.toAccount := toAccount;
      this.additionalAccounts := if additionalAccounts.Some? then additionalAccounts.value else {};
    }

    function Value(): Record
      reads this
    {
      Record(originalAccount, toAccount, additionalAccounts)
    }

    /** `set.update`: a union, so the set only grows, and adding the same accounts again
        or in another order gives the same set. The two account names stay. */
    method AddAdditionalAccounts(accounts: set<Account>)
      modifies this
      ensures additionalAccounts == old(additionalAccounts) + accounts
      ensures old(additionalAccounts) <= additionalAccounts
      ensures originalAccount == old(originalAccount) && toAccount == old(toAccount)
    {
      additionalAccounts := additionalAccounts + accounts;
    }
  }

  class AccountConsolidationDataManager {
    /** The records by target account, in the order the target accounts were first
        registered. */
    var consolidators: Dicts.Dict<Account, AccountConsolidationData>

    ghost predicate Valid()
      reads this
    {
      consolidators.Valid()
    }

    constructor ()
      ensures Valid() && consolidators == Dicts.Empty()
    {
      consolidators := Dicts.Empty();
    }

    /** `list(dict.values())`: every stored record once, in key order. */
    function GetAccountConsolidators(): (r: seq<AccountConsolidationData>)
      requires Valid()
      reads this
      ensures |r| == |consolidators.keys|
      ensures forall i :: 0 <= i < |r| ==> r[i] == consolidators.values[consolidators.keys[i]]
      ensures forall k :: k in consolidators.values ==> consolidators.values[k] in r
    {
      var r := consolidators.Values();
      assert forall k :: k in consolidators.values ==> consolidators.values[k] in r by {
        forall k | k in consolidators.values
          ensures consolidators.values[k] in r
        {
          var i :| 0 <= i < |consolidators.keys| && consolidators.keys[i] == k;
          assert r[i] == consolidators.values[k];
        }
      }
      r
    }

    /** Stores a fresh record under its target account, replacing any record already
        there (which keeps its place in the order), and returns it. */
    method AddNewConsolidator(fromAccount: Account, toAccount: Account) returns (data: AccountConsolidationData)
      requires Valid()
      modifies this
      ensures Valid() && fresh(data)
      ensures data.originalAccount == fromAccount && data.toAccount == toAccount && data.additionalAccounts == {}
      ensures consolidators == old(consolidators).Put(toAccount, data)
      ensures consolidators.values[toAccount] == data
    {
      data := new AccountConsolidationData(fromAccount, toAccount, None);
      consolidators := consolidators.Put(toAccount, data);
    }

    /** Adds one account to the record stored under `fromAccount`; nothing happens when
        there is none. The lookup key is the record's target account, since that is
        what records are stored under. */
    method AddAdditionalAccounts(fromAccount: Account, additionalAccount: Account)
      requires Valid()
      modifies consolidators.values.Values
      ensures fromAccount !in consolidators.values ==> unchanged(consolidators.values.Values)
      ensures fromAccount in consolidators.values ==>
        var rec := consolidators.values[fromAccount];
        rec.additionalAccounts == old(rec.additionalAccounts) + {additionalAccount}
        && rec.originalAccount == old(rec.originalAccount) && rec.toAccount == old(rec.toAccount)
        && forall d :: d in consolidators.values.Values && d != rec ==> d.Value() == old(d.Value())
    {
      if fromAccount in consolidators.values {
        var rec := consolidators.values[fromAccount];
        rec.AddAdditionalAccounts({additionalAccount});
      }
    }
  }

  /** While the records are created, `keys` lists the accounts of `relevant` already
      taken, once each, and `rest` holds the others. */
  ghost predicate Taken(relevant: set<Account>, rest: set<Account>, keys: seq<Account>) {
    rest <= relevant && |keys| + |rest| == |relevant|
    && (forall b :: b in relevant - rest <==> b in keys)
    && (forall i, j :: 0 <= i < j < |keys| ==> keys[i] != keys[j])
  }

  /** Taking one more account out of the set keeps the order a list of distinct
      accounts, the ones taken so far. */
  lemma PickStep(relevant: set<Account>, rest: set<Account>, keys: seq<Account>, a: Account)
    requires Taken(relevant, rest, keys) && a in rest
    ensures Taken(relevant, rest - {a}, keys + [a])
  {
    assert a !in keys;
  }
}
