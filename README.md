# beancountPlugins in Dafny

A model of the ledger-rewriting plugins of `beancountPlugins`, a set of beancount
plugins. Each plugin takes the parsed list of ledger entries (transactions, balances,
`Open` directives and others) and returns a rewritten list. The model covers:

- **The posting-distribution engine** (`entry_manipulation/`), with these parts:
  - Rounding: per-currency round-half-even to a configured number of places (`Rounding`).
  - Id and account matchers (`Ids`, `Matching`) and the account namer (`Naming`).
  - The wrapper factories: the older four-bucket one and the newer three-bucket one. They sort postings into sources, targets, simple postings and irrelevant postings (`Classification`).
  - Sharing a source's amount among the postings it reaches, under the `equal`, `unit` and `meta:<field>` policies (`Distribution`).
  - The accumulating wrappers of the spreading and filling consolidators (`Spreading`, `Filling`).
  - The per-account consolidation records and their manager (`Consolidation`).
  - The spreading consolidator's `execute` (`Spreader`).
  - The discount and original-price extractors (`Extracting`).
  - The orchestrator, which threads every transaction through the manipulators, merges their consolidation records and renames `Open` directives and postings (`Orchestration`).
- **The work-list transaction splitter** with its stay and move modes (`TransactionSplitter`).
- **The older `entry_manipulators/` layer** (`LegacyConsolidator`, `LegacySplitter`, `LegacyOrchestration`).
- **The stand-alone plugins:**
  - `post_splitter` (`PostSplitting`);
  - `txn_splitter` (`TxnSplitting`);
  - `split_card_transactions` (`SplitCard`);
  - `balance_pad_creator` (`BalancePads`).

Shared modules:

- `Ledger`: the beancount entry types, plus per-currency sums of units and balance by units.
- `Results`: `Result` and `Option`.
- `Dicts`: an insertion-ordered Python `dict`.
- `Text`: string splitting and parsing.
- `Seqs`: concatenation facts, and `Filtered`, which says that one sequence is the in-order filter of another.
- `PostingEdits`: metadata deletion, `list.remove` and in-place replacement.

Modelling conventions:

- `decimal.Decimal` numbers are Dafny `real`s, so arithmetic is exact (see "## Left out").
- A Python exception is an `Err` result carrying the exception's message.
- Plugin configuration arrives already parsed, as a `ConfigText` that is either `Parsed(config)` or `Malformed(text)`.
- Pure Python code is modelled as functions.
- Code that loops or mutates state is modelled as methods. Each such method is proved to compute a specification function, and the properties are proved about that function.
- The consolidation records, the manager, the wrappers and the orchestrator are classes whose fields the methods update.
- In the older layer every splitter returns the entry with its posting list changed in place (`entry_manipulators/manipulators/transaction_splitter.py:92-98`). The splitters of `entry_manipulators/entry_manipulator_orchestrator.py:30-32` therefore run one after another on the list the previous ones left behind, and every returned original shows the final list (`LegacyOrchestration.Thread`).

## Model

| member | source | states |
|---|---|---|
| Rounding.RoundHalfEvenInt | entry_manipulation/utils/rounder.py:19 | the integer chosen is at most one half away from the input, and an exact tie goes to the even neighbour (Python's `round` on a `Decimal`) |
| Rounding.Round | entry_manipulation/utils/rounder.py:11-19 | no rounding table, or a currency missing from it, gives the number back unchanged; otherwise the result is a whole multiple of the currency's quantum, at most half a quantum away from the input, and at an exact tie an even multiple (round half to even) |
| Rounding.RoundToBound | entry_manipulation/utils/rounder.py:19 | rounding to `d` places moves a number by at most half a unit of the last kept place |
| Rounding.RoundToWhole | entry_manipulation/utils/rounder.py:19 | a number rounded to `d` places is a whole number of units of the last kept place |
| Rounding.RoundToExact | entry_manipulation/utils/rounder.py:19 | a number that already has at most `d` places is not changed by rounding |
| Rounding.RoundIdempotent | entry_manipulation/utils/rounder.py:11-19 | rounding an already rounded number again leaves it unchanged, for every table and currency |
| Rounding.RoundBound | entry_manipulation/utils/rounder.py:15-19 | with a configured currency the rounded number is within half a quantum of the input |
| Ids.IsIdsIntersect | entry_manipulation/manipulators/posting_consolidators/ids.py:10-12 | two id lists intersect exactly when one of them is empty or they share an element |
| Ids.IsIntersectWithSimplePostings | entry_manipulation/manipulators/posting_consolidators/ids.py:14-15 | a source reaches the simple postings exactly when its own id list is empty |
| Ids.IntersectSymmetric | entry_manipulation/manipulators/posting_consolidators/ids.py:10-12 | the intersection test gives the same answer with its arguments swapped |
| Ids.SimpleReachImpliesAll | entry_manipulation/manipulators/posting_consolidators/ids.py:10-15 | a source that reaches the simple postings intersects every id list |
| Ids.IntersectAt | entry_manipulation/manipulators/posting_consolidators/ids.py:12 | two non-empty lists intersect exactly when some position of one holds the same id as some position of the other |
| Matching.IsMatches | entry_manipulation/manipulators/posting_consolidators/posting_wrapping/matching/intersect_matcher.py:7-9 | a matcher with empty data accepts every list; otherwise it accepts exactly the lists sharing an element with its data |
| Matching.NonEmptyRejectsEmpty | entry_manipulation/manipulators/posting_consolidators/posting_wrapping/matching/intersect_matcher.py:8-9 | a matcher with data never accepts an empty list (unlike the older id test) |
| Matching.CreateIds | entry_manipulation/manipulators/posting_consolidators/posting_wrapping/matching/id_matcher_factory.py:29-36 | the loop builds exactly the id list of the text: empty for "all", else the comma-separated segments in order |
| Matching.IdsFromTextMeaning | entry_manipulation/manipulators/posting_consolidators/posting_wrapping/matching/id_matcher_factory.py:32-36 | the id list is empty exactly for "all"; any other text gives segments that hold no comma and that, joined by commas, give the text back |
| Matching.AllMatchesEverything | entry_manipulation/manipulators/posting_consolidators/posting_wrapping/matching/id_matcher_factory.py:32-33 | a source with id text "all" matches every target |
| Matching.CreateMatcher | entry_manipulation/manipulators/posting_consolidators/posting_wrapping/matching/id_matcher_factory.py:15-17 | the id factory returns no matcher exactly when the source id is missing or falsy, fails exactly when a truthy id is not a text, and otherwise returns a matcher over the parsed ids; the account factory returns a matcher over the posting's own account exactly when the postfix key is present (account_matcher_factory.py:14-18) |
| Matching.CreateMatchData | entry_manipulation/manipulators/posting_consolidators/posting_wrapping/matching/id_matcher_factory.py:19-27 | only the metadata may change; with no target-id name the data is empty; a truthy target id that is not a text fails; a truthy text id is removed from the metadata and parsed; a missing or falsy one gives empty data and unchanged metadata; the account factory gives the posting's own account and changes nothing (account_matcher_factory.py:20-21) |
| Matching.AccountModeMatchesSameAccount | entry_manipulation/manipulators/posting_consolidators/posting_wrapping/matching/account_matcher_factory.py:14-21 | in account mode a source matches a target exactly when both are on the same account |
| Naming.GetAccountName | entry_manipulation/manipulators/posting_consolidators/posting_wrapping/account_naming/metadata_account_namer.py:10-15 | the fixed namer returns its postfix; the metadata namer returns the chosen posting's metadata value, or none when the key is missing (fix_account_namer.py:10-11) |
| Naming.ReuseLastPartIsLeaf | entry_manipulation/manipulators/posting_consolidators/posting_wrapping/account_naming/reuse_last_part_account_namer.py:10-11 | the reuse-last-part namer returns the last part of the chosen posting's account (source or target by the flag): the whole account when it has no colon, otherwise all of it after the last colon |
| Naming.LastPartSuffix | entry_manipulation/manipulators/posting_consolidators/posting_wrapping/account_naming/reuse_last_part_account_namer.py:11 | `account.split(':')[-1]` is a colon-free suffix of the account |
| Naming.LastPartAfterColon | entry_manipulation/manipulators/posting_consolidators/posting_wrapping/account_naming/reuse_last_part_account_namer.py:11 | in an account with a colon, the last part is preceded by a colon, so it is all of the account after the last colon |
| Naming.LastPartOfLeaf | entry_manipulation/manipulators/posting_consolidators/posting_wrapping/account_naming/reuse_last_part_account_namer.py:11 | an account without a colon is returned whole |
| Naming.GetValue | entry_manipulation/manipulators/posting_consolidators/posting_wrapping/values/metadata_value_getter.py:10-11 | the fixed getter returns its value; the metadata getter returns a value exactly when the key is present, and then that value (fixed_value_getter.py:10-11) |
| Text.FindFirst | entry_manipulation/manipulators/posting_consolidators/posting_wrapping/matching/id_matcher_factory.py:34 | the position found is the leftmost occurrence of the separator, and there is none exactly when the text does not contain it (the cutting step of `str.split`) |
| Text.JoinSplit | entry_manipulation/manipulators/posting_consolidators/posting_wrapping/matching/id_matcher_factory.py:34 | joining the pieces of `s.split(sep)` with `sep` gives `s` back |
| Text.SplitPiecesFree | entry_manipulation/manipulators/posting_consolidators/posting_wrapping/matching/id_matcher_factory.py:34 | no piece of a split contains the separator |
| Text.SplitSingle | entry_manipulation/manipulators/posting_consolidators/posting_wrapping/matching/id_matcher_factory.py:34 | a text splits into itself alone exactly when it does not contain the separator |
| Text.LastSegmentSuffix | entry_manipulation/manipulators/posting_consolidators/posting_wrapping/account_naming/reuse_last_part_account_namer.py:11 | `s.split(sep)[-1]` is a suffix of `s` holding no separator, and all of `s` when the separator is absent |
| Text.LastSegmentAfterSeparator | entry_manipulation/manipulators/posting_consolidators/posting_wrapping/account_naming/reuse_last_part_account_namer.py:11 | when the separator occurs, `s.split(sep)[-1]` comes right after an occurrence of it, so it is the text after the last one |
| Text.SplitJoin | entry_manipulation/manipulators/posting_consolidators/posting_wrapper_factory_base.py:59-63 | pieces free of a one-character separator, joined and split again, come back unchanged |
| Text.ParseIntToString | entry_manipulation/manipulators/posting_consolidators/posting_wrapper_factory_base.py:63 | `int(str(n)) == n`: the printed form of an integer id parses back to it |
| Dicts.Dict.Put | balance_pad_creator.py:48-49 | `d[k] = v` on an insertion-ordered dict: the new mapping has `k` bound to `v`, a new key is appended to the key order and an existing key keeps its place |
| Dicts.Dict.PutNewValues | balance_pad_creator.py:48-49 | after `d[k] = v` with a new key, `list(d.values())` is the old list with `v` appended |
| Dicts.Dict.PutOldValues | balance_pad_creator.py:48-49 | after `d[k] = v` with an existing key, `list(d.values())` has `v` in that key's place and is otherwise unchanged |
| Dicts.Dict.Values | balance_pad_creator.py:40 | `list(d.values())` lists the values in key-insertion order |
| Ledger.Without | entry_manipulation/manipulators/transaction_splitter.py:102-109 | the metadata minus a set of keys keeps every other key with its value |
| Ledger.CurrencySumConcat | entry_manipulation/manipulators/transaction_splitter.py:122-125 | the per-currency total of two posting lists joined is the sum of their totals |
| Ledger.RemoveFirst | txn_splitter.py:115 | `postings.remove(p)`: a list without `p` is unchanged; otherwise exactly one copy of `p` is taken out and nothing else |
| Ledger.FirstIndex | txn_splitter.py:115 | the position `remove` acts on: a copy of `p` with no copy before it |
| Ledger.RemoveFirstAt | txn_splitter.py:115 | `postings.remove(p)` takes out exactly the first copy of `p`, keeping everything before and after it in order |
| Ledger.CurrencySumRemoveFirst | txn_splitter.py:115 | taking a posting out lowers each currency's total by that posting's units |
| PostingEdits.DeleteAll | txn_splitter.py:111-113 | `del meta[name]` for each name in turn succeeds exactly when every name is present and no name repeats, and then removes exactly those keys |
| PostingEdits.DeleteEach | txn_splitter.py:112-113 | the deletion loop computes the same result or KeyError as the specification |
| PostingEdits.Replace | txn_splitter.py:112-115 | the posting list seen after the relevant posting's metadata is changed in place: same length, every copy of the posting replaced, all else kept |
| PostingEdits.ReplaceSum | txn_splitter.py:112-113 | changing a posting's metadata in place leaves every currency's total unchanged |
| PostingEdits.RemoveReplacedSum | txn_splitter.py:115-121 | removing the changed posting and appending a transfer of its units keeps every currency's total |
| PostingEdits.PairBalanced | txn_splitter.py:124-140 | a posting together with a transfer of its negated units is balanced in every currency |
| PostingEdits.ReplaceThenRemove | txn_splitter.py:112-115 | when the posting occurs once and its changed form nowhere, removing the changed form removes exactly the original posting |
| Classification.WrapPostingsOld | entry_manipulation/manipulators/posting_consolidators/posting_wrapper_factory_base.py:21-41 | the bucket loop of the older factory builds exactly the buckets of the specification, in input order; an id whose value is `None` counts as absent, as `meta.get(...) is not None` does |
| Classification.WrapOldPartition | entry_manipulation/manipulators/posting_consolidators/posting_wrapper_factory_base.py:28-41 | the four buckets together hold every input posting exactly once (so their sizes add up to the input length) |
| Classification.WrapOldRoles | entry_manipulation/manipulators/posting_consolidators/posting_wrapper_factory_base.py:29-39 | a source id beats a target id, which beats the `Expenses:` prefix, where an id counts only when present and not `None`; source and target wrappers receive the id stored under their key, and a source also its distribution type, none when that key is missing or `None` |
| Classification.CreateIntIds | entry_manipulation/manipulators/posting_consolidators/posting_wrapper_factory_base.py:56-63 | the parsing loop gives exactly the specification's result: empty for "all", else each comma token as an int, or the error of the first token that is not one |
| Classification.IntTokens | entry_manipulation/manipulators/posting_consolidators/posting_wrapper_factory_base.py:61-63 | one written-out token per id, in order |
| Classification.ParseAllInts | entry_manipulation/manipulators/posting_consolidators/posting_wrapper_factory_base.py:61-63 | parsing the written-out ids one by one gives the ids back |
| Classification.ParseIdsRoundTrip | entry_manipulation/manipulators/posting_consolidators/posting_wrapper_factory_base.py:56-63 | an id list written with commas is read back by `_create_ids` as the same list |
| Classification.WrapPostingsNew | entry_manipulation/manipulators/posting_consolidators/posting_wrapping/posting_wrapper_factory_base.py:21-40 | the loop of the newer factory builds exactly the buckets of the specification, or stops at the first metadata value the matcher factory cannot read |
| Classification.WrapNewPartition | entry_manipulation/manipulators/posting_consolidators/posting_wrapping/posting_wrapper_factory_base.py:27-40 | the three bucket sizes add up to the input length; every target is on an `Expenses:` account; every source is an input posting carrying the value getter's reading of its distribution type and the matcher `create_matcher` made for it; every irrelevant posting is an input posting that is neither a source nor on `Expenses:` |
| Classification.WrapNewTargets | entry_manipulation/manipulators/posting_consolidators/posting_wrapping/posting_wrapper_factory_base.py:34-36 | every target comes from an input expense posting that has no matcher, and carries exactly what `create_match_data` gave for it: the posting with the key popped and the parsed match data |
| Classification.WrapNewOrder | entry_manipulation/manipulators/posting_consolidators/posting_wrapping/posting_wrapper_factory_base.py:27-40 | each bucket keeps input order: its entries are the classifications of postings at strictly ascending input positions |
| Consolidation.AccountConsolidationData.constructor | entry_manipulators/data/account_consolidation_data.py:5-10 | the record holds the two accounts, and the additional accounts default to the empty set |
| Consolidation.AccountConsolidationData.AddAdditionalAccounts | entry_manipulators/data/account_consolidation_data.py:12-13 | the additional accounts become their union with the new ones, so the set only grows; the two account names stay |
| Consolidation.AccountConsolidationDataManager.constructor | entry_manipulation/data/account_consolidation_data_manager.py:9-10 | the registry starts empty |
| Consolidation.AccountConsolidationDataManager.GetAccountConsolidators | entry_manipulation/data/account_consolidation_data_manager.py:12-13 | lists exactly the stored records, one per key, in key-insertion order |
| Consolidation.AccountConsolidationDataManager.AddNewConsolidator | entry_manipulation/data/account_consolidation_data_manager.py:15-18 | stores a fresh record with no additional accounts under its target account, replacing any record there, and returns it |
| Consolidation.AccountConsolidationDataManager.AddAdditionalAccounts | entry_manipulation/data/account_consolidation_data_manager.py:20-23 | an unknown key changes nothing; a known key's record gains exactly the one account and no other record changes |
| Distribution.PolicyOf | entry_manipulation/manipulators/posting_consolidators/source_posting_wrapper_base.py:35-43 | only a text distribution type is read (anything else fails at `.startswith`); exactly "unit" gives the unit policy and exactly "equal" the equal one; another text is a metadata field exactly when it starts with "meta:" |
| Distribution.PolicyOfField | entry_manipulation/manipulators/posting_consolidators/source_posting_wrapper_base.py:41-43 | the metadata field is all of the text after its last "meta:" (`split("meta:")[-1]`): a suffix holding no "meta:", right after an occurrence of it |
| Distribution.NumberBase | entry_manipulation/manipulators/posting_consolidators/source_posting_wrapper_base.py:34-46 | the amount per unit of weight fails with a division by zero exactly when the total units (unit), the number of reached postings (equal) or the total Amount weight (meta) is zero; an unknown type gives base 0 |
| Distribution.NumberBaseValue | entry_manipulation/manipulators/posting_consolidators/source_posting_wrapper_base.py:34-46 | for "unit", "equal" and "meta:" a number base, when there is one, is the amount divided by the non-zero total units, count of reached postings or total Amount weight |
| Distribution.ShareSumValue | entry_manipulation/manipulators/posting_consolidators/source_posting_wrapper_base.py:48-57 | the unrounded shares add up to the base times the divisor the base was computed from |
| Distribution.SharesAddUp | entry_manipulation/manipulators/posting_consolidators/source_posting_wrapper_base.py:34-57 | for "unit", "equal" and "meta:" the unrounded shares add up to exactly the source's amount |
| Distribution.ToleranceValue | entry_manipulation/manipulators/posting_consolidators/source_posting_wrapper_base.py:59 | the rounding slack of `n` shares is `n` times the slack of one |
| Distribution.RoundSlack | entry_manipulation/manipulators/posting_consolidators/source_posting_wrapper_base.py:59 | one share rounded in the source's currency moves by at most half a unit of that currency's last place |
| Distribution.CallsWithinSlack | entry_manipulation/manipulators/posting_consolidators/source_posting_wrapper_base.py:59 | every call's number is within one slack of its unrounded share |
| Distribution.CallSumWithin | entry_manipulation/manipulators/posting_consolidators/source_posting_wrapper_base.py:59-60 | numbers each within one slack of their shares add up to the shares' total within `n` slacks |
| Distribution.CallSumBound | entry_manipulation/manipulators/posting_consolidators/source_posting_wrapper_base.py:48-60 | the rounded numbers handed out add up to the unrounded shares' total within one slack per call |
| Distribution.DistributedTotal | entry_manipulation/manipulators/posting_consolidators/source_posting_wrapper_base.py:34-60 | for a known distribution type, the rounded numbers handed out add up to the source's amount within one slack per call |
| Distribution.DistributedMeaning | entry_manipulation/manipulators/posting_consolidators/source_posting_wrapper_base.py:34-60 | a successful distribution makes exactly one call per reached posting, to that posting, in order; for a known type the calls hand out the source's amount up to rounding |
| Distribution.EqualShares | entry_manipulation/manipulators/posting_consolidators/source_posting_wrapper_base.py:39-40 | under "equal" every reached posting is called with round(amount / number reached), and at least one posting is reached |
| Distribution.UnitShares | entry_manipulation/manipulators/posting_consolidators/source_posting_wrapper_base.py:47-59 | under "unit" a reached posting is called with round(number base × its units) |
| Distribution.MetaShares | entry_manipulation/manipulators/posting_consolidators/source_posting_wrapper_base.py:47-59 | under "meta:<field>" a reached posting is called with round(number base × its Amount weight, 0 without an Amount) |
| Distribution.OtherShares | entry_manipulation/manipulators/posting_consolidators/source_posting_wrapper_base.py:48-59 | under any other text every reached posting is still called, with a rounded 0 |
| Distribution.IntersectingTargets | entry_manipulation/manipulators/posting_consolidators/source_posting_wrapper_base.py:26-28 | every index found is a target whose ids intersect the source's |
| Distribution.IntersectingTargetsMeaning | entry_manipulation/manipulators/posting_consolidators/source_posting_wrapper_base.py:26-28 | every target whose ids intersect the source's is found, and the indices rise strictly, so input order is kept |
| Distribution.ReachedOldMeaning | entry_manipulation/manipulators/posting_consolidators/source_posting_wrapper_base.py:25-32 | a target is reached exactly when its ids intersect the source's, and a simple posting exactly when the source's ids are empty ("all") |
| Distribution.ReachOld | entry_manipulation/manipulators/posting_consolidators/source_posting_wrapper_base.py:25-32 | the two collecting loops build exactly the reached list of the specification |
| Distribution.ComputeNumberBase | entry_manipulation/manipulators/posting_consolidators/source_posting_wrapper_base.py:34-46 | the base-accumulating loops compute exactly `NumberBase`, division by zero included |
| Distribution.ShareOut | entry_manipulation/manipulators/posting_consolidators/source_posting_wrapper_base.py:48-60 | the share loop makes exactly the calls of the specification |
| Distribution.ProcessPostingsOld | entry_manipulation/manipulators/posting_consolidators/source_posting_wrapper_base.py:23-60 | the older `process_postings` makes exactly the calls of `DistributeOld` or fails like it |
| Distribution.DistributeOldMeaning | entry_manipulation/manipulators/posting_consolidators/source_posting_wrapper_base.py:23-60 | a successful older distribution calls each reached posting once, in order, and for a known type hands out the source's amount up to rounding |
| Distribution.NonTextTypeFails | entry_manipulation/manipulators/posting_consolidators/source_posting_wrapper_base.py:41 | a distribution type that is not text fails in the older layer always, and in the newer layer exactly when some target is matched (entry_manipulation/manipulators/posting_consolidators/posting_wrapping/source_posting_wrapper_base.py:28-38) |
| Distribution.MatchingTargets | entry_manipulation/manipulators/posting_consolidators/posting_wrapping/source_posting_wrapper_base.py:23-26 | every index found is a target whose match data the matcher accepts |
| Distribution.MatchingTargetsMeaning | entry_manipulation/manipulators/posting_consolidators/posting_wrapping/source_posting_wrapper_base.py:23-26 | every target the matcher accepts is found, and the indices rise strictly |
| Distribution.ReachedNewMeaning | entry_manipulation/manipulators/posting_consolidators/posting_wrapping/source_posting_wrapper_base.py:23-26 | a target is reached exactly when the matcher accepts its match data, each at most once and in order |
| Distribution.ProcessPostingsNew | entry_manipulation/manipulators/posting_consolidators/posting_wrapping/source_posting_wrapper_base.py:22-57 | the newer `process_postings` makes exactly the calls of `DistributeNew`, none when no target matches |
| Distribution.DistributeNewMeaning | entry_manipulation/manipulators/posting_consolidators/posting_wrapping/source_posting_wrapper_base.py:22-57 | a successful newer distribution calls each reached target once, in order; with at least one call and a known type it hands out the source's amount up to rounding |
| Spreading.TotalsKeys | entry_manipulation/manipulators/posting_consolidators/spreading/target_posting_wrapper.py:20-28 | after any sequence of adds the keys of the totals are exactly the keys that were added |
| Spreading.TotalsValues | entry_manipulation/manipulators/posting_consolidators/spreading/target_posting_wrapper.py:20-28 | each key's total is the sum of the numbers added under that key, so adds under one key never change another's total and their order does not matter |
| Spreading.TotalsOrder | entry_manipulation/manipulators/posting_consolidators/spreading/target_posting_basic_wrapper.py:19 | the keys are kept, and so emitted, in the order of their first add |
| Spreading.SpreadOutputsMeaning | entry_manipulation/manipulators/posting_consolidators/spreading/simple_posting_wrapper.py:31-40 | the output is the original posting unchanged, then one posting per key on the distinct sub-account `account:key` carrying the key's total in the units currency; there are 1 + keys postings, and the added ones total what was distributed (also target_posting_basic_wrapper.py:17-26) |
| Spreading.KeyPostingsTotal | entry_manipulation/manipulators/posting_consolidators/spreading/simple_posting_wrapper.py:33-38 | the per-key postings add up, in the units currency, to the sum of the key totals |
| Spreading.SubAccountInjective | entry_manipulation/manipulators/posting_consolidators/spreading/simple_posting_wrapper.py:35 | different keys give different sub-accounts |
| Spreading.UnitNumberValue | entry_manipulation/manipulators/posting_consolidators/spreading/target_posting_with_cost_wrapper.py:16-24 | the accumulated unit number is units × cost plus the sum of the key totals |
| Spreading.CostPairsMeaning | entry_manipulation/manipulators/posting_consolidators/spreading/target_posting_with_cost_wrapper.py:18-22 | for each key a supplementary posting on `account:key` then its opposition posting, both in the cost currency; the pairs cancel in every currency |
| Spreading.CostOutputsMeaning | entry_manipulation/manipulators/posting_consolidators/spreading/target_posting_with_cost_wrapper.py:14-49 | fails exactly when the posting has no cost or zero units; otherwise 2 × keys + 1 postings, the modified posting last, differing from the original only in the cost number, with units × new cost = units × old cost + the total moved, and the supplementary/opposition postings balanced |
| Spreading.CostOutputsNothingToMove | entry_manipulation/manipulators/posting_consolidators/spreading/target_posting_with_cost_wrapper.py:16-31 | with no contributions the posting comes back alone, its cost unchanged |
| Spreading.PairCancels | entry_manipulation/manipulators/posting_consolidators/spreading/target_posting_with_cost_wrapper.py:40-47 | a supplementary posting and its opposition posting sum to zero |
| Spreading.SimplePostingWrapper.constructor | entry_manipulation/manipulators/posting_consolidators/spreading/simple_posting_wrapper.py:13-19 | the wrapper starts with no totals and no registered record |
| Spreading.SimplePostingWrapper.AddPosting | entry_manipulation/manipulators/posting_consolidators/spreading/simple_posting_wrapper.py:21-29 | the key's total grows by the number; the first add for a key stores a fresh record `account -> account:postfix` with the configured postfix in the registry; a later add changes neither the record nor the registry |
| Spreading.SimplePostingWrapper.GetPostings | entry_manipulation/manipulators/posting_consolidators/spreading/simple_posting_wrapper.py:31-40 | emits exactly the spread outputs, keeping cost and price, and adds every emitted sub-account to the last registered record |
| Spreading.TargetPostingWrapper.constructor | entry_manipulation/manipulators/posting_consolidators/spreading/target_posting_basic_wrapper.py:11-15 | the wrapper starts with no totals and no registered record |
| Spreading.TargetPostingWrapper.AddPosting | entry_manipulation/manipulators/posting_consolidators/spreading/target_posting_wrapper.py:20-28 | the source postfix's total grows by the number; its first add registers a fresh record `account -> account:target-postfix`; later adds only accumulate |
| Spreading.TargetPostingWrapper.GetNumber | entry_manipulation/manipulators/posting_consolidators/spreading/target_posting_wrapper.py:30-31 | the weight is the posting's units number |
| Spreading.TargetPostingWrapper.GetMeta | entry_manipulation/manipulators/posting_consolidators/spreading/target_posting_wrapper.py:33-34 | the metadata value under the name, or nothing exactly when it is absent |
| Spreading.TargetPostingWrapper.GetPostingsBasic | entry_manipulation/manipulators/posting_consolidators/spreading/target_posting_basic_wrapper.py:17-26 | emits exactly the spread outputs without cost or price, and adds every emitted sub-account to the last registered record |
| Spreading.TargetPostingWrapper.GetPostingsWithCost | entry_manipulation/manipulators/posting_consolidators/spreading/target_posting_with_cost_wrapper.py:14-49 | emits exactly the cost outputs or fails like them, and adds every supplementary sub-account to the last registered record when the posting has a cost |
| Spreader.CreateSourceWrapper | entry_manipulation/manipulators/posting_consolidators/spreading/posting_wrapper_factory.py:22-27 | succeeds exactly when the id text parses; the source keeps the posting, its distribution type and the parsed ids, its amount is its own units number, and its postfix is a colon-free suffix of its account (the last colon segment) |
| Spreader.PrepareTarget | entry_manipulation/manipulators/posting_consolidators/spreading/posting_wrapper_factory.py:32-34 | succeeds exactly when the target-id key is present and the ids parse; the key is removed from the posting's metadata and nothing else changes |
| Spreader.WrapSpreadMeaning | entry_manipulation/manipulators/posting_consolidators/posting_wrapper_factory_base.py:21-41 | the spreading factory's wrapping succeeds exactly when there is no target posting (its target constructor call cannot succeed) and every source's ids parse; it then keeps the simple and irrelevant buckets and wraps each source with `CreateSourceWrapper` |
| Spreader.Start | entry_manipulation/manipulators/posting_consolidators/spreading/simple_posting_wrapper.py:13-19 | every simple wrapper starts with no totals |
| Spreader.ApplyCalls | entry_manipulation/manipulators/posting_consolidators/spreading/source_posting_wrapper.py:18-19 | delivering calls to simple wrappers keeps one totals table per wrapper |
| Spreader.CallsToSimples | entry_manipulation/manipulators/posting_consolidators/source_posting_wrapper_base.py:25-32 | without targets, every call a source makes goes to a simple posting |
| Spreader.SpreadTotals | entry_manipulation/manipulators/posting_consolidators/posting_consolidator_something_base.py:29-30 | each source in order hands out its shares; the result has one well-formed totals table per simple posting |
| Spreader.SpreadTotalsConserve | entry_manipulation/manipulators/posting_consolidators/posting_consolidator_something_base.py:29-30 | the simple wrappers' totals add up to exactly what the sources handed out after rounding: nothing is lost or made up |
| Spreader.StartTotal | entry_manipulation/manipulators/posting_consolidators/spreading/simple_posting_wrapper.py:13-19 | the starting totals add up to 0 |
| Spreader.ApplyCallsTotal | entry_manipulation/manipulators/posting_consolidators/spreading/source_posting_wrapper.py:18-19 | delivering calls raises the grand total by exactly the numbers they carry |
| Spreader.AccumulateTotal | entry_manipulation/manipulators/posting_consolidators/spreading/simple_posting_wrapper.py:21-29 | one add raises a wrapper's grand total by the number added |
| Spreader.WrapPostingsSpread | entry_manipulation/manipulators/posting_consolidators/posting_wrapper_factory_base.py:21-41 | the wrapping loop with the spreading constructors gives exactly the specification's buckets, and one fresh, distinct, empty simple wrapper per simple posting with the configured postfix (spreading/posting_wrapper_factory.py:29-30) |
| Spreader.RegistryStart | entry_manipulation/manipulators/posting_consolidators/posting_wrapper_factory_base.py:21-41 | freshly wrapped simple postings, none holding a record, leave the registry exactly as it was: no target account is registered yet |
| Spreader.ApplyShares | entry_manipulation/manipulators/posting_consolidators/spreading/source_posting_wrapper.py:18-19 | delivering one source's calls in order leaves every wrapper holding the specification's totals, and the registry holds the start's records plus, for each simple posting that has received a share, its target account `account:postfix` mapped to that wrapper's own record `account -> account:postfix` with no additional accounts; wrappers with no share hold no record |
| Spreader.Deliver | entry_manipulation/manipulators/posting_consolidators/spreading/simple_posting_wrapper.py:21-29 | one call adds its number under the source's postfix to the one wrapper it names; a key the wrapper has already seen leaves the registry unchanged, a new key stores a fresh record under the wrapper's target account (replacing any there), and the registry invariant above is kept |
| Spreader.DeliverSeen | entry_manipulation/manipulators/posting_consolidators/spreading/simple_posting_wrapper.py:28-29 | a key already seen: the total grows, the registry and every record are left as they were |
| Spreader.DeliverNew | entry_manipulation/manipulators/posting_consolidators/spreading/simple_posting_wrapper.py:22-27 | a new key: the total is set, and a fresh record `account -> account:postfix` is stored under the target account and held by the wrapper; no other wrapper's record changes |
| Spreader.TrackingNewKey | entry_manipulation/manipulators/posting_consolidators/spreading/simple_posting_wrapper.py:23-27 | storing a fresh record under a wrapper's target account keeps the registry tracking exactly the start's records and one record per simple posting with totals |
| Spreader.TargetsStep | entry_manipulation/manipulators/posting_consolidators/spreading/simple_posting_wrapper.py:21-29 | one add makes the wrapper's target account one of the registered ones (and adds no other) |
| Spreader.ProcessSource | entry_manipulation/manipulators/posting_consolidators/posting_consolidator_something_base.py:29-30 | one source either fails as the specification does, or delivers calls that only reach simple wrappers, leaves them holding the specification's totals, and keeps the registry invariant for those totals |
| Spreader.ProcessSources | entry_manipulation/manipulators/posting_consolidators/posting_consolidator_something_base.py:29-30 | every source in order is processed; the run fails with the first source's error, or leaves the wrappers holding `SpreadTotals` and the registry holding the start's records plus one fresh record per simple posting with a share, under its target account |
| Spreader.SpreadPhases | entry_manipulation/manipulators/posting_consolidators/posting_consolidator_something_base.py:20-37 | a wrapping failure or a source failure is the result; otherwise the transaction keeps every field but its postings, which become the irrelevant postings followed by each simple wrapper's outputs in order; sources emit nothing themselves |
| Spreader.EmitOne | entry_manipulation/manipulators/posting_consolidators/spreading/simple_posting_wrapper.py:31-40 | one wrapper's `get_postings`: its spread outputs, and its record, if any, gains the sub-accounts of all its keys; no other wrapper's record and none of the start's records changes |
| Spreader.EmitPostings | entry_manipulation/manipulators/posting_consolidators/posting_consolidator_something_base.py:27-32 | emits the irrelevant postings, then every simple wrapper's outputs, in order; afterwards every record a wrapper holds names the sub-accounts of all of that wrapper's keys, and the start's records are untouched |
| Spreader.Collect | entry_manipulation/manipulators/posting_consolidators/posting_consolidator_something_base.py:27-32 | the collected postings, and the registry settled (below) against the one the sources started from |
| Spreader.SettleAfterEmit | entry_manipulation/manipulators/posting_consolidators/spreading/simple_posting_wrapper.py:31-40 | the settled registry: the start's keys first and in order; exactly the start's target accounts and the newly registered ones; the start's records unchanged where not replaced; under each registered target a record `account -> account:postfix` whose additional accounts are the sub-accounts of all of that posting's keys |
| Spreader.SpreadBuckets | entry_manipulation/manipulators/posting_consolidators/posting_consolidator_something_base.py:24-32 | after wrapping, the sources' failure is the result; otherwise the irrelevant postings then the wrappers' outputs, with the registry settled against its state before the sources ran |
| Spreader.Execute | entry_manipulation/manipulators/posting_consolidators/posting_consolidator_something_base.py:20-37 | the spreader's `execute` computes exactly `Spread` (no factory is an error); on success its side data is the registry's records, and the registry is settled against its state before the call: the start's records, plus one record per simple posting that received a share, naming its account, its target `account:postfix` and the sub-accounts of all its keys (spreading/posting_consolidator_spreader.py:40-41) |
| Orchestration.KindOf | entry_manipulation/entry_manipulator_orchestrator.py:35-43 | a manipulator type is known exactly when it is one of the five registered names |
| Orchestration.Construct | entry_manipulation/manipulators/posting_consolidators/filling/posting_consolidator_filler.py:9-18 | building a manipulator succeeds for every kind but the filler, whose constructor always raises `TypeError` (it passes five arguments to a factory taking three, filling/posting_wrapper_factory.py:17-18) |
| Orchestration.GetManipulators | entry_manipulation/entry_manipulator_orchestrator.py:32-48 | succeeds exactly when every configured type is known and buildable, giving one manipulator per type in order; otherwise fails at the first type that is not, with "not implemented" for an unknown type and the filler's `TypeError` for "posting-filler" |
| Orchestration.KnownKinds | entry_manipulation/entry_manipulator_orchestrator.py:42-45 | one manipulator per configured name, each the one registered under it |
| Orchestration.ManipulateOne | entry_manipulation/entry_manipulator_orchestrator.py:54-57 | a non-transaction entry comes back as it is, with no records |
| Orchestration.AsEntries | entry_manipulation/entry_manipulator_orchestrator.py:73 | the chain's transactions, in order, as entries |
| Orchestration.MergeMeaning | entry_manipulation/entry_manipulator_orchestrator.py:75-83 | after the merge an account has a record exactly when it had one or some new record is for it; the record keeps the names of the first one seen, and its additional accounts are the union of all of them |
| Orchestration.MergeKeys | entry_manipulation/entry_manipulator_orchestrator.py:79-81 | the merged map's accounts are the old ones plus every account a new record is for |
| Orchestration.ChainIdentity | entry_manipulation/entry_manipulator_orchestrator.py:59-71 | manipulators that hand back their input and no records leave the transactions as they are |
| Orchestration.PassIdentity | entry_manipulation/entry_manipulator_orchestrator.py:62-68 | one such manipulator over a list of transactions leaves it as it is |
| Orchestration.ManipulateAllConcat | entry_manipulation/entry_manipulator_orchestrator.py:54-73 | with stateless manipulators (`Orchestration.Runner`, see "## Left out"), entries are treated independently: the result for a concatenation is the concatenation of the results, for the entries and the records alike |
| Orchestration.ManipulateAllSnoc | entry_manipulation/entry_manipulator_orchestrator.py:54-73 | one more entry succeeds exactly when the shorter run and that entry both do, and its output and records are appended |
| Orchestration.ManipulateAllSingle | entry_manipulation/entry_manipulator_orchestrator.py:54-73 | one entry is manipulated as `ManipulateOne` says |
| Orchestration.NonTransactionStays | entry_manipulation/entry_manipulator_orchestrator.py:55-57 | a non-transaction entry is passed through at its place, with no records |
| Orchestration.Renamed | entry_manipulation/entry_manipulator_orchestrator.py:94-101 | a posting on an account with a record moves to that record's target account with everything else kept; any other posting is unchanged |
| Orchestration.Orchestrator.constructor | entry_manipulation/entry_manipulator_orchestrator.py:18-19 | the orchestrator starts with no records |
| Orchestration.Orchestrator.ManipulateEntries | entry_manipulation/entry_manipulator_orchestrator.py:50-85 | the entries and records are exactly those of `ManipulateAll`, and the records are merged into the map; an exception leaves the map as it was |
| Orchestration.Orchestrator.MergeInto | entry_manipulation/entry_manipulator_orchestrator.py:75-83 | the merge loop leaves exactly `Merge` of the old map and the records |
| Orchestration.Orchestrator.ConsolidateOpen | entry_manipulation/entry_manipulator_orchestrator.py:109-119 | a consolidated `Open` becomes the `Open` of the target account, then one `Open` for each additional account, each exactly once, in the set's order |
| Orchestration.Orchestrator.RenamePostings | entry_manipulation/entry_manipulator_orchestrator.py:93-101 | the postings of one transaction, each renamed, in order |
| Orchestration.Orchestrator.ConsolidateEntries | entry_manipulation/entry_manipulator_orchestrator.py:87-107 | each entry in order becomes its consolidation: the `Open` expansion, the transaction with renamed postings (other fields kept), or the entry itself |
| Orchestration.Orchestrator.Execute | entry_manipulation/entry_manipulator_orchestrator.py:21-30 | a configured type that is unknown or is "posting-filler" fails and keeps the map; otherwise the manipulation fails as the specification does, or the map absorbs its records and the output is the consolidation of its entries; the error list is always empty |
| TransactionSplitter.Narrations | entry_manipulation/manipulators/transaction_splitter.py:111-119 | the stayed narration is the configured one or else the entry's; the moved one is the posting's moved-narration metadata when that key is configured and present, else the configured one, else the entry's; a moved-narration value of `None` gives the entry's narration |
| TransactionSplitter.TransferAccountOf | entry_manipulation/manipulators/transaction_splitter.py:16-22 | with a transfer-account metadata name the account is that metadata value: none exactly when it is missing or `None`, the text when it is a text, and an error for any other kind; otherwise it is the configured literal account |
| TransactionSplitter.TransferPosting | entry_manipulation/manipulators/transaction_splitter.py:121-125 | a posting on the transfer account carrying the main posting's units, negated when it sits with the main posting, and nothing else |
| TransactionSplitter.MainCopy | entry_manipulation/manipulators/transaction_splitter.py:101-109 | the main posting with every key to remove dropped from its metadata and all else kept |
| TransactionSplitter.Others | entry_manipulation/manipulators/transaction_splitter.py:68 | every posting equal to the main posting is dropped and every other one is kept as often as it occurs |
| TransactionSplitter.Split | entry_manipulation/manipulators/transaction_splitter.py:55-96 | no move mode is a KeyError; a posting without the date key or rejected by the account filter does not split; an unknown mode does not split; a split gives, in "stay" mode, the original with [main copy, −units transfer] and the new one with the others plus a +units transfer, and the reverse in "move" mode, the new one dated at the metadata date, narrations as `Narrations` gives |
| TransactionSplitter.FirstSplit | entry_manipulation/manipulators/transaction_splitter.py:47-53 | no split exactly when no posting splits; otherwise the result is the first posting's split, every earlier posting not splitting |
| TransactionSplitter.OthersTagged | entry_manipulation/manipulators/transaction_splitter.py:68 | dropping a dated main posting drops at least one dated posting |
| TransactionSplitter.SplitShrinks | entry_manipulation/manipulators/transaction_splitter.py:67-83 | the two halves of a split hold fewer dated postings together than the transaction did: the main copy loses the date key and transfer postings carry no metadata |
| TransactionSplitter.FirstSplitShrinks | entry_manipulation/manipulators/transaction_splitter.py:47-53 | the first split of a transaction shrinks it in the same way |
| TransactionSplitter.SplitTransaction | entry_manipulation/manipulators/transaction_splitter.py:24-45 | without a transfer-account metadata name or a literal transfer account the transaction comes back alone and unchanged |
| TransactionSplitter.DrainSettled | entry_manipulation/manipulators/transaction_splitter.py:36-43 | every transaction the work list hands back is settled; the work list terminates because each split lowers the number of dated postings pending |
| TransactionSplitter.SplitTransactionSettled | entry_manipulation/manipulators/transaction_splitter.py:24-45 | every transaction `execute` returns is settled: none of its postings would split it again |
| TransactionSplitter.Count | entry_manipulation/manipulators/transaction_splitter.py:68 | the number of copies of a posting in the list |
| TransactionSplitter.OthersSum | entry_manipulation/manipulators/transaction_splitter.py:68 | dropping every copy of the main posting lowers each currency's total by its units once per copy |
| TransactionSplitter.SplitBalances | entry_manipulation/manipulators/transaction_splitter.py:74-83 | the half holding the main copy is balanced in every currency; the other half's total is the transaction's, less the main posting's units per copy, plus one transfer of them |
| TransactionSplitter.SplitKeepsBalance | entry_manipulation/manipulators/transaction_splitter.py:74-125 | a balanced transaction whose main posting occurs once splits into two balanced transactions |
| TransactionSplitter.Execute | entry_manipulation/manipulators/transaction_splitter.py:24-45 | the work-list loop (`pop(0)`, append both halves, keep a settled one) computes exactly `SplitTransaction` |
| TransactionSplitter.ProcessEntry | entry_manipulation/manipulators/transaction_splitter.py:47-53 | the loop over the postings stops at the first split, as `FirstSplit` says, and the set of keys to remove only ever gains the moved-narration key |
| TransactionSplitter.ProcessPosting | entry_manipulation/manipulators/transaction_splitter.py:55-96 | computes exactly `Split`, with the moved-narration key added to the keys to remove once a dated posting passes the filter |
| TransactionSplitter.MainPostingCopy | entry_manipulation/manipulators/transaction_splitter.py:101-109 | the copy loop over the metadata keys gives exactly `MainCopy` |
| LegacyConsolidator.RelevantAccounts | entry_manipulators/manipulators/posting_consolidator.py:54-60 | the account of every posting carrying the postfix metadata is relevant |
| LegacyConsolidator.RelevantAccountsTagged | entry_manipulators/manipulators/posting_consolidator.py:54-60 | and only those accounts are |
| LegacyConsolidator.GetPosting | entry_manipulators/manipulators/posting_consolidator.py:39-52 | a posting with the postfix metadata moves to `account:value` (a non-text value cannot be concatenated), else a relevant account moves to `account:postfix`, else the posting is unchanged; only the account ever changes |
| LegacyConsolidator.GetPostingsPointwise | entry_manipulators/manipulators/posting_consolidator.py:21-24 | the new postings line up one to one with the old ones, each the result of `get_posting` |
| LegacyConsolidator.GetPostingsBalanced | entry_manipulators/manipulators/posting_consolidator.py:21-24 | moving postings between accounts keeps every currency's total |
| LegacyConsolidator.ConsolidateBalanced | entry_manipulators/manipulators/posting_consolidator.py:17-29 | the consolidated transaction balances exactly when the original does |
| LegacyConsolidator.RegisteredMeaning | entry_manipulators/manipulators/posting_consolidator.py:40-42 | a sub-account is registered for an account exactly when some tagged posting of that account names it |
| LegacyConsolidator.GetAccountConsolidators | entry_manipulators/manipulators/posting_consolidator.py:31-37 | one fresh record per relevant account, to `account:postfix`, with no additional accounts, keys without repeats |
| LegacyConsolidator.MovePostings | entry_manipulators/manipulators/posting_consolidator.py:21-24 | the posting loop computes the moved postings and leaves each record holding exactly the sub-accounts registered for its account |
| LegacyConsolidator.GetPostingInPlace | entry_manipulators/manipulators/posting_consolidator.py:39-52 | computes `get_posting` and adds the moved-to sub-account to its account's record and to no other |
| LegacyConsolidator.RecordsOf | entry_manipulators/manipulators/posting_consolidator.py:29 | one record per relevant account, each the one the map holds for it |
| LegacyConsolidator.Execute | entry_manipulators/manipulators/posting_consolidator.py:17-29 | the new transaction is the consolidated one, and the records are exactly the relevant accounts' with the sub-accounts their postings moved to |
| LegacySplitter.Keep | entry_manipulators/manipulators/transaction_splitter.py:34-39 | the relevant postings, every one passing all the filters |
| LegacySplitter.Drop | entry_manipulators/manipulators/transaction_splitter.py:34-39 | the postings the filters reject, none of them relevant |
| LegacySplitter.KeepDropPartition | entry_manipulators/manipulators/transaction_splitter.py:34-39 | the relevant and the other postings together are the transaction's postings as a multiset |
| LegacySplitter.TransferAccountOf | entry_manipulators/manipulators/transaction_splitter.py:20-30 | the transfer account is the posting's transfer metadata when the rule names one, else the rule's literal transfer account |
| LegacySplitter.NarrationOf | entry_manipulators/manipulators/transaction_splitter.py:77-85 | the posting's narration metadata, then removed, when the rule names it and the posting has it; otherwise the rule's narration, or else the transaction's |
| LegacySplitter.Step | entry_manipulators/manipulators/transaction_splitter.py:49-116 | one new transaction holding the relevant posting's units, stripped of the keys to remove, and their negation on the transfer account, with the original's header and the posting's date unless in inverted mode; a transfer posting of the same units on that account goes back to the original |
| LegacySplitter.StepMeaning | entry_manipulators/manipulators/transaction_splitter.py:49-116 | a step fails exactly when the transfer account, the narration or (outside inverted mode) the date is not of its kind; otherwise the new transaction carries the narration chosen from metadata, rule or original, its first posting is the relevant posting without the consumed keys, and the transfer posting goes to the account `TransferAccountOf` names |
| LegacySplitter.TryCreateTxn | entry_manipulators/manipulators/transaction_splitter.py:15-71 | an unconfigured rule or no relevant posting leaves the transaction alone; otherwise the result is never empty |
| LegacySplitter.StepsPointwise | entry_manipulators/manipulators/transaction_splitter.py:49-68 | the loop's new transactions line up one to one with the relevant postings |
| LegacySplitter.StepsSum | entry_manipulators/manipulators/transaction_splitter.py:92-98 | the transfer postings added to the original sum like the relevant postings they replace |
| LegacySplitter.KeepDropSum | entry_manipulators/manipulators/transaction_splitter.py:34-39 | each currency's total splits into the relevant and the other postings' totals |
| LegacySplitter.TryCreateTxnBalanced | entry_manipulators/manipulators/transaction_splitter.py:43-71 | every new transaction balances on its own and the original keeps its total in every currency |
| LegacySplitter.ModifiedSum | entry_manipulators/manipulators/transaction_splitter.py:88-98 | the modified original sums like the transaction did |
| LegacySplitter.StepsBalanced | entry_manipulators/manipulators/transaction_splitter.py:101-116 | each new transaction balances in every currency |
| LegacySplitter.StepBalanced | entry_manipulators/manipulators/transaction_splitter.py:101-116 | a new transaction holds the posting and its negation, so it balances |
| LegacySplitter.InvertedSingleDate | entry_manipulators/manipulators/transaction_splitter.py:45-47 | in inverted mode with one relevant posting, the new transaction keeps the old date and the original takes the posting's date |
| LegacySplitter.RemoveFirstRelevant | entry_manipulators/manipulators/transaction_splitter.py:92 | `list.remove` of the first relevant posting takes it off the front of the relevant ones and leaves the others alone |
| LegacySplitter.DeleteKeys | entry_manipulators/manipulators/transaction_splitter.py:89-90 | the deletion loop leaves the metadata without exactly those keys |
| LegacySplitter.ProcessRelevant | entry_manipulators/manipulators/transaction_splitter.py:49-68 | one pass of the loop body gives the new transaction and the original's list with the posting removed and its transfer appended |
| LegacySplitter.Execute | entry_manipulators/manipulators/transaction_splitter.py:15-71 | the loop the source runs computes exactly `TryCreateTxn` |
| LegacySplitter.RunSteps | entry_manipulators/manipulators/transaction_splitter.py:49-68 | after the loop the original holds the other postings followed by the transfer postings |
| LegacyOrchestration.Manipulators | entry_manipulators/entry_manipulator_orchestrator.py:17-22 | every manipulator is a transaction splitter, else the first unknown type raises with its name |
| LegacyOrchestration.ManipulatorsFirstErr | entry_manipulators/entry_manipulator_orchestrator.py:18-22 | the first unknown type is the one reported |
| LegacyOrchestration.Thread | entry_manipulators/entry_manipulator_orchestrator.py:30-32 | each splitter adds a non-empty output |
| LegacyOrchestration.Entries | entry_manipulators/entry_manipulator_orchestrator.py:31-32 | each new transaction becomes one entry, in order |
| LegacyOrchestration.SingleSplitter | entry_manipulators/entry_manipulator_orchestrator.py:30-32 | with one splitter, a transaction turns into exactly that splitter's output |
| LegacyOrchestration.NoSplitters | entry_manipulators/entry_manipulator_orchestrator.py:24-32 | without splitters every transaction is dropped and every other entry is kept in order |
| LegacyOrchestration.ThreadBalanced | entry_manipulators/entry_manipulator_orchestrator.py:30-32 | through the chain of splitters, each new transaction balances and the shared final posting list sums like the original |
| LegacyOrchestration.ProcessTxnBalanced | entry_manipulators/entry_manipulator_orchestrator.py:30-32 | a balanced transaction comes out as balanced transactions |
| LegacyOrchestration.ProcessTransaction | entry_manipulators/entry_manipulator_orchestrator.py:30-32 | the inner loop computes exactly the chained splitters' output |
| LegacyOrchestration.Execute | entry_manipulators/entry_manipulator_orchestrator.py:12-34 | the loops compute exactly `Run`: the manipulators or the first unknown-type error, then per entry the non-transaction kept or the splitters' output, and no errors |
| PostSplitting.Flagged | post_splitter.py:135-138 | the postings whose metadata holds the split-type key, each of them flagged |
| PostSplitting.FlaggedCopies | post_splitter.py:135-138 | a flagged posting occurs among the flagged ones as often as in the transaction |
| PostSplitting.SingleFlagged | post_splitter.py:139-143 | the one flagged posting occurs once in the transaction, so replacing it in place replaces one posting |
| PostSplitting.NumberToSplit | post_splitter.py:161-177 | with unit and exchange-rate keys configured and present, the call fails exactly when either value is not an amount, and otherwise takes the cost branch: the number is the unit metadata's, the cost is the exchange rate dated at the entry, and the rate key is deleted; when either key is unconfigured or absent, the number is minus the flagged posting's, there is no cost and the posting is unchanged |
| PostSplitting.SplitOne | post_splitter.py:31-40 | the flagged posting comes out as its copy without the key; a posting equal to that copy or not needing a change is kept; any other gets the mode's new unit and cost, no price and no flag, its account and metadata kept |
| PostSplitting.SplitEntry | post_splitter.py:139-159 | a transaction without exactly one flagged posting, or whose type is neither "equal" nor "proportional" with a ratio key configured, is left alone |
| PostSplitting.SplitPostingsPointwise | post_splitter.py:30-40 | the split keeps every posting in its place, each the result of the loop body |
| PostSplitting.SplitEntryShape | post_splitter.py:27-44 | the transaction is unchanged apart from its postings, and their count is kept; every posting keeps its account; the flagged one loses the split-type key; every other keeps its metadata |
| PostSplitting.EqualSplitSum | post_splitter.py:31-83 | each currency's total after an equal split is the flagged posting's copies, the kept postings and minus the unit once per filled posting |
| PostSplitting.EqualSplitBalanced | post_splitter.py:64-86 | without rounding, an equal split fails, dividing by zero, exactly when no posting needs filling, and otherwise balances the transaction |
| PostSplitting.TimesQuotient | post_splitter.py:79 | `number / divider` handed to `divider` postings gives back the number |
| PostSplitting.ProportionalSplitSum | post_splitter.py:99-108 | without rounding, the filled postings together receive their ratios' share of the ratio total times the number to split |
| PostSplitting.SharesScale | post_splitter.py:104-106 | the shares of the filled postings add up to their ratio sum over the total, times the number to split |
| PostSplitting.FilledIsTotal | post_splitter.py:99-102 | when the flagged posting has no ratio and all ratios share one currency, the filled ratios are the whole ratio total |
| PostSplitting.ProportionalSplitHandsOutAll | post_splitter.py:89-111 | without rounding and without a unit key, a proportional split hands out exactly minus the flagged posting's number, so the transaction sums to what its kept postings do |
| PostSplitting.EqualNeverFails | post_splitter.py:85-86 | equal mode never fails once its unit is known |
| PostSplitting.ConstructEqual | post_splitter.py:68-83 | the constructor's loop and division compute the equal unit |
| PostSplitting.MaxNumber | post_splitter.py:99-102 | the ratio loop computes the ratio total, a non-amount ratio being an error |
| PostSplitting.SplitLoop | post_splitter.py:30-40 | the loop computes exactly the pointwise split |
| PostSplitting.SplitTransaction | post_splitter.py:145-177 | `get_splitter(...).split()` computes exactly `SplitEntry` |
| PostSplitting.Split | post_splitter.py:128-149 | the loop over the entries computes exactly `Run`: non-transactions are kept, every transaction is split, and no errors are returned |
| TxnSplitting.Relevants | txn_splitter.py:57-79 | every posting kept is relevant: dated, and carrying the transfer-account key when the rule reads the account from metadata |
| TxnSplitting.RelevantsFiltered | txn_splitter.py:57-79 | the kept postings are exactly the relevant ones, each once, in input order |
| TxnSplitting.TryCreate | txn_splitter.py:52-97 | nothing is split exactly when the rule names no transfer account or the transaction has other than one relevant posting |
| TxnSplitting.DeleteAllRemoval | txn_splitter.py:54-113 | deleting the consumed keys fails, on a second `del` of the same key, exactly when the transfer-account key is the date key |
| TxnSplitting.TryCreateSplits | txn_splitter.py:87-140 | the new transaction keeps the original's header but has no payee, the rule's narration or else the original's, the posting's date, and holds the relevant posting without its consumed keys and its negation on the transfer account; the original is changed in its postings alone and gains a transfer posting of the same units on that account |
| TxnSplitting.TryCreateBalances | txn_splitter.py:111-140 | the new transaction balances and the original sums, in every currency, to what it did before |
| TxnSplitting.TryCreateMovesPosting | txn_splitter.py:115-121 | when no other posting equals the stripped one, the original loses exactly that posting and gains the transfer at the end |
| TxnSplitting.ApplyRulesBalanced | txn_splitter.py:45-48 | running every rule on a balanced transaction leaves the original and every new transaction balanced |
| TxnSplitting.ProcessEntries | txn_splitter.py:40-48 | every entry keeps its slot |
| TxnSplitting.ProcessEntriesInPlace | txn_splitter.py:40-50 | every transaction comes back, in its place, as the rules changed it, and every other entry unchanged |
| TxnSplitting.Entries | txn_splitter.py:50 | each new transaction becomes one entry, in order |
| TxnSplitting.Run | txn_splitter.py:16-50 | a configuration that does not parse gives back the entries with one error; otherwise no errors and at least the entries |
| TxnSplitting.ProcessEntriesBalanced | txn_splitter.py:40-48 | the new transactions all balance when the given ones do |
| TxnSplitting.RunBalanced | txn_splitter.py:16-50 | every transaction the plugin returns balances when every transaction it was given does |
| TxnSplitting.TryCreateTxn | txn_splitter.py:52-97 | the method computes exactly `TryCreate` |
| TxnSplitting.SplitTransaction | txn_splitter.py:45-48 | the rules loop computes exactly `ApplyRules` |
| TxnSplitting.Split | txn_splitter.py:16-50 | the loops compute exactly `Run` |
| SplitCard.Relevants | split_card_transactions.py:87-114 | every posting kept is relevant: dated with the booking-date key, and carrying the transfer-account key or sitting on the splitter's account |
| SplitCard.RelevantsFiltered | split_card_transactions.py:87-114 | the kept postings are exactly the relevant ones, each once, in input order |
| SplitCard.TransferAccount | split_card_transactions.py:44-50 | the configured account for an account splitter; for the metadata selector the posting's text value, `None` exactly when the value is `None`, and a failure exactly when it is neither |
| SplitCard.SplitBooking | split_card_transactions.py:43-84 | nothing is split exactly when the transfer account is `None`, whatever the booking date; a transfer account of the wrong kind fails |
| SplitCard.MetaSplit | split_card_transactions.py:86-102 | nothing is split exactly when the transaction has other than one posting with both booking keys, or that posting's transfer account is `None` |
| SplitCard.ProcessEntries | split_card_transactions.py:129-140 | every entry keeps its slot |
| SplitCard.Entries | split_card_transactions.py:142 | each booking transaction becomes one entry, in order |
| SplitCard.Run | split_card_transactions.py:14-35 | a configuration that does not parse gives back the entries with one error; otherwise no errors and at least the entries |
| SplitCard.SplitBookingShape | split_card_transactions.py:43-84 | the booking transaction keeps the original's header but has no payee, the configured narration and the booking date, and holds the posting without its consumed keys and its negation on the transfer account, so it balances; the original changes only in its postings, gains the same units on that account and keeps its totals |
| SplitCard.SplitBookingMovesPosting | split_card_transactions.py:75-82 | when the posting occurs once and nothing in the transaction equals it without its consumed keys, the changed original is the transaction less exactly that posting, the others in their order, followed by the transfer posting of its units |
| SplitCard.MetaSplitMovesPosting | split_card_transactions.py:86-102 | the metadata selector's split takes out exactly its one relevant posting in the same way, under the same condition |
| SplitCard.SameKeysFail | split_card_transactions.py:56-58 | when the booking-date and transfer-account keys coincide, the one relevant posting fails to split exactly when the shared value is not `None`; the model fails on the kind checks, since one value cannot be both a text and a date, where the source fails on the second `del` |
| SplitCard.AccountSplitFirst | split_card_transactions.py:104-125 | the account splitters are tried in order and the first with exactly one relevant posting splits |
| SplitCard.AccountSplitNone | split_card_transactions.py:104-127 | without such a splitter nothing is split |
| SplitCard.AccountSplitBalanced | split_card_transactions.py:104-127 | an account split leaves a balanced transaction balanced and produces a balanced booking |
| SplitCard.ProcessTxnBalanced | split_card_transactions.py:134-140 | both selectors run on a balanced transaction leave it and every booking balanced |
| SplitCard.ProcessEntriesInPlace | split_card_transactions.py:129-142 | every entry comes back in its place, each transaction as the metadata selector and then the account selector leave it |
| SplitCard.ProcessEntriesBalanced | split_card_transactions.py:129-140 | the bookings all balance when the given transactions do |
| SplitCard.ChangedBalanced | split_card_transactions.py:129-140 | every transaction put back in place of a given one balances when the given transactions do |
| SplitCard.RunBalanced | split_card_transactions.py:14-142 | every transaction the plugin returns balances when every transaction it was given does |
| SplitCard.SplitBookingTxn | split_card_transactions.py:43-84 | the method computes exactly `SplitBooking` |
| SplitCard.AccountBasedSplitter | split_card_transactions.py:104-127 | the loop over the splitters computes exactly `AccountSplit` |
| SplitCard.Split | split_card_transactions.py:14-142 | the loops compute exactly `Run` |
| BalancePads.RelevantPostings | balance_pad_creator.py:28-31 | the postings kept are all relevant: on the account, with the balance-unit key |
| BalancePads.RelevantPostingsMeaning | balance_pad_creator.py:28-31 | a posting is kept exactly when it is a posting of the entry and relevant |
| BalancePads.Update | balance_pad_creator.py:43-49 | the kept balances stay one per date; a date seen for the first time is added at the end, a known date keeps its place; the balance stored under the date is the new one when the date is new or the new one is strictly later, otherwise the old one, and every other date keeps its balance; it fails exactly when the stored and new times cannot be compared |
| BalancePads.UpdateAll | balance_pad_creator.py:36-38 | folding balances in keeps one balance per date |
| BalancePads.NewBalance | balance_pad_creator.py:52-61 | a balance on the account dated the day after the transaction, with the posting's unit amount, no tolerance and no difference, and metadata of filename, line number and the posting's balance time; it fails exactly when the unit is not an amount, the time key is missing, or the transaction lacks filename or line number |
| BalancePads.NewBalances | balance_pad_creator.py:52-63 | one balance per relevant posting, in order |
| BalancePads.ProcessAsWritten | balance_pad_creator.py:22-38 | the kept balances are one per date |
| BalancePads.Process | balance_pad_creator.py:22-38 | the kept balances are one per date |
| BalancePads.ProcessIsFold | balance_pad_creator.py:20-38 | the other entries pass through in their order, and the kept balances are the candidates (the account's balances and the created ones, in order) folded through `update_relevant_balances` |
| BalancePads.UpdateAllConcat | balance_pad_creator.py:22-38 | folding two runs of balances is folding the second into the result of the first |
| BalancePads.TimeLess | balance_pad_creator.py:48 | two times compare exactly when both are strings, both are dates, or both are numbers or booleans; two booleans compare with `False` before `True` |
| BalancePads.StrLessIrreflexive | balance_pad_creator.py:48 | no time string is before itself |
| BalancePads.StrLessTransitive | balance_pad_creator.py:48 | string order on times is transitive |
| BalancePads.LaterTransitive | balance_pad_creator.py:48 | \"later\" is transitive on balances whose times compare |
| BalancePads.LaterIrreflexive | balance_pad_creator.py:48 | no balance is later than itself |
| BalancePads.UpdateAllLatest | balance_pad_creator.py:43-49 | the fold keeps one balance per date that has a candidate and no other; no candidate of that date is later than it, and it is the first with the greatest time: every earlier candidate of the date has a strictly smaller time |
| BalancePads.UpdateLatest | balance_pad_creator.py:43-49 | one more update keeps that property, with the new balance added at the end of the candidates |
| BalancePads.UpdateKeptAt | balance_pad_creator.py:44-49 | after one more update each kept balance is still the first candidate of its date with the greatest time: the new one when its date is new or it is strictly later, otherwise the one kept before |
| BalancePads.KeptAtUnique | balance_pad_creator.py:43-49 | at most one candidate of a date is the first with the greatest time, so the kept balance is determined |
| BalancePads.StrLessTotal | balance_pad_creator.py:48 | of two time strings one is before the other or they are equal |
| BalancePads.LaterPastNotLater | balance_pad_creator.py:48 | a balance no later than the kept one is earlier than any balance later than the kept one |
| BalancePads.RunOutput | balance_pad_creator.py:11-40 | the output is the other entries in their order followed by one balance per date, the first of that date's candidates with the greatest time |
| BalancePads.RelevantBalanceIsCandidate | balance_pad_creator.py:23-25 | every balance on the account is a candidate, so its date gets a balance |
| BalancePads.AsWrittenRaisesOnOpen | balance_pad_creator.py:22-31 | the loop as written raises on an `Open` directive, which has no postings, where the corrected loop passes it through |
| BalancePads.AsWrittenAgrees | balance_pad_creator.py:22-38 | where the loop as written does not raise, it agrees with the corrected loop |
| BalancePads.CreateBalances | balance_pad_creator.py:52-63 | the loop computes exactly `NewBalances` |
| BalancePads.UpdateBalances | balance_pad_creator.py:36-38 | the loop computes exactly the fold `UpdateAll` |
| BalancePads.Create | balance_pad_creator.py:11-40 | the method computes exactly `Run` |
| Extracting.GetRelevantAccounts | entry_manipulation/manipulators/posting_consolidators/extracting/posting_consolidator_discounter.py:15-21 | an account is relevant exactly when some posting on it carries the extractor's metadata key |
| Extracting.GetPostingsFromPosting | entry_manipulation/manipulators/posting_consolidators/extracting/posting_consolidator_discounter.py:23-39 | an untagged posting is kept alone; a tagged one expands exactly when its metadata value is an amount, and no posting it expands to keeps the key |
| Extracting.DiscounterBalanced | entry_manipulation/manipulators/posting_consolidators/extracting/posting_consolidator_discounter.py:26-39 | a tagged posting expands to exactly three: the posting without the key, the tagged discount on the same account, and its negation on `account:discount-postfix`, the last two with no cost, price, flag or metadata; so every currency's total is unchanged |
| Extracting.OriginalPriceSplitsUnits | entry_manipulation/manipulators/posting_consolidators/original_pricing/posting_consolidator_original_price.py:26-38 | the original price splits the posting into the price posting and a posting on the discount account whose units make up the rest in the posting's currency |
| Extracting.OriginalPriceBalanced | entry_manipulation/manipulators/posting_consolidators/original_pricing/posting_consolidator_original_price.py:26-38 | when the original price is in the posting's currency, the split keeps every currency's total |
| Extracting.ExpandAllBalanced | entry_manipulation/manipulators/posting_consolidators/extracting/posting_consolidator_extracting_base.py:41-50 | expanding every posting keeps every currency's total, under the same condition for the original price |
| Extracting.ExpandAllPrefixErr | entry_manipulation/manipulators/posting_consolidators/extracting/posting_consolidator_extracting_base.py:46-47 | a posting that cannot be expanded makes the whole expansion fail with its error |
| Extracting.RegisteredOfRelevant | entry_manipulation/manipulators/posting_consolidators/extracting/posting_consolidator_discounter.py:34-37 | a relevant account registers exactly its own discount account |
| Extracting.GetAccountConsolidators | entry_manipulation/manipulators/posting_consolidators/extracting/posting_consolidator_extracting_base.py:27-35 | one fresh record per relevant account, to `account:price-postfix`, with no additional accounts, keys without repeats |
| Extracting.GetPostings | entry_manipulation/manipulators/posting_consolidators/extracting/posting_consolidator_extracting_base.py:41-50 | the expansion loop computes the expanded postings and leaves each record holding exactly the discount accounts its postings registered |
| Extracting.RegisterDiscount | entry_manipulation/manipulators/posting_consolidators/extracting/posting_consolidator_discounter.py:37 | a tagged posting's discount account is added to its own account's record; every record keeps its accounts, and the others keep their additional accounts |
| Extracting.RecordsOf | entry_manipulation/manipulators/posting_consolidators/extracting/posting_consolidator_extracting_base.py:25 | one record per relevant account, each to `account:price-postfix` with exactly its discount account |
| Extracting.Execute | entry_manipulation/manipulators/posting_consolidators/extracting/posting_consolidator_extracting_base.py:17-25 | the new transaction is the expanded one, and the records are exactly the relevant accounts', each with its own discount account |
| Filling.Filled | entry_manipulation/manipulators/posting_consolidators/filling/simple_posting_wrapper.py:18-22 | the emitted posting differs from the wrapped one in its units' number alone |
| Filling.SumConcat | entry_manipulation/manipulators/posting_consolidators/filling/simple_posting_wrapper.py:15-16 | accumulating two runs of numbers adds their totals |
| Filling.SumPermutation | entry_manipulation/manipulators/posting_consolidators/filling/simple_posting_wrapper.py:15-16 | the accumulated total does not depend on the order the numbers arrive in |
| Filling.SimplePostingWrapper.constructor | entry_manipulation/manipulators/posting_consolidators/filling/simple_posting_wrapper.py:11-13 | the wrapper holds the posting and an accumulator of zero |
| Filling.SimplePostingWrapper.AddNumber | entry_manipulation/manipulators/posting_consolidators/filling/simple_posting_wrapper.py:15-16 | the accumulator grows by the number and nothing else changes |
| Filling.SimplePostingWrapper.GetPostings | entry_manipulation/manipulators/posting_consolidators/filling/simple_posting_wrapper.py:18-22 | exactly one posting, the wrapped one carrying the accumulated number |
| Filling.FillAll | entry_manipulation/manipulators/posting_consolidators/filling/simple_posting_wrapper.py:15-16 | after a run of numbers the accumulator holds their sum |
| Filling.TargetPostingWrapper.constructor | entry_manipulation/manipulators/posting_consolidators/filling/target_posting_wrapper.py:13-16 | the wrapper holds the posting and ids and a fresh inner simple wrapper of the same posting at zero |
| Filling.TargetPostingWrapper.GetIds | entry_manipulation/manipulators/posting_consolidators/filling/target_posting_wrapper.py:18-19 | the ids given to the constructor |
| Filling.TargetPostingWrapper.AddNumber | entry_manipulation/manipulators/posting_consolidators/filling/target_posting_wrapper.py:24-25 | the number goes to the inner wrapper's accumulator |
| Filling.TargetPostingWrapper.GetPostings | entry_manipulation/manipulators/posting_consolidators/filling/target_posting_wrapper.py:21-22 | the inner wrapper's single posting, with the accumulated number |

## Left out

- Configuration parsing with `ast.literal_eval` is not modelled. Each plugin receives its configuration already parsed; a text that does not parse is `Malformed`.
- Beancount's own types are not modelled. `Transaction`, `Posting`, `Amount`, `Cost`, `Open` and `Balance` are datatypes holding the fields the plugins read.
- Posting metadata of `None` is modelled as the empty map. Where the plugins guard with `if posting.meta` the two agree, but several reads are unguarded and raise `AttributeError`/`TypeError` on `None` where the model sees an empty map: `entry_manipulation/manipulators/posting_consolidators/posting_wrapper_factory_base.py:29-30` and `:32` (`meta.get` while wrapping), `entry_manipulation/manipulators/posting_consolidators/spreading/posting_wrapper_factory.py:33` (`meta.pop`), `entry_manipulation/manipulators/posting_consolidators/posting_wrapping/values/metadata_value_getter.py:11`, `entry_manipulation/manipulators/posting_consolidators/simple_posting_wrapper_base.py:17` and `entry_manipulation/manipulators/posting_consolidators/spreading/target_posting_wrapper.py:34` (`meta.get`), `post_splitter.py:101` and `:111` and `entry_manipulators/manipulators/posting_consolidator.py:40` and `:57` (`in posting.meta`). The model does not reproduce those failures.
- The plugins themselves make postings whose metadata is `None` (`entry_manipulation/manipulators/transaction_splitter.py:125`, `entry_manipulation/manipulators/posting_consolidators/extracting/posting_consolidator_discounter.py:32` and `:35`). So an orchestrator chain that runs `transaction-splitter` and then `posting-spreader` on a transaction that splits raises `AttributeError` at `posting_wrapper_factory_base.py:29` on the new transfer posting. The model gives that posting the empty map, so it does not capture this failure.
- Values are copied, not aliased:
  - `copy.deepcopy` and shared metadata dictionaries are value copies.
  - A `list.remove` after an in-place `del` of metadata removes the first posting equal to the changed one. This is what Python does whenever no earlier posting equals the changed one.
- Balance is by units only. `Ledger.Balanced` and every "…Balanced", "…Balances" and "balances" statement in the table mean that the unit numbers sum to zero in each currency. Beancount balances a transaction by weight: units times the cost, or times the price, when the posting has one. The plugins pair a posting with a transfer of its negated units and no cost or price (`entry_manipulation/manipulators/transaction_splitter.py:125`, `txn_splitter.py:124-140`, `split_card_transactions.py:66-82`, `entry_manipulators/manipulators/transaction_splitter.py:49-116`). So for a posting with a cost or a price, the new transaction balances in units and the model calls it balanced, but beancount would not. Weights are not modelled.
- Orchestration.Runner: each manipulator is a stateless function of one transaction. In the source the same manipulator objects serve every entry (`entry_manipulation/entry_manipulator_orchestrator.py:54-71`). The spreader keeps one consolidation-data manager for the whole run, so each of its results carries every record registered so far, not just that transaction's (`spreading/posting_consolidator_spreader.py:21-22`). The merged map after the run (`entry_manipulation/entry_manipulator_orchestrator.py:75-83`) is still the one the model computes. A spreading wrapper changes only the record it registered itself (`spreading/simple_posting_wrapper.py:25-27` and `:39`), so every record object in the collected list is in the state it had at the end of its own transaction. Objects repeated from earlier results add nothing to the union of additional accounts. Each original account still first appears with the transaction that first registered it. The model does not capture that the source's merge mutates the first stored record object in place, nor the aliasing between that object and the spreader's manager.
- Python set iteration order is left open. Relevant accounts and additional accounts are picked in some order, and the contracts hold for every order.
- Wrong-kind metadata fails. A value of the wrong kind (a non-text account postfix, a non-amount discount or ratio, a non-date date, or `None` where the source does not test for it) gives an `Err`, where Python would raise or build a malformed entry.
- SplitCard.SplitBooking: a transfer account value that is neither a text nor `None`, or a booking date that is not a date, gives an `Err`; the source builds the booking transaction with that value anyway (`split_card_transactions.py:60-84`).
- SplitCard.MetaSplit: as for `SplitCard.SplitBooking`, a wrong-kind value on the one relevant posting fails where the source splits with it.
- Decimal precision is not modelled. The source computes with Python's `Decimal` at its default 28 significant digits, so 100 split equally three ways gives shares that sum to 99.99…9 (28 nines). The model computes with exact reals, so the `…Balanced` and `…HandsOutAll` lemmas about shares are facts about exact arithmetic only.
- Text.ParseInt: accepts only ASCII digits after an optional sign, with ASCII whitespace stripped. Python's `int()` also accepts underscores between digits (`"1_0"`), other Unicode decimal digits and Unicode whitespace; the model rejects those.
- Extracting.ExtractConfig: the postfixes are plain strings. The source reads them with `config.get` (`entry_manipulation/manipulators/posting_consolidators/extracting/posting_consolidator_discounter.py:12`), which gives `None` for a missing key, and the `+` at line 34 then raises `TypeError`. The model does not reproduce that failure.
- BalancePads.TimeLess: balance times compare as Python's `<` does for two strings, two dates, and numbers and booleans in any mix (a `bool` is an `int`). Every other pair gives an `Err`. For most of those pairs Python's `<` also raises `TypeError`, for example a string against a number, or anything against `None`. The exception is two amounts: Python compares them with beancount's own `Amount` ordering, which is not modelled, so the model gives an `Err` where Python returns an answer.
- TransactionSplitter.Split: the regular-expression account filter (`entry_manipulation/manipulators/transaction_splitter.py:60`) is an abstract predicate on the account, because regular-expression semantics are not modelled.
- LegacySplitter.Step: `inverted-date-mode` is a boolean. The source tests it both with `is True` and for truthiness, and these agree only on booleans.
- PostSplitting.SplitOne: the skip test looks for the literal key `"skip-split"`, as `post_splitter.py:61` does, and not for the configured `metadata-name-skip-split`.
- PostSplitting.EqualSplitBalanced: balance is proved only without rounding, when no other posting equals the flagged one after its key is deleted (`NoTwin`), and when every posting that is neither flagged nor to be filled is in the flagged posting's currency (`KeptIn`). Rounded shares need not sum back.
- PostSplitting.ProportionalSplitHandsOutAll: proved only without rounding and without the unit key, when the flagged posting carries no ratio, some posting carries one, all ratios are in the flagged posting's currency, and no other posting equals the flagged one after its key is deleted (`NoTwin`).
- The `post_splitter` tests use a mode `"cost"`, which `post_splitter.py:155` does not recognise. The model follows the code: such a transaction is left unchanged.
- The `balance_pad_creator` tests (`balance_pad_creator_test.py:134-223`) configure a `"pad-account"` and expect a `pad` directive before the balances. `balance_pad_creator.py` never reads that key and never creates a `pad` directive. The model follows the code: the output is the other entries followed by the kept balances.
- BalancePads.Update: the time key is read under the literal name `"balance-time"` (`balance_pad_creator.py:45`), not the configured one. A missing key is a `KeyError`.
- BalancePads.Update: `if not relevant_balance` is true exactly when the date has no balance yet, because a `Balance` tuple is always truthy.
- Spreader.Execute: when a source fails part-way, the records its earlier calls registered stay in the registry (the source has no rollback); for that case the model states only that the registry stays well formed, not which records it holds.
- Spreader.Execute: in the spreading factory the target wrapper constructor is called with arguments that do not fit it (`spreading/posting_wrapper_factory.py:35` against `spreading/target_posting_wrapper.py:13`). A target posting therefore makes the run fail with a `TypeError`, and the cost-weighted target wrappers are modelled and proved on their own (`Spreading`).
- The spreading source wrapper calls `add_posting` with two arguments (`spreading/source_posting_wrapper.py:19`), which fits the simple wrapper but not the target wrapper's three. No target wrapper is ever built in a spreading run, so `Spreader.Deliver` delivers shares to simple wrappers only.
- The filling consolidator cannot be built (`Orchestration.Construct`), so no filling run is modelled end to end; its wrappers are modelled on their own (`Filling`).
- `process_posting` is abstract in the older source wrapper base. Its calls are returned as a sequence of (recipient, rounded share) pairs, which `Spreader` delivers to the wrappers.
- `original_pricing/posting_consolidator_original_price_base.py` is not part of this model. The original-price extractor is assumed to run under the extracting base's `execute`.
- `account_replacer.py` and `utility_bill/` are not modelled. They rely on regular expressions and on month arithmetic from `dateutil` respectively.
- Manipulator interfaces without behaviour, and the fixed or metadata namers and value getters, are folded into tagged variants.
- Error source locations are not modelled. The `filename`/`lineno` metadata of a plugin error is left out, and an error carries only its message.

## Findings

| source | as written | input that shows it | evidently intended | confidence | as-written member | corrected member |
|---|---|---|---|---|---|---|
| balance_pad_creator.py:22-31 | every entry that is not a balance on the configured account has `.postings` read | a ledger holding one `Open` directive: `Open` has no `postings`, so `AttributeError` is raised | directives without postings pass through to the output unchanged, as the non-relevant entries do | not executed | BalancePads.AsWrittenRaisesOnOpen | BalancePads.RunOutput |
