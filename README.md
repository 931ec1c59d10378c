# Pharmacy claims processing — a Dafny model of the validation and aggregation core

The batch job reads a pharmacy directory (npi → chain name), a list of claim
events and a list of revert events. It does four things:

- It validates the claims and keeps those from pharmacies in the directory.
- It validates the reverts and keeps those that cancel a kept claim.
- It computes three reports from what was kept:
  - per (pharmacy, drug) fill metrics;
  - the two cheapest chains per drug;
  - the five most common quantities per drug.

This project models that core: the two validators, the two filters, the
three aggregations and the composition in `main`. It proves that each of
these does what the code promises.

Layout:

- `wrappers.dfy`: `Option`.
- `seqs.dfy`: two sequence tools. First-seen de-duplication models the key
  order of Python's insertion-ordered dictionaries. Occurrence counts model
  a counter.
- `sorting.dfy`: Python's stable `sorted` as an insertion sort over a real
  key, with its sortedness, permutation and stability lemmas. A
  `reverse=True` sort is the same sort over the negated key, because Python
  keeps equal elements in input order either way.
- `data_validator.dfy`: `validate_claim`, `validate_revert`, `filter_claims`,
  `filter_reverts`.
- `metrics_calculator.dfy`:
  - `calculate_metrics`;
  - `calculate_chain_recommendations`;
  - `calculate_common_quantities`.
- `pipeline.dfy`: `main` between reading the inputs and writing the outputs.

How the model is built:

- **Records are values.** A record is a dictionary of field values. The
  validators return the verdict together with the rewritten dictionary.
- **Typed outputs.** The filters return typed `Claim` and `Revert` values:
  what the kept dictionaries hold once validation has rewritten them.
- **Loops become methods.** Each loop of the source is a method with a loop
  invariant. The method is proved equal to a specification function: a
  left fold over the input, or a sequence built over first-seen keys. The
  properties are lemmas about those functions.
- **Dictionaries become a key sequence plus a map.** The source's
  dictionaries keep insertion order. The methods hold an explicit key
  sequence beside a `map`, and the specification uses `Dedup` for that
  order.
- **Ties follow the code.** When two chains have equal averages, or two
  quantities equal counts, they keep their first-seen order. This is what
  the stable `sorted` does over insertion-ordered dictionaries. No other
  tie-break is invented.

## Model

| member | source | states |
|---|---|---|
| DataValidator.ValidateClaim | pharmacy_app/data_validator.py:3-27 | the verdict is true exactly when all six required fields are present and non-empty, price and quantity parse as numbers, quantity is not zero and the timestamp parses; the record left behind has price, then quantity, then (only on success) timestamp converted, in the order the code converts them before failing |
| DataValidator.FieldListsAgree | pharmacy_app/data_validator.py:13-17 | walking the required-field list of claims (and of reverts, lines 39-43) decides the same thing as requiring each field |
| DataValidator.ClaimRejections | pharmacy_app/data_validator.py:13-26 | each early return rejects: a missing, null or empty field; a price that does not parse; a quantity that does not parse; a zero quantity; a timestamp that does not parse |
| DataValidator.ClaimValidationFrame | pharmacy_app/data_validator.py:19-24 | validation keeps the record's set of fields and changes no field other than price, quantity and timestamp |
| DataValidator.AcceptedClaimIsTyped | pharmacy_app/data_validator.py:19-27 | an accepted record holds the parsed price, quantity and timestamp; its quantity is non-zero; id, npi and ndc are the strings it came with |
| DataValidator.ValidateRevert | pharmacy_app/data_validator.py:29-49 | the verdict is true exactly when id, claim_id and timestamp are present and non-empty and the timestamp parses; only the timestamp is rewritten, and only when it parses |
| DataValidator.RevertValidationFrame | pharmacy_app/data_validator.py:39-48 | a revert is rejected if and only if a required field is missing or empty or its timestamp does not parse; validation keeps the fields and changes none but timestamp |
| DataValidator.FilterClaims | pharmacy_app/data_validator.py:51-66 | returns, in input order, the typed claims that validate and whose npi is a key of the pharmacy directory |
| DataValidator.KeptClaimPositions | pharmacy_app/data_validator.py:63-65 | the positions the filter keeps are increasing, in range, and include a position if and only if that claim validates and names a known pharmacy |
| DataValidator.FilterClaimsSelects | pharmacy_app/data_validator.py:62-66 | the k-th output claim is the typed form of the input claim at the k-th kept position, so the output preserves input order and drops only rejected claims |
| DataValidator.FilterClaimsSoundAndComplete | pharmacy_app/data_validator.py:63-65 | every kept claim's npi is in the directory, and every input claim that validates with a known npi is kept |
| DataValidator.RejectedClaimLeavesNoTrace | pharmacy_app/data_validator.py:63-65 | inserting a rejected claim anywhere in the input leaves the output unchanged |
| DataValidator.FilterReverts | pharmacy_app/data_validator.py:68-83 | returns, in input order, the typed reverts that validate and whose claim_id is in the given set of valid claim ids |
| DataValidator.KeptRevertPositions | pharmacy_app/data_validator.py:80-82 | the kept positions are increasing, in range, and include a position if and only if that revert validates and references a valid claim id |
| DataValidator.FilterRevertsSelects | pharmacy_app/data_validator.py:79-83 | the k-th output revert is the typed form of the input revert at the k-th kept position |
| DataValidator.FilterRevertsSoundAndComplete | pharmacy_app/data_validator.py:80-82 | every kept revert references a valid claim id, and every revert that validates and references one is kept |
| MetricsCalculator.RevertedClaimIds | pharmacy_app/metrics_calculator.py:15 | the reverted-id set holds the claim_id of every revert and nothing else |
| MetricsCalculator.TallyMetrics | pharmacy_app/metrics_calculator.py:17-39 | after the loop the dictionary's keys, in insertion order, are the distinct (npi, ndc) pairs in order of first claim, and each pair holds its fill count, the number of its claims whose id was reverted, and the sums of its unit prices and prices |
| MetricsCalculator.TallySnoc | pharmacy_app/metrics_calculator.py:17-39 | one more claim changes only its own pair's totals: one more fill, one more revert exactly when its id is reverted, its unit price and price added |
| MetricsCalculator.CalculateMetrics | pharmacy_app/metrics_calculator.py:1-60 | returns one entry per pair in order of first claim, built from that pair's totals with the average unit price as sum over fills (the `Metrics` specification, whose meaning the lemmas below state) |
| MetricsCalculator.MetricsOnePerPair | pharmacy_app/metrics_calculator.py:43-58 | the output has exactly one line per distinct (npi, ndc) pair, in order of the pair's first claim, and as many lines as there are distinct pairs |
| MetricsCalculator.MetricsLine | pharmacy_app/metrics_calculator.py:43-58 | each line's fills is the number of the pair's claims and is positive, reverted is the number of those claims whose id is reverted and is at most fills, total_price is the sum of their prices, avg_price is the sum of their unit prices divided by fills |
| MetricsCalculator.MetricsFillsSum | pharmacy_app/metrics_calculator.py:17-58 | the fills of all lines add up to the number of claims: every claim is counted once, in one line |
| MetricsCalculator.RevertedAtMostFills | pharmacy_app/metrics_calculator.py:34-39 | a pair never has more reverted claims than fills |
| MetricsCalculator.RevertedIgnoresForeignId | pharmacy_app/metrics_calculator.py:15-39 | adding a reverted id that no claim carries changes no pair's reverted count |
| MetricsCalculator.UnmatchedRevertChangesNothing | pharmacy_app/metrics_calculator.py:15-58 | a revert whose claim_id names no claim leaves the whole metrics report unchanged |
| MetricsCalculator.TallyChainPrices | pharmacy_app/metrics_calculator.py:75-87 | after the loop the keys are the distinct (ndc, chain) pairs in order of first claim, with chain absent when the npi is not in the directory, and each holds the sum of its unit prices and its claim count |
| MetricsCalculator.PairHasClaims | pharmacy_app/metrics_calculator.py:75-92 | a (drug, chain) pair is a key exactly when it has at least one claim, so the average at line 92 never divides by zero |
| MetricsCalculator.GroupByDrug | pharmacy_app/metrics_calculator.py:75-96 | the per-drug lists are keyed by the drugs in order of first pair, and each lists, in pair order, every chain of that drug with its mean unit price |
| MetricsCalculator.AverageByDrug | pharmacy_app/metrics_calculator.py:90-96 | given the pairs in first-seen order and their totals, the loop keys the drugs in order of first pair and leaves for each the `GroupTable` list, which `GroupTableMeaning` shows is the drug's priced chains, each with its pair's mean unit price, in pair order |
| MetricsCalculator.DrugPricesSound | pharmacy_app/metrics_calculator.py:90-96 | every chain listed for a drug is one of the drug's pairs and carries that pair's mean unit price |
| MetricsCalculator.DrugPricesComplete | pharmacy_app/metrics_calculator.py:90-96 | every pair of the drug is listed |
| MetricsCalculator.DrugPricesDistinct | pharmacy_app/metrics_calculator.py:90-96 | no chain is listed twice for a drug |
| MetricsCalculator.CalculateChainRecommendations | pharmacy_app/metrics_calculator.py:62-104 | returns, per drug in order of first claim, the first two chains of the drug's list sorted stably by average unit price (the `Recommendations` specification, whose meaning the lemmas below state) |
| MetricsCalculator.RecommendationDrugs | pharmacy_app/metrics_calculator.py:99-102 | there is exactly one recommendation per drug with claims, in order of the drug's first claim |
| MetricsCalculator.CheapestChainsOrdered | pharmacy_app/metrics_calculator.py:101-102 | a drug's recommendation lists min(2, number of its chains) chains, cheapest first; they are the head of a stable sort, so equal prices keep first-seen order; no chain name repeats in the drug's list |
| MetricsCalculator.DrugChainCount | pharmacy_app/metrics_calculator.py:90-102 | a drug's list has one entry per distinct (drug, chain) pair among its claims, so its recommendation names min(2, that number) chains |
| MetricsCalculator.CheapestChainsPriced | pharmacy_app/metrics_calculator.py:99-102 | each recommended chain has claims for the drug and carries its true mean unit price over them |
| MetricsCalculator.CheapestChainsCheapest | pharmacy_app/metrics_calculator.py:101-102 | no chain of the drug that was left out is cheaper than a recommended one |
| MetricsCalculator.CountQuantities | pharmacy_app/metrics_calculator.py:118-127 | after the loop the drugs are keyed in order of first claim, and each drug's counter holds each quantity it was filled with, in first-seen order, with its number of claims |
| MetricsCalculator.CounterItems | pharmacy_app/metrics_calculator.py:132 | the items of a drug's counter are the histogram of its quantities: each distinct quantity once, in first-seen order, with its count |
| MetricsCalculator.MostPrescribed | pharmacy_app/metrics_calculator.py:131-133 | sorting the counter's items by count, descending and stable, and keeping the quantities of the first five gives the drug's top quantities |
| MetricsCalculator.CalculateCommonQuantities | pharmacy_app/metrics_calculator.py:106-136 | returns, per drug in order of first claim, its top quantities (the `CommonQuantities` specification, whose meaning the lemmas below state) |
| MetricsCalculator.HistogramEntries | pharmacy_app/metrics_calculator.py:118-127 | a quantity is in the histogram if and only if the drug was filled with it; each entry counts its quantity's claims, which is at least one, and no quantity appears twice |
| MetricsCalculator.HistogramTotal | pharmacy_app/metrics_calculator.py:118-127 | the counts of a drug's counter add up to the number of claims for the drug |
| MetricsCalculator.MostPrescribedShape | pharmacy_app/metrics_calculator.py:132-133 | a drug lists min(5, number of its distinct quantities) quantities, each one it was filled with, none twice |
| MetricsCalculator.MostPrescribedOrdered | pharmacy_app/metrics_calculator.py:132 | the listed quantities come most frequent first |
| MetricsCalculator.MostPrescribedMostFrequent | pharmacy_app/metrics_calculator.py:132-133 | no quantity left out was filled more often than a listed one |
| MetricsCalculator.MostPrescribedTies | pharmacy_app/metrics_calculator.py:132-133 | the list is the head of a stable sort of the histogram, so quantities with equal counts keep their first-seen order |
| MetricsCalculator.CommonQuantitiesDrugs | pharmacy_app/metrics_calculator.py:130-134 | every drug with a claim has an entry, no drug has two, and every entry lists at least one quantity |
| Sorting.SortPermutes | pharmacy_app/metrics_calculator.py:101 | `sorted` returns a permutation of its input |
| Sorting.SortSorted | pharmacy_app/metrics_calculator.py:101 | `sorted` returns its input in non-decreasing key order |
| Sorting.SortStable | pharmacy_app/metrics_calculator.py:101 | `sorted` keeps elements with equal keys in their input order |
| Sorting.TopIsBest | pharmacy_app/metrics_calculator.py:101-102 | the first k of the sorted list number min(k, n), are in key order, come from the input, and no element left out has a smaller key than one kept |
| Pipeline.ClaimIds | main.py:27 | the id set holds the id of every kept claim and nothing else |
| Pipeline.Run | main.py:26-41 | the reports are the metrics of the kept claims and reverts, and the recommendations and common quantities of the kept claims, where the reverts are filtered against the ids of the kept claims |
| Pipeline.RevertsReferenceKeptClaims | main.py:26-28 | every revert that reaches the metrics cancels a claim that reached them too |
| Pipeline.MetricsPharmaciesKnown | main.py:26-31 | every metrics line is for a pharmacy of the directory |
| Pipeline.RecommendedChainsKnown | main.py:26-36 | every recommended chain is the chain of a directory pharmacy that filled the drug, so no recommendation names a missing chain |

## Left out

- Reading the pharmacy, claim and revert directories (`pharmacy_app/data_reader.py`), argument parsing, and writing the JSON reports (main.py:12-23 and 32-43) are I/O. The model starts from the in-memory directory, claim list and revert list.
- `float()` and `datetime.fromisoformat()` are parameters (`Parsers`): partial functions from a string to a number or a date-time. Their grammars are not modelled, and a date-time is an abstract `int`.
- Floating point is modelled as exact real arithmetic. Rounding, NaN, infinities and float equality of dictionary keys are not modelled.
- MetricsCalculator.CalculateMetrics: `avg_price` and `total_price` are not rounded to two decimals (metrics_calculator.py:56-57). The model reports the exact values.
- MetricsCalculator.CalculateChainRecommendations: the per-chain average is not rounded to two decimals (metrics_calculator.py:96). The sort at line 101 therefore compares exact averages. The source compares rounded ones, so two chains whose averages differ but round alike keep first-seen order in the source, yet are ordered by the exact average here.
- DataValidator.ValidateClaim: the raw field values are restricted to JSON null or strings. A number or other JSON value in any field of the record, required or not, is outside the model, although the source accepts such a value in a field it does not check. So are the `TypeError` that `fromisoformat` raises on a non-string, and that the source does not catch.
- DataValidator.ValidateRevert: the same restriction to null or string field values.
- The validators rewrite the caller's dictionary in place. The model returns the rewritten dictionary instead, so aliasing between the dictionaries the filters keep and the caller's lists is not captured.
- The unused `claim_ids` set (metrics_calculator.py:14) has no counterpart.
- In the chain averages, the division by the count is guarded in the model: `ChainPriceOf` yields 0 for a pair with no claims. `PairHasClaims` shows that every pair the source divides over has at least one claim, so that branch is never used.
