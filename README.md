# UPI Sentinel fraud scoring — a verified model

This project models the decision core of the UPI Sentinel fraud-detection system in Dafny. The core has three parts.

- **Rule engine** (`client/fraud_engine.js`). The model covers:
  - the catalogue of seven weighted rules and the per-category caps;
  - `evaluateTransaction` with its inner `addRule` and the counterparty-risk registry as a parameter;
  - the boolean and default part of `normalizeTransaction`;
  - the small-transaction history pass `addSmallTxnHistory`, which feeds the `verification_pattern` rule.

  `EvaluateTransaction` builds its result step by step, as the engine does: push a record, add its weight to its category, clamp every category in a `for … in` loop. It is proved equal to a declarative `Evaluate`. The lemmas then state what a result promises:
  - the bounds and caps;
  - the confidence formula and the risk tier;
  - the order of the triggered rules;
  - what each rule fires on.

  `AddSmallTxnHistory` rewrites a batch array in place. It is proved to give each transaction its history over the original batch.
- **Hybrid merge** (`server/src/services/transaction.services.js`). Each uploaded transaction gets a rule score and the ML service's index-aligned score. The two are blended 40/60, and a rule score of 0.9 or more overrides the blend with 1.0. The result is rounded for display and judged FRAUD above 0.7. A failed ML call substitutes zeros.
- **Dashboard aggregation** (`client/data-loader.js`). `processTransactionData` is a method of the class `Dashboard`, which holds the module-level `transactionData`, `stateStats` and `dashboardStats`. It resets them, keeps running totals and per-state counters, sorts the list newest-first and adds placeholder states only where absent. `UpdateMapStats` counts the states of each risk tier. Each counter is proved equal to a count or sum over a filter of the batch. The sort is proved to be an ordering permutation. The tier counts are proved to add up to the number of states.

Scores, weights and amounts are `real`; timestamps are `int`. `toFixed(2)` is `Common.Round2`, which rounds the magnitude to the nearest hundredth on exact reals, a tie going away from zero, and re-attaches the sign; its value is what the model stores.

## Model

| member | source | states |
|---|---|---|
| Common.Min | client/fraud_engine.js:154-157 | the minimum lies below both arguments and is one of them |
| Common.Hundredths | client/fraud_engine.js:160 | the number of hundredths `toFixed(2)` keeps lies within half a unit of 100·x, and is non-negative for non-negative x |
| Common.Round2 | server/src/services/transaction.services.js:66 | the rounded value is a whole number of hundredths within 0.005 of x |
| Common.Round2UnitInterval | client/fraud_engine.js:160 | rounding keeps a value of [0, 1] inside [0, 1] |
| Common.Round2Monotone | client/fraud_engine.js:160 | rounding preserves the order of non-negative values |
| FraudRules.CategoryCap | client/fraud_engine.js:52-60 | every category cap lies in (0, 1] |
| FraudRules.Rank | client/fraud_engine.js:88-130 | each rule's position in the evaluation order is a valid index holding that rule |
| FraudRules.RuleDef | client/fraud_engine.js:14-50 | every catalogue weight lies in (0, 1] and is at most its category's cap |
| FraudRules.NormalizeTransaction | client/fraud_engine.js:179-191 | the normalised state is never empty; the conversion itself is a definition whose meaning `NormalizedRowRules` and `NormalizedState` prove |
| FraudRules.NormalizedRowRules | client/fraud_engine.js:99-130 | on a normalised row each flag rule fires iff its column holds exactly the text "true" and its amount or page condition holds; qr_mismatch and high_anomaly_score read the row's columns unchanged |
| FraudRules.NormalizedState | client/fraud_engine.js:188 | the state is "Unknown" iff the row's state is missing or is "Unknown"; a present state is kept |
| FraudRules.VerificationPatternIff | client/fraud_engine.js:88-97 | verification_pattern fires iff amount > 1000, the counterparty is new, and the history holds an entry to the receiver of at most 10 |
| FraudRules.NormalizedRowHasNoProbe | client/fraud_engine.js:88-97 | a freshly normalised row cannot trigger verification_pattern, because its history is empty |
| FraudEvaluator.Level | client/fraud_engine.js:165-168 | HIGH iff score ≥ 0.65; MEDIUM iff 0.35 ≤ score < 0.65 |
| FraudEvaluator.AddRule | client/fraud_engine.js:71-86 | the rule's record is appended, and the running map stays equal to the per-category sums of all records pushed |
| FraudEvaluator.ApplyRule | client/fraud_engine.js:88-130 | a record is appended exactly when the rule's predicate holds, and the sums stay in step |
| FraudEvaluator.AddCounterpartyRisk | client/fraud_engine.js:132-146 | a positive registry value for the receiver is appended as a counterparty_risk record in recipient_context, and the sums stay in step |
| FraudEvaluator.ClampToCaps | client/fraud_engine.js:148-152 | after the loop every category holds min(value, cap), and no key is added or removed |
| FraudEvaluator.CheckRules | client/fraud_engine.js:68-130 | the seven rule blocks produce exactly the records of the firing rules, with matching per-category sums |
| FraudEvaluator.EvaluateTransaction | client/fraud_engine.js:67-172 | the imperative evaluation returns exactly the declarative result `Evaluate(txn, registry)` |
| FraudEvaluator.RuleHitsUnrolled | client/fraud_engine.js:88-130 | the firing-rule list equals the seven `if … addRule` blocks in source order |
| FraudEvaluator.RankInverse | client/fraud_engine.js:88-130 | positions in the evaluation order and rule ranks are mutually inverse |
| FraudEvaluator.FiringExtend | client/fraud_engine.js:88-130 | testing one more rule keeps every record that of a firing rule tested so far |
| FraudEvaluator.CatalogueExtend | client/fraud_engine.js:71-86 | testing one more rule keeps every record equal to the one addRule pushes |
| FraudEvaluator.IncreasingExtend | client/fraud_engine.js:88-130 | testing one more rule keeps the records in strictly increasing rule order |
| FraudEvaluator.CompleteExtend | client/fraud_engine.js:88-130 | testing one more rule keeps a record for every firing rule tested so far |
| FraudEvaluator.HitsThroughFacts | client/fraud_engine.js:88-130 | after the first k rules: one record for each that fires, in rule order, and nothing else |
| FraudEvaluator.RuleHitsFacts | client/fraud_engine.js:88-130 | the catalogue records are exactly those of the firing rules, each once, in rule order |
| FraudEvaluator.RawSumAbsent | client/fraud_engine.js:75-79 | a category no record belongs to sums to 0 |
| FraudEvaluator.RawScoresMeaning | client/fraud_engine.js:75-79 | the accumulated map has a key exactly for the categories present, each holding the sum of its records' scores |
| FraudEvaluator.TriggeredScoresPositive | client/fraud_engine.js:71-86 | every triggered record has a positive score |
| FraudEvaluator.RawSumPositive | client/fraud_engine.js:141-145 | with positive scores, each category sum is non-negative, and positive when the category is present |
| FraudEvaluator.SumOverNonNegative | client/fraud_engine.js:154-155 | a sum over categories of non-negative values is non-negative |
| FraudEvaluator.BreakdownCapped | client/fraud_engine.js:141-152 | category_breakdown has a key iff some record is in that category, holding min(sum of its scores, cap) in (0, cap] |
| FraudEvaluator.OverallScoreBounds | client/fraud_engine.js:132-157 | overall_score lies in [0, 1] for every transaction and registry |
| FraudEvaluator.ConfidenceBounds | client/fraud_engine.js:159-160 | confidence is 0 when nothing triggered, otherwise min(round₂(1.5·score), 1), and it always lies in [0, 1] |
| FraudEvaluator.ConfidenceMonotone | client/fraud_engine.js:159-160 | with something triggered, a higher overall score never gives a lower confidence |
| FraudEvaluator.TriggeredIff | client/fraud_engine.js:88-130 | a catalogue rule is listed iff its predicate holds |
| FraudEvaluator.QrMismatchIff | client/fraud_engine.js:103-110 | qr_mismatch is listed iff channel is "qr" and both VPAs are present and differ |
| FraudEvaluator.QrMismatchNeedsBothVpas | client/fraud_engine.js:103-110 | an absent scanned or expected VPA never yields qr_mismatch |
| FraudEvaluator.TriggeredRulesOrdered | client/fraud_engine.js:71-146 | triggered_rules is in evaluation order with no rule twice; each catalogue record carries its weight and category; a counterparty_risk record comes last, carrying the registry value |
| FraudEvaluator.NothingTriggeredIff | client/fraud_engine.js:88-146 | the list is empty iff no rule fires and the registry gives the receiver no positive value |
| FraudEvaluator.NothingTriggeredIsClean | client/fraud_engine.js:154-171 | a transaction that triggers nothing scores 0 with confidence 0, tier LOW and an empty breakdown |
| FraudEvaluator.CategoryTotalUnrolled | client/fraud_engine.js:154-155 | the total is the sum of the seven category values, each 0 when absent |
| FraudEvaluator.LoneQrMismatch | client/fraud_engine.js:25-29 | a lone qr_mismatch gives score 0.40, confidence 0.60, tier MEDIUM and breakdown {merchant_integrity: 0.40} |
| FraudEvaluator.LoneQrMismatchScore | client/fraud_engine.js:148-168 | the summary of a single qr_mismatch record is 0.40 / 0.60 / MEDIUM |
| FraudEvaluator.ProbeThenDrainToNewContact | client/fraud_engine.js:88-101 | verification_pattern plus new_contact_high_amount give 0.50, confidence 0.75, MEDIUM, and breakdown {social_engineering: 0.30, recipient_context: 0.20} |
| FraudEvaluator.ProbeThenDrainScore | client/fraud_engine.js:148-168 | the summary of those two records is 0.50 / 0.75 / MEDIUM |
| FraudEvaluator.RecipientContextClamped | client/fraud_engine.js:132-152 | new_contact_high_amount with a registry value of at least 0.10 is clamped to the 0.30 recipient_context cap: score 0.30, confidence 0.45, LOW, two records |
| FraudEvaluator.RecipientContextScore | client/fraud_engine.js:141-168 | the summary of those two records is 0.30 / 0.45 / LOW, whatever the registry value above 0.10 |
| SmallTxnHistory.SmallHistoryIndices | client/fraud_engine.js:206-220 | the history is exactly the entries of the matching batch positions, in increasing position order, with no match skipped |
| SmallTxnHistory.HistoryEntriesSound | client/fraud_engine.js:208-218 | every entry goes to the receiver, is at most 10, and is strictly earlier |
| SmallTxnHistory.HistoryNonEmptyIff | client/fraud_engine.js:208-213 | the history is non-empty iff some batch transaction matches |
| SmallTxnHistory.NotInOwnHistory | client/fraud_engine.js:213 | a transaction never matches its own position |
| SmallTxnHistory.HistoryDependsOnKeys | client/fraud_engine.js:208-218 | the history reads only sender, receiver, amount and timestamp, so it does not depend on earlier histories |
| SmallTxnHistory.WithHistory | client/fraud_engine.js:206-220 | the pass keeps the batch length |
| SmallTxnHistory.WithHistoryIdempotent | client/fraud_engine.js:206-220 | running the history pass twice gives the same batch as running it once |
| SmallTxnHistory.AddSmallTxnHistory | client/fraud_engine.js:206-220 | the in-place loop leaves every transaction with its history over the original batch |
| SmallTxnHistory.VerificationPatternAfterHistory | client/fraud_engine.js:88-97 | after the pass, verification_pattern fires iff amount > 1000, the counterparty is new, and the batch holds an earlier transfer of at most 10 between the same parties |
| SmallTxnHistory.ProbeBeforeDrainFires | client/fraud_engine.js:88-97 | a probe of 5 before a payment of 2000 to a new counterparty triggers verification_pattern |
| SmallTxnHistory.ProbeAfterDrainDoesNotFire | client/fraud_engine.js:88-97 | the same probe placed after the payment does not trigger it |
| HybridMerge.FallbackOnePerRow | server/src/services/transaction.services.js:39-47 | after a failed call the ML scores hold one `risk_score: 0` per transaction, so every row reads ML risk 0 |
| HybridMerge.MergeVerdicts | server/src/services/transaction.services.js:50-73 | one output record per rule result |
| HybridMerge.ProcessTransactionFile | server/src/services/transaction.services.js:20-73 | one output record per input transaction |
| HybridMerge.BlendBelowOverride | server/src/services/transaction.services.js:57 | below 0.9 the final risk is 0.4·rule + 0.6·ml |
| HybridMerge.OverrideIgnoresMl | server/src/services/transaction.services.js:60-67 | a rule score of 0.9 or more gives risk 1.0 and FRAUD, whatever the ML score |
| HybridMerge.FinalRiskUnitInterval | server/src/services/transaction.services.js:57-66 | scores in [0, 1] give a risk in [0, 1], before and after rounding |
| HybridMerge.FinalRiskMonotoneInMl | server/src/services/transaction.services.js:57-60 | a higher ML score never lowers the risk |
| HybridMerge.FinalRiskMonotoneInRule | server/src/services/transaction.services.js:57-60 | on [0, 1] a higher rule score never lowers the risk, across the override too |
| HybridMerge.MergedRecord | server/src/services/transaction.services.js:50-73 | record i copies txn_id, sender_vpa and amount of row i; its risk_score is the rounded risk; it is FRAUD iff the unrounded risk > 0.7; its reason is the hybrid-engine text iff the verdict is FRAUD, and "Clean" iff SAFE |
| HybridMerge.FallbackIsRuleOnly | server/src/services/transaction.services.js:39-67 | after an ML failure, a rule score in [0, 0.9) gives SAFE, "Clean" and the rounded 0.4·rule, which is below 0.36 |
| HybridMerge.FallbackExample | server/src/services/transaction.services.js:39-67 | with the ML call failed, a rule score of 0.5 is shown as 0.20 and judged SAFE |
| HybridMerge.RoundedThresholdExample | server/src/services/transaction.services.js:57-67 | rule 0.8 and ML 0.64 give 0.704, shown as 0.70 yet judged FRAUD, because the verdict uses the unrounded risk |
| HybridMerge.MissingMlIsZero | server/src/services/transaction.services.js:51 | a short ML array or a falsy entry merges as an ML score of 0 |
| DataLoader.WithFlag | client/data-loader.js:49-52 | the transactions carrying a flag are at most all of them |
| DataLoader.OfState | client/data-loader.js:55-56 | the transactions of a state are at most all of them |
| DataLoader.SnocFlag | client/data-loader.js:49-52 | appending a transaction extends the flag filter exactly when it carries the flag |
| DataLoader.SnocState | client/data-loader.js:55-56 | appending a transaction extends the state filter exactly when it is of that state |
| DataLoader.SnocSum | client/data-loader.js:47 | appending a transaction adds its amount to the sum |
| DataLoader.SnocStates | client/data-loader.js:55-66 | appending a transaction adds its state to the set of states |
| DataLoader.TallySummary | client/data-loader.js:46-52 | one forEach step on the totals turns the filter summary of a prefix into that of the longer prefix |
| DataLoader.TotalsAreFilters | client/data-loader.js:42-52 | totalTransactions = \|data\|; fraudIntercepted = the number with fraud = 1; totalAmount = the sum of amounts; fraudAmount = the sum over fraud = 1; fraudIntercepted ≤ totalTransactions |
| DataLoader.BumpSummary | client/data-loader.js:67-75 | one step on a state's counters turns the filter summary of a prefix into that of the longer prefix |
| DataLoader.StatsByStateAreFilters | client/data-loader.js:55-75 | the per-state map has a key exactly for the states in the data; each entry counts that state's transactions, its fraud, qr, mule and coercion flags, and the sums of its amounts |
| DataLoader.OfStateEmpty | client/data-loader.js:55-56 | a state absent from the data has no transactions |
| DataLoader.StateCountsBounded | client/data-loader.js:55-75 | for each state in the data, fraudCount and each kind count are at most transactions, and transactions > 0 |
| DataLoader.OfStateHas | client/data-loader.js:55-56 | a state some transaction has gets a non-empty filter |
| DataLoader.SumTransactionsRemove | client/data-loader.js:67 | the sum of per-state transactions over a key set splits off any one key |
| DataLoader.SumTransactionsAgree | client/data-loader.js:67 | two maps agreeing on the transaction counts of a key set have the same sum over it |
| DataLoader.StateTransactionsSum | client/data-loader.js:42-67 | the per-state transaction counts sum to \|data\| |
| DataLoader.FloorTimes | client/data-loader.js:100-102 | `Math.floor(n·f)`: the largest whole number not above n·f |
| DataLoader.PlaceholderNamesDistinct | client/data-loader.js:82-94 | the eleven placeholder states have distinct names |
| DataLoader.AddPlaceholdersKeys | client/data-loader.js:96-105 | after the placeholder loop the keys are the old keys plus the placeholder names |
| DataLoader.AddPlaceholdersKeep | client/data-loader.js:96-97 | an existing entry is never overwritten |
| DataLoader.AddPlaceholdersAdds | client/data-loader.js:96-105 | an absent placeholder state gets its table values, with qr = ⌊0.4·fraudCount⌋ and mule = coercion = ⌊0.3·fraudCount⌋ |
| DataLoader.PlaceholderKindsBounded | client/data-loader.js:100-102 | a placeholder's qr + mule + coercion counts never exceed its fraudCount |
| DataLoader.PlaceholdersSane | client/data-loader.js:82-94 | every placeholder has transactions > 0 and fraudCount ≤ transactions |
| DataLoader.FinalStateKeys | client/data-loader.js:55-105 | the final map's keys are the data's states plus the placeholder names |
| DataLoader.FinalDataState | client/data-loader.js:55-105 | a state from the data keeps its data-derived counters after the placeholders are added |
| DataLoader.FinalPlaceholderState | client/data-loader.js:96-105 | a placeholder state absent from the data holds the placeholder counters |
| DataLoader.FinalStateSane | client/data-loader.js:55-105 | every final entry has transactions > 0 and fraudCount ≤ transactions, so its fraud rate is a number in [0, 100] |
| DataLoader.FinalDataTransactionsSum | client/data-loader.js:42-105 | over the states of the data, the final per-state counts still sum to \|data\| = totalTransactions |
| DataLoader.InsertByTimePerm | client/data-loader.js:79 | inserting one transaction adds exactly it to the multiset |
| DataLoader.AppendOlder | client/data-loader.js:79 | appending a transaction no newer than all others keeps the newest-first order |
| DataLoader.OrderedAboveLast | client/data-loader.js:79 | in a newest-first list the prefix stays ordered and every element is at least as new as the last |
| DataLoader.InsertByTimeOrder | client/data-loader.js:79 | inserting into a newest-first list keeps it newest-first |
| DataLoader.NewestFirstFacts | client/data-loader.js:79 | the sorted list is ordered newest-first and is a permutation of the data |
| DataLoader.ScaleCompare | client/data-loader.js:183 | comparing a rate with a bound is unchanged by scaling both by a positive number |
| DataLoader.RateAbove | client/data-loader.js:183-186 | fraudCount/transactions·100 > b iff 100·fraudCount > b·transactions |
| DataLoader.LevelByCounts | client/data-loader.js:183-186 | High iff the rate > 30%; Medium iff it lies in (15%, 30%]; Low iff it is at most 15%, all stated on whole counts |
| DataLoader.DoneGrows | client/data-loader.js:272 | visiting one more key grows the visited part of a set by one exactly when the key belongs to it |
| DataLoader.TierStep | client/data-loader.js:272-278 | one iteration bumps exactly the counter of the visited state's tier and keeps the counts equal to the visited states per tier |
| DataLoader.TierDone | client/data-loader.js:272-278 | once every key is visited the counters are the sizes of the three tiers, and they add up to the number of states |
| DataLoader.Dashboard.constructor | client/data-loader.js:6-13 | the list and the state map start empty and the totals at zero |
| DataLoader.Dashboard.AddRow | client/data-loader.js:43-75 | one forEach step appends the transaction, tallies it into the totals and bumps its state's counters, creating them at zero |
| DataLoader.Dashboard.ProcessTransactionData | client/data-loader.js:32-106 | after the call the list is the data sorted newest-first, the totals are those of the data, and the state map is the data's per-state counters with the absent placeholders added; all three depend only on the data, so a second call with the same data gives the same state |
| DataLoader.Dashboard.UpdateMapStats | client/data-loader.js:266-278 | the three counters are the numbers of High, Medium and Low states, and they add up to the number of states |

## Definitions

These functions carry the correspondence to the source and have no contract of their own; the lemma named in each row proves what they mean.

| member | source | states |
|---|---|---|
| FraudRules.Fires | client/fraud_engine.js:88-130 | definition of the seven rule predicates; meaning proved in `FraudEvaluator.TriggeredIff`, `FraudEvaluator.QrMismatchIff` and `FraudRules.VerificationPatternIff` |
| FraudEvaluator.CounterpartyScore | client/fraud_engine.js:132 | definition of `globalCounterpartyRisk[receiver] \|\| 0`; meaning proved in `FraudEvaluator.TriggeredRulesOrdered` and `FraudEvaluator.NothingTriggeredIff` |
| FraudEvaluator.Confidence | client/fraud_engine.js:159-160 | definition of confidence; meaning proved in `FraudEvaluator.ConfidenceBounds` and `FraudEvaluator.ConfidenceMonotone` |
| FraudEvaluator.Summarise | client/fraud_engine.js:148-171 | definition of the clamp, total, confidence and tier over a record list; meaning proved in `FraudEvaluator.BreakdownCapped` and `FraudEvaluator.OverallScoreBounds` |
| FraudEvaluator.Evaluate | client/fraud_engine.js:67-172 | definition of the engine's result; `FraudEvaluator.EvaluateTransaction` is proved equal to it |
| SmallTxnHistory.SmallHistory | client/fraud_engine.js:208-218 | definition of the filter and map; meaning proved in `SmallTxnHistory.SmallHistoryIndices` and `SmallTxnHistory.HistoryEntriesSound` |
| HybridMerge.OrZero | server/src/services/transaction.services.js:51-52 | definition of `\|\| 0` on a possibly falsy value; used by `HybridMerge.MergedRecord` |
| HybridMerge.FallbackScores | server/src/services/transaction.services.js:42-44 | definition of the substitute array; meaning proved in `HybridMerge.FallbackOnePerRow` |
| HybridMerge.MlScores | server/src/services/transaction.services.js:39-47 | definition of `mlResponse.data` with the fallback; meaning proved in `HybridMerge.FallbackOnePerRow` |
| HybridMerge.MlRiskAt | server/src/services/transaction.services.js:51 | definition of `mlScores[index]?.risk_score \|\| 0`; meaning proved in `HybridMerge.MissingMlIsZero` |
| HybridMerge.FinalRisk | server/src/services/transaction.services.js:57-60 | definition of the blend and the override; meaning proved in `HybridMerge.BlendBelowOverride` and `HybridMerge.OverrideIgnoresMl` |
| HybridMerge.VerdictFor | server/src/services/transaction.services.js:67 | definition of the verdict; meaning proved in `HybridMerge.MergedRecord` |
| HybridMerge.MergeOne | server/src/services/transaction.services.js:62-72 | definition of one output record; meaning proved in `HybridMerge.MergedRecord` |
| DataLoader.Totals | client/data-loader.js:42-52 | definition of the running totals; meaning proved in `DataLoader.TotalsAreFilters` |
| DataLoader.StatsByState | client/data-loader.js:54-75 | definition of the per-state counters; meaning proved in `DataLoader.StatsByStateAreFilters` |
| DataLoader.PlaceholderStats | client/data-loader.js:98-103 | definition of a placeholder entry; meaning proved in `DataLoader.AddPlaceholdersAdds` and `DataLoader.PlaceholderKindsBounded` |
| DataLoader.AddPlaceholders | client/data-loader.js:96-105 | definition of the add-if-absent loop; meaning proved in `DataLoader.AddPlaceholdersKeys`, `DataLoader.AddPlaceholdersKeep` and `DataLoader.AddPlaceholdersAdds` |
| DataLoader.NewestFirst | client/data-loader.js:79 | definition of the newest-first sort; meaning proved in `DataLoader.NewestFirstFacts` |
| DataLoader.StateLevel | client/data-loader.js:183-186 | definition of the tier; meaning proved in `DataLoader.LevelByCounts` |

## Left out

- CSV streaming and parsing are not modelled: `loadCSV`, `loadCSVData` and the `fs`/`csv-parser` pipeline of `processTransactionFile`. The same goes for the `Number`, `parseFloat` and `new Date` conversions. Inputs are typed records, with `int` timestamps compared directly.
- The interactive `readline` loop and `evaluateByTxnId` (client/fraud_engine.js:225-295) are console I/O.
- There are no network or persistence calls. The axios call to the ML service becomes the `MlResponse` value (a data array or `MlFailed`), and `Transaction.bulkCreate` is absent.
- `checkHardcodedRules` lives in server/src/utils/rules.utils.js, which is not part of this model. It is the function parameter `checkRules` of `HybridMerge.ProcessTransactionFile`, which yields a value or `None` for falsy.
- Floating point is not modelled. Scores and amounts are exact reals, so `0.30 + 0.20` is exactly `0.50` and there is no NaN from non-numeric columns. `toFixed(2)` is rounding to hundredths with ties away from zero (upward for the non-negative scores the engine produces), and the merge stores its numeric value rather than the string.
- Key order is not modelled: neither the insertion order of `category_breakdown` and `stateStats` nor the order of `Object.keys`. The engine's reductions over them are order-independent sums and counts. The model iterates keys with a choice and sums categories in a fixed order.
- `TriggeredRule` does not carry the `description` text. The text is a function of the record's id (`FraudEvaluator.TriggerDescription`).
- The unknown-id branch of `addRule` cannot be reached, because each call names a rule of the catalogue. `RuleId` is an enumeration with no unknown value.
- The ML response is modelled as an array whose entries are present or falsy. A response body that is not an array is not modelled.
- The DOM writes of `updateStateMap`, `updateMapStats`, `updateStatCards` and `updateTransactionList` are left out, together with the `fraudRate` and display fields of `stateRisks`. Only the tier classification is modelled.
- DataLoader.NewestFirst: `Array.prototype.sort` is a library call, so the sort is a function (a stable insertion by timestamp), not an in-place algorithm. Only its order and permutation properties are proved.
- DataLoader.SumTransactions and DataLoader.Pick are proof devices: a ghost sum over the map's keys and the ghost key choice it recurses on. No such sum exists in the source; it states that the per-state counts add up.
- Inherited keys are not modelled. `stateStats[state]` on a plain object also sees `Object.prototype` properties, so a state named `constructor`, `toString` or `__proto__` never gets its own counters in the source. The model's map treats every name as absent until it is added. The same lookup on `globalCounterpartyRisk` behaves alike in both, because an inherited function is not `> 0`.
- Category and rule identifiers are enumerations; their JSON string names (`"merchant_integrity"`, `"qr_mismatch"`, …) are not modelled.
- The code never rejects a weight above its category's cap or a cap outside (0, 1]: it has no configuration check at startup, and the model has none either. `FraudRules.RuleDef` and `FraudRules.CategoryCap` instead prove that the configuration is consistent: every weight lies in (0, 1] and under its category's cap.
