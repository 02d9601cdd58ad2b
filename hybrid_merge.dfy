/**
 * The server's hybrid verdict (`processTransactionFile` after parsing): each
 * uploaded transaction gets a rule score from the hard-coded rules and an
 * index-aligned score from the ML service; the two are blended 40/60, a rule
 * score of 0.9 or more forces the risk to 1.0, and a risk above 0.7 is FRAUD.
 * When the ML call fails every ML score is 0.
 */
module HybridMerge {
  import opened Common

  /** The columns of an uploaded CSV row that the merge copies; `amount` stays text. */
  datatype ServerTxn = ServerTxn(txn_id: string, sender_vpa: string, amount: string)

  /**
   * A row with the value `checkHardcodedRules` gave it. `None` stands for a
   * falsy value (undefined, null, 0), which the merge reads as 0.
   */
  datatype RuleResult = RuleResult(txn: ServerTxn, ruleScore: Option<real>)

  /**
   * What the ML call produced: the array of per-row results (an entry whose
   * `risk_score` is missing or falsy is `None`), or a failed request.
   */
  datatype MlResponse = MlOk(data: seq<Option<real>>) | MlFailed

  datatype Verdict = FRAUD | SAFE

  /** One output record; `risk_score` is the value of `finalRisk.toFixed(2)`. */
  datatype FinalResult = FinalResult(
    transaction_id: string,
    sender_upi: string,
    amount: string,
    risk_score: real,
    verdict: Verdict,
    reason: string)

  const FRAUD_REASON: string := "High Risk Detected by Hybrid Engine"
  const CLEAN_REASON: string := "Clean"

  /** The result of `ruleScore || 0` and `mlScores[index]?.risk_score || 0`. */
  function OrZero(v: Option<real>): real
  {
    match v
    case None => 0.0
    case Some(x) => x
  }

  /** The substitute ML array after a failed call: one `risk_score: 0` per row. */
  function FallbackScores(n: nat): seq<Option<real>>
  {
    seq(n, _ => Some(0.0))
  }

  /** `mlResponse.data`, with the fallback substituted when the call failed. */
  function MlScores(resp: MlResponse, n: nat): seq<Option<real>>
  {
    match resp
    case MlOk(data) => data
    case MlFailed => FallbackScores(n)
  }

  /** The ML risk of row `i`: 0 when the array is too short or the entry is falsy. */
  function MlRiskAt(scores: seq<Option<real>>, i: nat): real
  {
    if i < |scores| then OrZero(scores[i]) else 0.0
  }

  /** The blended risk, replaced by 1.0 when the rules alone are confident. */
  function FinalRisk(ruleRisk: real, mlRisk: real): real
  {
    var blended := ruleRisk * 0.4 + mlRisk * 0.6;
    if ruleRisk >= 0.9 then 1.0 else blended
  }

  /** The verdict is taken on the unrounded risk. */
  function VerdictFor(finalRisk: real): Verdict
  {
    if finalRisk > 0.7 then FRAUD else SAFE
  }

  function ReasonFor(finalRisk: real): string
  {
    if finalRisk > 0.7 then FRAUD_REASON else CLEAN_REASON
  }

  /** The record built for one row. */
  function MergeOne(rr: RuleResult, mlRisk: real): FinalResult
  {
    var finalRisk := FinalRisk(OrZero(rr.ruleScore), mlRisk);
    FinalResult(rr.txn.txn_id, rr.txn.sender_vpa, rr.txn.amount,
                Round2(finalRisk), VerdictFor(finalRisk), ReasonFor(finalRisk))
  }

  /** `ruleResults.map((txn, index) => …)`: row `i` is merged with ML entry `i`. */
  function MergeVerdicts(ruleResults: seq<RuleResult>, mlScores: seq<Option<real>>): (out: seq<FinalResult>)
    ensures |out| == |ruleResults|
  {
    seq(|ruleResults|, i requires 0 <= i < |ruleResults| => MergeOne(ruleResults[i], MlRiskAt(mlScores, i)))
  }

  /**
   * The whole merge step: score every row with the rules, take the ML
   * response (or the fallback) and merge index by index.
   */
  function ProcessTransactionFile(txns: seq<ServerTxn>, checkRules: ServerTxn -> Option<real>, resp: MlResponse)
    : (out: seq<FinalResult>)
    ensures |out| == |txns|
  {
    var ruleResults := seq(|txns|, i requires 0 <= i < |txns| => RuleResult(txns[i], checkRules(txns[i])));
    MergeVerdicts(ruleResults, MlScores(resp, |txns|))
  }

  /** After a failed ML call the scores hold one `risk_score: 0` per transaction, so every row reads ML risk 0. */
  lemma FallbackOnePerRow(n: nat)
    ensures |MlScores(MlFailed, n)| == n
    ensures forall i :: 0 <= i < n ==> MlScores(MlFailed, n)[i] == Some(0.0)
    ensures forall i: nat :: MlRiskAt(MlScores(MlFailed, n), i) == 0.0
  {
  }

  /** Below the override threshold the risk is exactly the 40/60 blend. */
  lemma BlendBelowOverride(ruleRisk: real, mlRisk: real)
    requires ruleRisk < 0.9
    ensures FinalRisk(ruleRisk, mlRisk) == 0.4 * ruleRisk + 0.6 * mlRisk
  {
  }

  /** A rule score of 0.9 or more gives risk 1.0 and FRAUD, whatever the ML score. */
  lemma OverrideIgnoresMl(ruleRisk: real, mlRisk: real, mlRisk': real)
    requires ruleRisk >= 0.9
    ensures FinalRisk(ruleRisk, mlRisk) == FinalRisk(ruleRisk, mlRisk') == 1.0
    ensures VerdictFor(FinalRisk(ruleRisk, mlRisk)) == FRAUD
  {
  }

  /** Scores of the unit interval give a risk of the unit interval, before and after rounding. */
  lemma FinalRiskUnitInterval(ruleRisk: real, mlRisk: real)
    requires 0.0 <= ruleRisk <= 1.0 && 0.0 <= mlRisk <= 1.0
    ensures 0.0 <= FinalRisk(ruleRisk, mlRisk) <= 1.0
    ensures 0.0 <= Round2(FinalRisk(ruleRisk, mlRisk)) <= 1.0
  {
    Round2UnitInterval(FinalRisk(ruleRisk, mlRisk));
  }

  /** On the unit interval a higher ML score never lowers the risk. */
  lemma FinalRiskMonotoneInMl(ruleRisk: real, mlRisk: real, mlRisk': real)
    requires mlRisk <= mlRisk'
    ensures FinalRisk(ruleRisk, mlRisk) <= FinalRisk(ruleRisk, mlRisk')
  {
  }

  /** On the unit interval a higher rule score never lowers the risk, across the override too. */
  lemma FinalRiskMonotoneInRule(ruleRisk: real, ruleRisk': real, mlRisk: real)
    requires 0.0 <= mlRisk <= 1.0
    requires ruleRisk <= ruleRisk' <= 1.0
    ensures FinalRisk(ruleRisk, mlRisk) <= FinalRisk(ruleRisk', mlRisk)
  {
  }

  /**
   * Every output record: the copied columns come from row `i`, the displayed
   * risk is the actual risk rounded to hundredths, the verdict is FRAUD
   * exactly when the unrounded risk exceeds 0.7, and the reason names the
   * hybrid engine exactly when the verdict is FRAUD.
   */
  lemma MergedRecord(txns: seq<ServerTxn>, checkRules: ServerTxn -> Option<real>, resp: MlResponse, i: nat)
    requires i < |txns|
    ensures var out := ProcessTransactionFile(txns, checkRules, resp);
      var f := FinalRisk(OrZero(checkRules(txns[i])), MlRiskAt(MlScores(resp, |txns|), i));
      && out[i].transaction_id == txns[i].txn_id
      && out[i].sender_upi == txns[i].sender_vpa
      && out[i].amount == txns[i].amount
      && out[i].risk_score == Round2(f)
      && f - 0.005 <= out[i].risk_score <= f + 0.005
      && (out[i].verdict == FRAUD <==> f > 0.7)
      && (out[i].reason == FRAUD_REASON <==> out[i].verdict == FRAUD)
      && (out[i].reason == CLEAN_REASON <==> out[i].verdict == SAFE)
  {
    var out := ProcessTransactionFile(txns, checkRules, resp);
    var f := FinalRisk(OrZero(checkRules(txns[i])), MlRiskAt(MlScores(resp, |txns|), i));
    assert out[i] == MergeOne(RuleResult(txns[i], checkRules(txns[i])), MlRiskAt(MlScores(resp, |txns|), i));
    assert FRAUD_REASON != CLEAN_REASON by {
      assert FRAUD_REASON[0] != CLEAN_REASON[0];
    }
  }

  /**
   * When the ML call fails, a row whose rule score lies in [0, 0.9) is SAFE,
   * and its displayed risk is 0.4 times the rule score rounded, below 0.36.
   */
  lemma FallbackIsRuleOnly(txns: seq<ServerTxn>, checkRules: ServerTxn -> Option<real>, i: nat)
    requires i < |txns|
    requires 0.0 <= OrZero(checkRules(txns[i])) < 0.9
    ensures var out := ProcessTransactionFile(txns, checkRules, MlFailed);
      var r := OrZero(checkRules(txns[i]));
      && out[i].verdict == SAFE
      && out[i].reason == CLEAN_REASON
      && out[i].risk_score == Round2(0.4 * r)
      && 0.4 * r < 0.36
  {
    var r := OrZero(checkRules(txns[i]));
    assert MlRiskAt(MlScores(MlFailed, |txns|), i) == 0.0;
    MergedRecord(txns, checkRules, MlFailed, i);
  }

  /** With the ML service down, a rule score of 0.5 is shown as 0.20 and judged SAFE. */
  lemma FallbackExample(t: ServerTxn, checkRules: ServerTxn -> Option<real>)
    requires checkRules(t) == Some(0.5)
    ensures ProcessTransactionFile([t], checkRules, MlFailed)[0].risk_score == 0.20
    ensures ProcessTransactionFile([t], checkRules, MlFailed)[0].verdict == SAFE
  {
    FallbackIsRuleOnly([t], checkRules, 0);
    assert Hundredths(0.4 * 0.5) == 20;
  }

  /**
   * The verdict is taken before rounding: rule 0.8 and ML 0.64 give 0.704,
   * shown as 0.70 yet judged FRAUD.
   */
  lemma RoundedThresholdExample(t: ServerTxn, checkRules: ServerTxn -> Option<real>)
    requires checkRules(t) == Some(0.8)
    ensures ProcessTransactionFile([t], checkRules, MlOk([Some(0.64)]))[0].risk_score == 0.70
    ensures ProcessTransactionFile([t], checkRules, MlOk([Some(0.64)]))[0].verdict == FRAUD
  {
    MergedRecord([t], checkRules, MlOk([Some(0.64)]), 0);
    assert FinalRisk(0.8, 0.64) == 0.704;
    assert Hundredths(0.704) == 70;
  }

  /** A short ML array or a falsy entry counts as an ML score of 0. */
  lemma MissingMlIsZero(ruleResults: seq<RuleResult>, mlScores: seq<Option<real>>, i: nat)
    requires i < |ruleResults|
    requires i >= |mlScores| || mlScores[i] == None
    ensures MergeVerdicts(ruleResults, mlScores)[i] == MergeOne(ruleResults[i], 0.0)
  {
  }
}
