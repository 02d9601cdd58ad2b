/**
 * The rule evaluator and category aggregator of the UPI fraud engine
 * (`evaluateTransaction`). A declarative specification, `Evaluate`, says what
 * the result is; `EvaluateTransaction` builds it step by step, as the engine
 * does, and is proved to produce exactly that result; the lemmas state what
 * the result promises (bounds, caps, tiers, order of the triggered rules).
 */
module FraudEvaluator {
  import opened Common
  import opened FraudRules

  /** The id of a triggered-rule record: one of the catalogue rules, or the registry entry. */
  datatype TriggerId = Fired(rule: RuleId) | CounterpartyRisk

  /**
   * A record of triggered_rules. Its description is determined by its id
   * (TriggerDescription), so the record does not repeat it.
   */
  datatype TriggeredRule = TriggeredRule(id: TriggerId, score: real, category: Category)

  datatype RiskLevel = LOW | MEDIUM | HIGH

  datatype EvaluationResult = EvaluationResult(
    overall_score: real,
    confidence: real,
    risk_level: RiskLevel,
    triggered_rules: seq<TriggeredRule>,
    category_breakdown: map<Category, real>)

  const COUNTERPARTY_DESCRIPTION: string := "Receiver VPA flagged in global risk list"

  /** The `description` of a record: RULES' text for a catalogue rule, the registry text otherwise. */
  function TriggerDescription(id: TriggerId): string
  {
    match id
    case Fired(r) => RuleDescription(r)
    case CounterpartyRisk => COUNTERPARTY_DESCRIPTION
  }

  /** Where a record may stand in the list: catalogue rules by RULE_ORDER, the registry entry after them. */
  function TriggerRank(id: TriggerId): nat
  {
    match id
    case Fired(r) => Rank(r)
    case CounterpartyRisk => |RULE_ORDER|
  }

  // ---------------------------------------------------------------------
  // Specification
  // ---------------------------------------------------------------------

  /** The record `addRule(id)` pushes. */
  function RuleTrigger(id: RuleId): TriggeredRule
  {
    var rule := RuleDef(id);
    TriggeredRule(Fired(id), rule.weight, rule.category)
  }

  /** The record for one rule, if its predicate holds. */
  function Hit(id: RuleId, t: Txn): seq<TriggeredRule>
  {
    if Fires(id, t) then [RuleTrigger(id)] else []
  }

  /** The records pushed after testing the first `k` rules of RULE_ORDER, in that order. */
  function HitsThrough(t: Txn, k: nat): seq<TriggeredRule>
    requires k <= |RULE_ORDER|
  {
    if k == 0 then [] else HitsThrough(t, k - 1) + Hit(RULE_ORDER[k - 1], t)
  }

  /** The records of the catalogue rules that fire, in the order the engine tests them. */
  function RuleHits(t: Txn): seq<TriggeredRule>
  {
    HitsThrough(t, |RULE_ORDER|)
  }

  /** `globalCounterpartyRisk[receiver] || 0`. */
  function CounterpartyScore(registry: map<string, real>, receiver: string): real
  {
    if receiver in registry then registry[receiver] else 0.0
  }

  /** The synthetic counterparty_risk record, present when the registry value is positive. */
  function CounterpartyHits(t: Txn, registry: map<string, real>): seq<TriggeredRule>
  {
    var s := CounterpartyScore(registry, t.receiver_vpa);
    if s > 0.0 then [TriggeredRule(CounterpartyRisk, s, RecipientContext)] else []
  }

  /** `triggered_rules`: the firing rules in RULE_ORDER, then the counterparty record. */
  function TriggeredRules(t: Txn, registry: map<string, real>): seq<TriggeredRule>
  {
    RuleHits(t) + CounterpartyHits(t, registry)
  }

  /** The sum of the scores of the records in category `c`. */
  function RawSum(rs: seq<TriggeredRule>, c: Category): real
    decreases |rs|
  {
    if rs == [] then 0.0
    else RawSum(rs[..|rs| - 1], c) + (if rs[|rs| - 1].category == c then rs[|rs| - 1].score else 0.0)
  }

  predicate HasCategory(rs: seq<TriggeredRule>, c: Category)
  {
    exists i :: 0 <= i < |rs| && rs[i].category == c
  }

  /** Add `score` to category `c`, starting it at 0 when it has no entry yet. */
  function Accumulate(m: map<Category, real>, c: Category, score: real): map<Category, real>
  {
    m[c := (if c in m then m[c] else 0.0) + score]
  }

  /**
   * The per-category sums before capping, accumulated record by record;
   * RawScoresMeaning shows it has one key per category some record belongs
   * to, holding the RawSum of that category.
   */
  function RawScores(rs: seq<TriggeredRule>): map<Category, real>
    decreases |rs|
  {
    if rs == [] then map[]
    else Accumulate(RawScores(rs[..|rs| - 1]), rs[|rs| - 1].category, rs[|rs| - 1].score)
  }

  /** Each category's value clamped to its cap. */
  function Capped(m: map<Category, real>): map<Category, real>
  {
    map c | c in m :: Min(m[c], CategoryCap(c))
  }

  /** `category_breakdown`: each per-category sum clamped to its cap. */
  function Breakdown(rs: seq<TriggeredRule>): map<Category, real>
  {
    Capped(RawScores(rs))
  }

  /** The value of `c` in `m`, or 0 where `m` has no entry for it. */
  function ValueOr0(m: map<Category, real>, c: Category): real
  {
    if c in m then m[c] else 0.0
  }

  function SumOver(cs: seq<Category>, m: map<Category, real>): real
    decreases |cs|
  {
    if cs == [] then 0.0 else ValueOr0(m, cs[0]) + SumOver(cs[1..], m)
  }

  /** The sum of the values of a category map (every category occurs once in CATEGORIES). */
  function CategoryTotal(m: map<Category, real>): real
  {
    SumOver(CATEGORIES, m)
  }

  /** 0 when nothing triggered; otherwise 1.5 times the score, rounded to hundredths, at most 1. */
  function Confidence(triggered: nat, total: real): real
  {
    if triggered == 0 then 0.0 else Min(Round2(total * 1.5), 1.0)
  }

  /** The risk tier of an overall score. */
  function Level(total: real): (level: RiskLevel)
    ensures level == HIGH <==> total >= 0.65
    ensures level == MEDIUM <==> 0.35 <= total < 0.65
    ensures level == LOW <==> total < 0.35
  {
    if total >= 0.65 then HIGH else if total >= 0.35 then MEDIUM else LOW
  }

  /** The result for a list of triggered records: breakdown, capped total, confidence and tier. */
  function Summarise(rules: seq<TriggeredRule>): EvaluationResult
  {
    var breakdown := Breakdown(rules);
    var total := Min(CategoryTotal(breakdown), 1.0);
    EvaluationResult(total, Confidence(|rules|, total), Level(total), rules, breakdown)
  }

  /** What evaluateTransaction returns for `t` against a registry snapshot. */
  function Evaluate(t: Txn, registry: map<string, real>): EvaluationResult
  {
    Summarise(TriggeredRules(t, registry))
  }

  // ---------------------------------------------------------------------
  // The engine, step by step
  // ---------------------------------------------------------------------

  /**
   * addRule: push the rule's record and add its weight to its category,
   * creating the category at 0 first. It keeps the running map equal to the
   * per-category sums of the records pushed so far.
   */
  method AddRule(id: RuleId, results: seq<TriggeredRule>, categoryScores: map<Category, real>)
    returns (results': seq<TriggeredRule>, categoryScores': map<Category, real>)
    requires categoryScores == RawScores(results)
    ensures results' == results + [RuleTrigger(id)]
    ensures categoryScores' == RawScores(results')
  {
    var rule := RuleDef(id);
    var c := rule.category;
    categoryScores' := categoryScores;
    if c !in categoryScores' {
      categoryScores' := categoryScores'[c := 0.0];
    }
    categoryScores' := categoryScores'[c := categoryScores'[c] + rule.weight];
    assert categoryScores' == Accumulate(categoryScores, c, rule.weight);
    results' := results + [TriggeredRule(Fired(id), rule.weight, c)];
    assert results'[..|results'| - 1] == results;
  }

  /** One `if (<predicate>) addRule(id)` block of evaluateTransaction. */
  method ApplyRule(id: RuleId, txn: Txn,
                    results: seq<TriggeredRule>, categoryScores: map<Category, real>)
    returns (results': seq<TriggeredRule>, categoryScores': map<Category, real>)
    requires categoryScores == RawScores(results)
    ensures results' == results + Hit(id, txn) && categoryScores' == RawScores(results')
  {
    results', categoryScores' := results, categoryScores;
    if Fires(id, txn) {
      results', categoryScores' := AddRule(id, results, categoryScores);
    }
  }

  /**
   * The registry step: a positive `globalCounterpartyRisk` value for the
   * receiver is pushed as a counterparty_risk record and added to
   * recipient_context, creating it at 0 first.
   */
  method AddCounterpartyRisk(txn: Txn, registry: map<string, real>,
                             results: seq<TriggeredRule>, categoryScores: map<Category, real>)
    returns (results': seq<TriggeredRule>, categoryScores': map<Category, real>)
    requires categoryScores == RawScores(results)
    ensures results' == results + CounterpartyHits(txn, registry)
    ensures categoryScores' == RawScores(results')
  {
    results', categoryScores' := results, categoryScores;
    var cScore := if txn.receiver_vpa in registry then registry[txn.receiver_vpa] else 0.0;
    if cScore > 0.0 {
      results' := results + [TriggeredRule(CounterpartyRisk, cScore, RecipientContext)];
      assert results'[..|results'| - 1] == results;
      if RecipientContext !in categoryScores' {
        categoryScores' := categoryScores'[RecipientContext := 0.0];
      }
      categoryScores' := categoryScores'[RecipientContext := categoryScores'[RecipientContext] + cScore];
    }
  }

  /** `for (let c in categoryScores) if (categoryScores[c] > cap) categoryScores[c] = cap`. */
  method ClampToCaps(categoryScores: map<Category, real>) returns (clamped: map<Category, real>)
    ensures clamped == Capped(categoryScores)
  {
    clamped := categoryScores;
    var pending := categoryScores.Keys;
    while pending != {}
      invariant pending <= categoryScores.Keys
      invariant clamped.Keys == categoryScores.Keys
      invariant forall c :: c in categoryScores ==>
        clamped[c] == if c in pending then categoryScores[c] else Min(categoryScores[c], CategoryCap(c))
      decreases |pending|
    {
      var c :| c in pending;
      if clamped[c] > CategoryCap(c) {
        clamped := clamped[c := CategoryCap(c)];
      }
      pending := pending - {c};
    }
  }

  /**
   * The seven rule blocks of evaluateTransaction, from empty `results` and
   * `categoryScores`.
   */
  method CheckRules(txn: Txn) returns (results: seq<TriggeredRule>, categoryScores: map<Category, real>)
    ensures results == RuleHits(txn) && categoryScores == RawScores(results)
  {
    results, categoryScores := [], map[];

    results, categoryScores := ApplyRule(VerificationPattern, txn, results, categoryScores);
    results, categoryScores := ApplyRule(NewContactHighAmount, txn, results, categoryScores);
    results, categoryScores := ApplyRule(QrMismatch, txn, results, categoryScores);
    results, categoryScores := ApplyRule(RefundScamPattern, txn, results, categoryScores);
    results, categoryScores := ApplyRule(DeviceChangeHighValue, txn, results, categoryScores);
    results, categoryScores := ApplyRule(LocationChangeHighValue, txn, results, categoryScores);
    results, categoryScores := ApplyRule(HighAnomalyScore, txn, results, categoryScores);
    RuleHitsUnrolled(txn);
  }

  /** evaluateTransaction. The transaction and the registry are values: neither can change. */
  method EvaluateTransaction(txn: Txn, registry: map<string, real>) returns (result: EvaluationResult)
    ensures result == Evaluate(txn, registry)
  {
    var results, categoryScores := CheckRules(txn);
    results, categoryScores := AddCounterpartyRisk(txn, registry, results, categoryScores);
    categoryScores := ClampToCaps(categoryScores);

    var totalScore := Min(CategoryTotal(categoryScores), 1.0);
    var confidence := Confidence(|results|, totalScore);
    var riskLevel := Level(totalScore);
    result := EvaluationResult(totalScore, confidence, riskLevel, results, categoryScores);
  }

  // ---------------------------------------------------------------------
  // Lemmas about the specification
  // ---------------------------------------------------------------------

  /** RuleHits written out: the seven `if (<predicate>) addRule(id)` blocks of the engine, in order. */
  lemma RuleHitsUnrolled(t: Txn)
    ensures RuleHits(t) ==
      Hit(VerificationPattern, t) + Hit(NewContactHighAmount, t) + Hit(QrMismatch, t)
      + Hit(RefundScamPattern, t) + Hit(DeviceChangeHighValue, t)
      + Hit(LocationChangeHighValue, t) + Hit(HighAnomalyScore, t)
  {
    var h1 := HitsThrough(t, 1);
    assert h1 == Hit(VerificationPattern, t) by {
      assert HitsThrough(t, 0) == [];
    }
    var h2 := HitsThrough(t, 2);
    assert h2 == h1 + Hit(NewContactHighAmount, t);
    var h3 := HitsThrough(t, 3);
    assert h3 == h2 + Hit(QrMismatch, t);
    var h4 := HitsThrough(t, 4);
    assert h4 == h3 + Hit(RefundScamPattern, t);
    var h5 := HitsThrough(t, 5);
    assert h5 == h4 + Hit(DeviceChangeHighValue, t);
    var h6 := HitsThrough(t, 6);
    assert h6 == h5 + Hit(LocationChangeHighValue, t);
    assert HitsThrough(t, 7) == h6 + Hit(HighAnomalyScore, t);
  }

  /** Position `k` of RULE_ORDER holds the rule of rank `k`. */
  lemma RankInverse(k: nat)
    requires k < |RULE_ORDER|
    ensures Rank(RULE_ORDER[k]) == k
  {
    if k == 0 { assert RULE_ORDER[0] == VerificationPattern; }
    else if k == 1 { assert RULE_ORDER[1] == NewContactHighAmount; }
    else if k == 2 { assert RULE_ORDER[2] == QrMismatch; }
    else if k == 3 { assert RULE_ORDER[3] == RefundScamPattern; }
    else if k == 4 { assert RULE_ORDER[4] == DeviceChangeHighValue; }
    else if k == 5 { assert RULE_ORDER[5] == LocationChangeHighValue; }
    else { assert RULE_ORDER[6] == HighAnomalyScore; }
  }

  /** Every record is that of a firing catalogue rule of rank below `k`. */
  ghost predicate FiringBelow(rs: seq<TriggeredRule>, t: Txn, k: nat)
  {
    forall i :: 0 <= i < |rs| ==>
      rs[i].id.Fired? && Rank(rs[i].id.rule) < k && Fires(rs[i].id.rule, t)
  }

  /** Every record is the one addRule pushes for its rule. */
  ghost predicate CatalogueRecords(rs: seq<TriggeredRule>)
  {
    forall i :: 0 <= i < |rs| ==> rs[i].id.Fired? && rs[i] == RuleTrigger(rs[i].id.rule)
  }

  /** The records stand in strictly increasing rank. */
  ghost predicate Increasing(rs: seq<TriggeredRule>)
  {
    forall i, j :: 0 <= i < j < |rs| ==> TriggerRank(rs[i].id) < TriggerRank(rs[j].id)
  }

  /** Every firing rule of rank below `k` has a record. */
  ghost predicate CompleteBelow(rs: seq<TriggeredRule>, t: Txn, k: nat)
  {
    forall id :: Rank(id) < k && Fires(id, t) ==> exists i :: 0 <= i < |rs| && rs[i].id == Fired(id)
  }

  lemma FiringExtend(rs: seq<TriggeredRule>, t: Txn, id: RuleId, k: nat)
    requires Rank(id) == k && FiringBelow(rs, t, k)
    ensures FiringBelow(rs + Hit(id, t), t, k + 1)
  {
    if Fires(id, t) {
      var rs' := rs + [RuleTrigger(id)];
      assert rs + Hit(id, t) == rs';
      assert forall i :: 0 <= i < |rs| ==> rs'[i] == rs[i];
    } else {
      assert rs + Hit(id, t) == rs;
    }
  }

  lemma CatalogueExtend(rs: seq<TriggeredRule>, t: Txn, id: RuleId)
    requires CatalogueRecords(rs)
    ensures CatalogueRecords(rs + Hit(id, t))
  {
    if Fires(id, t) {
      var rs' := rs + [RuleTrigger(id)];
      assert rs + Hit(id, t) == rs';
      assert forall i :: 0 <= i < |rs| ==> rs'[i] == rs[i];
    } else {
      assert rs + Hit(id, t) == rs;
    }
  }

  lemma IncreasingExtend(rs: seq<TriggeredRule>, t: Txn, id: RuleId, k: nat)
    requires Rank(id) == k && FiringBelow(rs, t, k) && Increasing(rs)
    ensures Increasing(rs + Hit(id, t))
  {
    if Fires(id, t) {
      var x := RuleTrigger(id);
      var rs' := rs + [x];
      assert rs + Hit(id, t) == rs';
      forall i, j | 0 <= i < j < |rs'| ensures TriggerRank(rs'[i].id) < TriggerRank(rs'[j].id) {
        assert rs'[i] == rs[i];
        if j < |rs| {
          assert rs'[j] == rs[j];
        } else {
          assert TriggerRank(rs'[j].id) == k;
        }
      }
    } else {
      assert rs + Hit(id, t) == rs;
    }
  }

  lemma CompleteExtend(rs: seq<TriggeredRule>, t: Txn, id: RuleId, k: nat)
    requires Rank(id) == k && CompleteBelow(rs, t, k)
    ensures CompleteBelow(rs + Hit(id, t), t, k + 1)
  {
    var rs' := rs + Hit(id, t);
    forall id' | Rank(id') < k + 1 && Fires(id', t)
      ensures exists i :: 0 <= i < |rs'| && rs'[i].id == Fired(id')
    {
      if Rank(id') < k {
        var i :| 0 <= i < |rs| && rs[i].id == Fired(id');
        assert rs'[i] == rs[i];
      } else {
        assert RULE_ORDER[Rank(id')] == id';
        assert rs'[|rs|].id == Fired(id');
      }
    }
  }

  /** After the first `k` rules: a record of each of them that fires, in rank order, and nothing else. */
  lemma {:induction false} HitsThroughFacts(t: Txn, k: nat)
    requires k <= |RULE_ORDER|
    ensures FiringBelow(HitsThrough(t, k), t, k)
    ensures CatalogueRecords(HitsThrough(t, k))
    ensures Increasing(HitsThrough(t, k))
    ensures CompleteBelow(HitsThrough(t, k), t, k)
  {
    if k > 0 {
      var id := RULE_ORDER[k - 1];
      var prev := HitsThrough(t, k - 1);
      HitsThroughFacts(t, k - 1);
      RankInverse(k - 1);
      FiringExtend(prev, t, id, k - 1);
      CatalogueExtend(prev, t, id);
      IncreasingExtend(prev, t, id, k - 1);
      CompleteExtend(prev, t, id, k - 1);
    }
  }

  /** The rule records are exactly those of the firing rules, in rank order. */
  lemma RuleHitsFacts(t: Txn)
    ensures FiringBelow(RuleHits(t), t, |RULE_ORDER|)
    ensures CatalogueRecords(RuleHits(t))
    ensures Increasing(RuleHits(t))
    ensures CompleteBelow(RuleHits(t), t, |RULE_ORDER|)
  {
    HitsThroughFacts(t, |RULE_ORDER|);
  }

  /** A category no record belongs to sums to zero. */
  lemma {:induction false} RawSumAbsent(rs: seq<TriggeredRule>, c: Category)
    requires !HasCategory(rs, c)
    ensures RawSum(rs, c) == 0.0
    decreases |rs|
  {
    if rs != [] {
      var init := rs[..|rs| - 1];
      assert forall i :: 0 <= i < |init| ==> init[i] == rs[i];
      RawSumAbsent(init, c);
    }
  }

  /** The accumulated map has a key exactly for the categories present, holding their RawSum. */
  lemma {:induction false} RawScoresMeaning(rs: seq<TriggeredRule>)
    ensures forall c :: (c in RawScores(rs) <==> HasCategory(rs, c))
                        && (c in RawScores(rs) ==> RawScores(rs)[c] == RawSum(rs, c))
    decreases |rs|
  {
    if rs != [] {
      var init := rs[..|rs| - 1];
      var x := rs[|rs| - 1];
      RawScoresMeaning(init);
      forall c
        ensures (c in RawScores(rs) <==> HasCategory(rs, c))
        ensures c in RawScores(rs) ==> RawScores(rs)[c] == RawSum(rs, c)
      {
        assert HasCategory(rs, c) <==> HasCategory(init, c) || x.category == c by {
          if HasCategory(rs, c) {
            var i :| 0 <= i < |rs| && rs[i].category == c;
            if i < |init| { assert init[i] == rs[i]; }
          }
          if HasCategory(init, c) {
            var i :| 0 <= i < |init| && init[i].category == c;
            assert rs[i] == init[i];
          }
        }
        if !HasCategory(init, c) {
          RawSumAbsent(init, c);
        }
      }
    }
  }

  /** Every record of a triggered list has a positive score. */
  lemma TriggeredScoresPositive(t: Txn, registry: map<string, real>)
    ensures forall i :: 0 <= i < |TriggeredRules(t, registry)| ==> TriggeredRules(t, registry)[i].score > 0.0
  {
    var hits := RuleHits(t);
    var rs := TriggeredRules(t, registry);
    assert CatalogueRecords(hits) by { RuleHitsFacts(t); }
    forall i | 0 <= i < |rs| ensures rs[i].score > 0.0 {
      if i < |hits| {
        assert rs[i] == hits[i];
      }
    }
  }

  lemma {:induction false} RawSumPositive(rs: seq<TriggeredRule>, c: Category)
    requires forall i :: 0 <= i < |rs| ==> rs[i].score > 0.0
    ensures RawSum(rs, c) >= 0.0
    ensures HasCategory(rs, c) ==> RawSum(rs, c) > 0.0
    decreases |rs|
  {
    if rs != [] {
      var init := rs[..|rs| - 1];
      assert forall i :: 0 <= i < |init| ==> init[i] == rs[i];
      RawSumPositive(init, c);
      if HasCategory(rs, c) && rs[|rs| - 1].category != c {
        var i :| 0 <= i < |rs| && rs[i].category == c;
        assert init[i] == rs[i];
      }
    }
  }

  lemma {:induction false} SumOverNonNegative(cs: seq<Category>, m: map<Category, real>)
    requires forall c :: c in m ==> m[c] >= 0.0
    ensures SumOver(cs, m) >= 0.0
    decreases |cs|
  {
    if cs != [] {
      SumOverNonNegative(cs[1..], m);
    }
  }

  /**
   * category_breakdown has a key exactly for the categories some triggered
   * record belongs to; its value is the sum of their scores clamped to the
   * category's cap, so it lies in (0, cap].
   */
  lemma BreakdownCapped(t: Txn, registry: map<string, real>)
    ensures var rs := TriggeredRules(t, registry);
            var bd := Evaluate(t, registry).category_breakdown;
            forall c :: (c in bd <==> HasCategory(rs, c))
              && (c in bd ==> bd[c] == Min(RawSum(rs, c), CategoryCap(c))
                              && 0.0 < bd[c] <= CategoryCap(c))
  {
    var rs := TriggeredRules(t, registry);
    TriggeredScoresPositive(t, registry);
    RawScoresMeaning(rs);
    forall c ensures HasCategory(rs, c) ==> RawSum(rs, c) > 0.0 {
      RawSumPositive(rs, c);
    }
  }

  /** overall_score lies in [0, 1] however many rules and registry contributions fire. */
  lemma OverallScoreBounds(t: Txn, registry: map<string, real>)
    ensures 0.0 <= Evaluate(t, registry).overall_score <= 1.0
  {
    BreakdownCapped(t, registry);
    SumOverNonNegative(CATEGORIES, Evaluate(t, registry).category_breakdown);
  }

  /** confidence is 0 when nothing triggered, otherwise min(round2(1.5 * score), 1); always in [0, 1]. */
  lemma ConfidenceBounds(t: Txn, registry: map<string, real>)
    ensures var r := Evaluate(t, registry);
            (r.triggered_rules == [] ==> r.confidence == 0.0)
            && (r.triggered_rules != [] ==> r.confidence == Min(Round2(r.overall_score * 1.5), 1.0))
            && 0.0 <= r.confidence <= 1.0
  {
    var r := Evaluate(t, registry);
    OverallScoreBounds(t, registry);
    assert Hundredths(r.overall_score * 1.5) >= 0;
  }

  /**
   * With something triggered, a higher overall score never gives a lower
   * confidence: rounding after the 1.5 scaling and the clamp at 1 keep order.
   */
  lemma ConfidenceMonotone(triggered: nat, x: real, y: real)
    requires triggered > 0 && 0.0 <= x <= y
    ensures Confidence(triggered, x) <= Confidence(triggered, y)
  {
    Round2Monotone(x * 1.5, y * 1.5);
  }

  /** A catalogue rule is listed exactly when its predicate holds. */
  lemma TriggeredIff(t: Txn, registry: map<string, real>, id: RuleId)
    ensures (exists i :: 0 <= i < |TriggeredRules(t, registry)| && TriggeredRules(t, registry)[i].id == Fired(id))
            <==> Fires(id, t)
  {
    var hits := RuleHits(t);
    var rs := TriggeredRules(t, registry);
    if exists i :: 0 <= i < |rs| && rs[i].id == Fired(id) {
      var i :| 0 <= i < |rs| && rs[i].id == Fired(id);
      assert i < |hits|;
      assert hits[i] == rs[i];
      assert FiringBelow(hits, t, |RULE_ORDER|) by { RuleHitsFacts(t); }
    }
    if Fires(id, t) {
      assert CompleteBelow(hits, t, |RULE_ORDER|) by { RuleHitsFacts(t); }
      var i :| 0 <= i < |hits| && hits[i].id == Fired(id);
      assert rs[i] == hits[i];
    }
  }

  /** qr_mismatch fires exactly for a QR payment whose scanned and expected VPAs are both present and differ. */
  lemma QrMismatchIff(t: Txn, registry: map<string, real>)
    ensures (exists i :: 0 <= i < |TriggeredRules(t, registry)| && TriggeredRules(t, registry)[i].id == Fired(QrMismatch))
            <==> t.channel == "qr" && t.scanned_qr_vpa != "" && t.merchant_expected_vpa != ""
                 && t.scanned_qr_vpa != t.merchant_expected_vpa
  {
    TriggeredIff(t, registry, QrMismatch);
  }

  /** An absent scanned or expected VPA never yields qr_mismatch, even on the QR channel. */
  lemma QrMismatchNeedsBothVpas(t: Txn, registry: map<string, real>)
    requires t.scanned_qr_vpa == "" || t.merchant_expected_vpa == ""
    ensures forall i :: 0 <= i < |TriggeredRules(t, registry)| ==> TriggeredRules(t, registry)[i].id != Fired(QrMismatch)
  {
    TriggeredIff(t, registry, QrMismatch);
  }

  /**
   * The list is in evaluation order with no rule twice; catalogue records
   * carry the rule's weight and category, and a counterparty_risk record,
   * if any, comes last and carries the registry value.
   */
  lemma TriggeredRulesOrdered(t: Txn, registry: map<string, real>)
    ensures var rs := TriggeredRules(t, registry);
      (forall i, j :: 0 <= i < j < |rs| ==> TriggerRank(rs[i].id) < TriggerRank(rs[j].id))
      && (forall i, j :: 0 <= i < j < |rs| ==> rs[i].id != rs[j].id)
      && (forall i :: 0 <= i < |rs| && rs[i].id.Fired? ==>
            rs[i].score == RuleDef(rs[i].id.rule).weight && rs[i].category == RuleDef(rs[i].id.rule).category)
      && (forall i :: 0 <= i < |rs| && rs[i].id == CounterpartyRisk ==>
            i == |rs| - 1 && t.receiver_vpa in registry && rs[i].score == registry[t.receiver_vpa]
            && rs[i].category == RecipientContext)
  {
    var hits := RuleHits(t);
    var rs := TriggeredRules(t, registry);
    assert FiringBelow(hits, t, |RULE_ORDER|) && Increasing(hits) by { RuleHitsFacts(t); }
    assert CatalogueRecords(hits) by { RuleHitsFacts(t); }
    assert forall i :: 0 <= i < |hits| ==> rs[i] == hits[i];
    assert Increasing(rs);
  }

  /** The list is empty exactly when no rule fires and the registry gives the receiver nothing positive. */
  lemma NothingTriggeredIff(t: Txn, registry: map<string, real>)
    ensures TriggeredRules(t, registry) == [] <==>
      (forall id :: !Fires(id, t)) && CounterpartyScore(registry, t.receiver_vpa) <= 0.0
  {
    forall id ensures Fires(id, t) ==> TriggeredRules(t, registry) != [] {
      TriggeredIff(t, registry, id);
    }
    if (forall id :: !Fires(id, t)) && CounterpartyScore(registry, t.receiver_vpa) <= 0.0 {
      RuleHitsUnrolled(t);
    }
  }

  /** A transaction that triggers nothing scores 0 with confidence 0, tier LOW and an empty breakdown. */
  lemma NothingTriggeredIsClean(t: Txn, registry: map<string, real>)
    requires forall id :: !Fires(id, t)
    requires CounterpartyScore(registry, t.receiver_vpa) <= 0.0
    ensures Evaluate(t, registry) == EvaluationResult(0.0, 0.0, LOW, [], map[])
  {
    NothingTriggeredIff(t, registry);
    var bd := Breakdown(TriggeredRules(t, registry));
    assert bd == map[];
    CategoryTotalUnrolled(bd);
  }

  /** The sum over the seven categories, written out. */
  lemma CategoryTotalUnrolled(m: map<Category, real>)
    ensures CategoryTotal(m) ==
      ValueOr0(m, SocialEngineering) + ValueOr0(m, RecipientContext) + ValueOr0(m, MerchantIntegrity)
      + ValueOr0(m, UiPhishing) + ValueOr0(m, DeviceContext) + ValueOr0(m, GeoAnomaly)
      + ValueOr0(m, BehaviorAnomaly)
  {
    var cs := CATEGORIES;
    assert cs[1..][1..][1..][1..][1..][1..][1..] == [];
  }

  /** A lone qr_mismatch (weight 0.40, under the 0.45 cap) scores 0.40 with confidence 0.60, tier MEDIUM. */
  lemma LoneQrMismatch(t: Txn, registry: map<string, real>)
    requires Fires(QrMismatch, t)
    requires forall id :: id != QrMismatch ==> !Fires(id, t)
    requires CounterpartyScore(registry, t.receiver_vpa) <= 0.0
    ensures Evaluate(t, registry) ==
      EvaluationResult(0.40, 0.60, MEDIUM, [RuleTrigger(QrMismatch)], map[MerchantIntegrity := 0.40])
  {
    assert TriggeredRules(t, registry) == [RuleTrigger(QrMismatch)] by { RuleHitsUnrolled(t); }
    LoneQrMismatchScore();
  }

  lemma LoneQrMismatchScore()
    ensures Summarise([RuleTrigger(QrMismatch)]) ==
      EvaluationResult(0.40, 0.60, MEDIUM, [RuleTrigger(QrMismatch)], map[MerchantIntegrity := 0.40])
  {
    var rs := [RuleTrigger(QrMismatch)];
    var bd := map[MerchantIntegrity := 0.40];
    assert Breakdown(rs) == bd by {
      assert RawScores(rs) == bd by { assert rs[..0] == []; }
    }
    assert CategoryTotal(bd) == 0.40 by { CategoryTotalUnrolled(bd); }
    assert Round2(0.40 * 1.5) == 0.60 by { assert Hundredths(0.60) == 60; }
  }

  /**
   * A probe-then-drain payment above 5000 to a new counterparty triggers
   * verification_pattern (0.30, social_engineering) and new_contact_high_amount
   * (0.20, recipient_context): 0.50, confidence 0.75, tier MEDIUM.
   */
  lemma ProbeThenDrainToNewContact(t: Txn, registry: map<string, real>)
    requires Fires(VerificationPattern, t) && Fires(NewContactHighAmount, t)
    requires forall id :: id != VerificationPattern && id != NewContactHighAmount ==> !Fires(id, t)
    requires CounterpartyScore(registry, t.receiver_vpa) <= 0.0
    ensures Evaluate(t, registry).overall_score == 0.50
    ensures Evaluate(t, registry).confidence == 0.75
    ensures Evaluate(t, registry).risk_level == MEDIUM
    ensures Evaluate(t, registry).category_breakdown == map[SocialEngineering := 0.30, RecipientContext := 0.20]
  {
    assert TriggeredRules(t, registry) == [RuleTrigger(VerificationPattern), RuleTrigger(NewContactHighAmount)] by {
      RuleHitsUnrolled(t);
    }
    ProbeThenDrainScore();
  }

  lemma ProbeThenDrainScore()
    ensures var r := Summarise([RuleTrigger(VerificationPattern), RuleTrigger(NewContactHighAmount)]);
      r.overall_score == 0.50 && r.confidence == 0.75 && r.risk_level == MEDIUM
      && r.category_breakdown == map[SocialEngineering := 0.30, RecipientContext := 0.20]
  {
    var rs := [RuleTrigger(VerificationPattern), RuleTrigger(NewContactHighAmount)];
    var bd := map[SocialEngineering := 0.30, RecipientContext := 0.20];
    assert Breakdown(rs) == bd by {
      assert RawScores(rs) == bd by {
        assert rs[..1] == [RuleTrigger(VerificationPattern)];
        assert rs[..1][..0] == [];
        assert RawScores(rs[..1]) == map[SocialEngineering := 0.30];
      }
    }
    assert CategoryTotal(bd) == 0.50 by { CategoryTotalUnrolled(bd); }
    assert Round2(0.50 * 1.5) == 0.75 by { assert Hundredths(0.75) == 75; }
  }

  /**
   * new_contact_high_amount (0.20) together with a registry value of at least
   * 0.10 for the receiver is clamped to the 0.30 cap of recipient_context.
   */
  lemma RecipientContextClamped(t: Txn, registry: map<string, real>)
    requires Fires(NewContactHighAmount, t)
    requires forall id :: id != NewContactHighAmount ==> !Fires(id, t)
    requires t.receiver_vpa in registry && registry[t.receiver_vpa] >= 0.10
    ensures Evaluate(t, registry).category_breakdown == map[RecipientContext := 0.30]
    ensures Evaluate(t, registry).overall_score == 0.30
    ensures Evaluate(t, registry).confidence == 0.45
    ensures Evaluate(t, registry).risk_level == LOW
    ensures |Evaluate(t, registry).triggered_rules| == 2
  {
    var s := registry[t.receiver_vpa];
    assert TriggeredRules(t, registry) == [RuleTrigger(NewContactHighAmount),
      TriggeredRule(CounterpartyRisk, s, RecipientContext)] by {
      RuleHitsUnrolled(t);
    }
    RecipientContextScore(s);
  }

  lemma RecipientContextScore(s: real)
    requires s >= 0.10
    ensures var r := Summarise([RuleTrigger(NewContactHighAmount),
                                TriggeredRule(CounterpartyRisk, s, RecipientContext)]);
      r.category_breakdown == map[RecipientContext := 0.30]
      && r.overall_score == 0.30 && r.confidence == 0.45 && r.risk_level == LOW
  {
    var rs := [RuleTrigger(NewContactHighAmount),
               TriggeredRule(CounterpartyRisk, s, RecipientContext)];
    assert RawScores(rs) == map[RecipientContext := 0.20 + s] by {
      assert rs[..1] == [RuleTrigger(NewContactHighAmount)];
      assert rs[..1][..0] == [];
      assert RawScores(rs[..1]) == map[RecipientContext := 0.20];
    }
    var bd := map[RecipientContext := 0.30];
    assert Breakdown(rs) == bd;
    assert CategoryTotal(bd) == 0.30 by { CategoryTotalUnrolled(bd); }
    assert Round2(0.30 * 1.5) == 0.45 by { assert Hundredths(0.45) == 45; }
  }
}
