/**
 * The static configuration of the UPI fraud rule engine and the per-rule
 * predicates: the seven weighted rules, the category caps, the transaction
 * record the rules read, and the normalisation of a raw CSV row into it.
 */
module FraudRules {

  /** The categories a rule may belong to (the keys of CATEGORY_CAPS). */
  datatype Category =
    | SocialEngineering
    | RecipientContext
    | MerchantIntegrity
    | UiPhishing
    | DeviceContext
    | GeoAnomaly
    | BehaviorAnomaly

  /** Every category, each exactly once, in the order of CATEGORY_CAPS. */
  const CATEGORIES: seq<Category> :=
    [SocialEngineering, RecipientContext, MerchantIntegrity, UiPhishing,
     DeviceContext, GeoAnomaly, BehaviorAnomaly]

  /** CATEGORY_CAPS: the most a category may contribute to the overall score. */
  function CategoryCap(c: Category): (cap: real)
    ensures 0.0 < cap <= 1.0
  {
    match c
    case SocialEngineering => 0.45
    case RecipientContext => 0.30
    case MerchantIntegrity => 0.45
    case UiPhishing => 0.40
    case DeviceContext => 0.25
    case GeoAnomaly => 0.25
    case BehaviorAnomaly => 0.35
  }

  /** The identifiers of the rules in RULES. */
  datatype RuleId =
    | VerificationPattern
    | NewContactHighAmount
    | QrMismatch
    | RefundScamPattern
    | DeviceChangeHighValue
    | LocationChangeHighValue
    | HighAnomalyScore

  /** The order in which the rules are tested, and so listed when they trigger. */
  const RULE_ORDER: seq<RuleId> :=
    [VerificationPattern, NewContactHighAmount, QrMismatch, RefundScamPattern,
     DeviceChangeHighValue, LocationChangeHighValue, HighAnomalyScore]

  /** The position of a rule in RULE_ORDER. */
  function Rank(id: RuleId): (k: nat)
    ensures k < |RULE_ORDER| && RULE_ORDER[k] == id
  {
    match id
    case VerificationPattern => 0
    case NewContactHighAmount => 1
    case QrMismatch => 2
    case RefundScamPattern => 3
    case DeviceChangeHighValue => 4
    case LocationChangeHighValue => 5
    case HighAnomalyScore => 6
  }

  /** One entry of RULES, without its description (see RuleDescription). */
  datatype Rule = Rule(weight: real, category: Category)

  /**
   * RULES. Every weight lies in (0, 1] and fits under its category's cap, so
   * the configuration is one the engine may score with.
   */
  function RuleDef(id: RuleId): (rule: Rule)
    ensures 0.0 < rule.weight <= 1.0
    ensures rule.weight <= CategoryCap(rule.category)
  {
    match id
    case VerificationPattern =>
      Rule(0.30, SocialEngineering)
    case NewContactHighAmount =>
      Rule(0.20, RecipientContext)
    case QrMismatch =>
      Rule(0.40, MerchantIntegrity)
    case RefundScamPattern =>
      Rule(0.35, UiPhishing)
    case DeviceChangeHighValue =>
      Rule(0.20, DeviceContext)
    case LocationChangeHighValue =>
      Rule(0.20, GeoAnomaly)
    case HighAnomalyScore =>
      Rule(0.25, BehaviorAnomaly)
  }

  /** The description RULES gives each rule. */
  function RuleDescription(id: RuleId): string
  {
    match id
    case VerificationPattern => "Small amount test transaction followed by high debit"
    case NewContactHighAmount => "High-value payment to a new counterparty"
    case QrMismatch => "QR scanned VPA does not match registered merchant"
    case RefundScamPattern => "Refund/cashback flow but outbound transaction requiring PIN"
    case DeviceChangeHighValue => "Large outgoing payment from newly switched device"
    case LocationChangeHighValue => "High-value payment from abnormal location"
    case HighAnomalyScore => "ML anomaly model indicates unusual deviation"
  }

  /** One earlier low-value transfer recorded in a transaction's history. */
  datatype HistoryEntry = HistoryEntry(amount: real, timestamp: int, counterparty: string)

  /**
   * A normalised transaction. An optional text column that is absent is the
   * empty string: both are falsy where the rules test them.
   */
  datatype Txn = Txn(
    txn_id: string,
    sender_vpa: string,
    receiver_vpa: string,
    amount: real,
    channel: string,
    is_new_counterparty: bool,
    device_change: bool,
    location_change: bool,
    requires_pin: bool,
    page_context: string,
    scanned_qr_vpa: string,
    merchant_expected_vpa: string,
    anomaly_score: real,
    timestamp: int,
    state: string,
    previous_small_transactions: seq<HistoryEntry>)

  /** A raw CSV row: the boolean flags are still text; amount, score and time are already numbers. */
  datatype Row = Row(
    txn_id: string,
    sender_vpa: string,
    receiver_vpa: string,
    amount: real,
    channel: string,
    is_new_counterparty: string,
    device_change: string,
    location_change: string,
    requires_pin: string,
    page_context: string,
    scanned_qr_vpa: string,
    merchant_expected_vpa: string,
    anomaly_score: real,
    timestamp: int,
    state: string)

  /**
   * normalizeTransaction: a flag holds exactly when its text is "true", a
   * missing state becomes "Unknown", the history starts empty, and every other
   * column is carried over unchanged.
   */
  function NormalizeTransaction(row: Row): (t: Txn)
    ensures t.state != ""
  {
    Txn(row.txn_id, row.sender_vpa, row.receiver_vpa, row.amount, row.channel,
        row.is_new_counterparty == "true", row.device_change == "true",
        row.location_change == "true", row.requires_pin == "true",
        row.page_context, row.scanned_qr_vpa, row.merchant_expected_vpa,
        row.anomaly_score, row.timestamp,
        if row.state == "" then "Unknown" else row.state,
        [])
  }

  /** The pages on which a PIN prompt suggests a refund or cashback scam. */
  const SUSPICIOUS_PAGES: seq<string> := ["refund_screen", "cashback_screen", "support_claim"]

  /** The history holds a transfer of at most 10 to `receiver`. */
  predicate SmallTransferTo(history: seq<HistoryEntry>, receiver: string)
  {
    exists e :: e in history && e.counterparty == receiver && e.amount <= 10.0
  }

  /** The predicate of each rule, exactly as the engine tests it. */
  predicate Fires(id: RuleId, t: Txn)
  {
    match id
    case VerificationPattern =>
      |t.previous_small_transactions| > 0 && t.amount > 1000.0 && t.is_new_counterparty
      && SmallTransferTo(t.previous_small_transactions, t.receiver_vpa)
    case NewContactHighAmount =>
      t.is_new_counterparty && t.amount > 5000.0
    case QrMismatch =>
      t.channel == "qr" && t.scanned_qr_vpa != "" && t.merchant_expected_vpa != ""
      && t.scanned_qr_vpa != t.merchant_expected_vpa
    case RefundScamPattern =>
      t.page_context in SUSPICIOUS_PAGES && t.requires_pin
    case DeviceChangeHighValue =>
      t.device_change && t.amount > 2000.0
    case LocationChangeHighValue =>
      t.location_change && t.amount > 2000.0
    case HighAnomalyScore =>
      t.anomaly_score >= 0.55
  }

  /**
   * The length test in front of `some` is redundant: verification_pattern
   * fires exactly for a high-value payment to a new counterparty whose
   * history holds a transfer of at most 10 to the same receiver.
   */
  lemma VerificationPatternIff(t: Txn)
    ensures Fires(VerificationPattern, t) <==>
      t.amount > 1000.0 && t.is_new_counterparty
      && exists e :: e in t.previous_small_transactions
           && e.counterparty == t.receiver_vpa && e.amount <= 10.0
  {
    if SmallTransferTo(t.previous_small_transactions, t.receiver_vpa) {
      var e :| e in t.previous_small_transactions && e.counterparty == t.receiver_vpa && e.amount <= 10.0;
      assert |t.previous_small_transactions| > 0;
    }
  }

  /**
   * The rules read the parsed flags: on a normalised row each flag rule fires
   * exactly when its column holds the text "true" (any other text, such as
   * "True" or "1", counts as false), and the other rules read the row's
   * columns unchanged.
   */
  lemma NormalizedRowRules(row: Row)
    ensures Fires(NewContactHighAmount, NormalizeTransaction(row)) <==>
      row.is_new_counterparty == "true" && row.amount > 5000.0
    ensures Fires(RefundScamPattern, NormalizeTransaction(row)) <==>
      row.page_context in SUSPICIOUS_PAGES && row.requires_pin == "true"
    ensures Fires(DeviceChangeHighValue, NormalizeTransaction(row)) <==>
      row.device_change == "true" && row.amount > 2000.0
    ensures Fires(LocationChangeHighValue, NormalizeTransaction(row)) <==>
      row.location_change == "true" && row.amount > 2000.0
    ensures Fires(QrMismatch, NormalizeTransaction(row)) <==>
      row.channel == "qr" && row.scanned_qr_vpa != "" && row.merchant_expected_vpa != ""
      && row.scanned_qr_vpa != row.merchant_expected_vpa
    ensures Fires(HighAnomalyScore, NormalizeTransaction(row)) <==> row.anomaly_score >= 0.55
  {
  }

  /** A missing state becomes "Unknown"; a present one is kept, so only "" and "Unknown" map to "Unknown". */
  lemma NormalizedState(row: Row)
    ensures NormalizeTransaction(row).state == "Unknown" <==> row.state == "" || row.state == "Unknown"
    ensures row.state != "" ==> NormalizeTransaction(row).state == row.state
  {
  }

  /** A freshly normalised row has no history yet, so verification_pattern cannot fire on it. */
  lemma NormalizedRowHasNoProbe(row: Row)
    ensures !Fires(VerificationPattern, NormalizeTransaction(row))
  {
  }
}
