/**
 * The pure helpers of secure_system.go: the `SecurityMonitor`'s health grade
 * and alert titles and the paging of its event list, and the
 * `SecureTransactionHandler`'s configuration check, sensitive-endpoint test,
 * the risk gates of the payment and payout handlers and the clamp on the
 * history page size.
 *
 * Query parameters arrive as `Option<string>` (None when absent); `Atoi`
 * errors are dropped as in the source, which leaves 0.
 */
module SecureSystem {
  import opened Wrappers
  import opened StringUtil
  import EnhancedSecurity

  // ---------------------------------------------------------------------------
  // System health

  /** The five counters of `SecurityMetrics` that the grade reads. */
  datatype Metrics = Metrics(
    failedLogins24h: int,
    blockedIPs: int,
    highRiskUsers: int,
    criticalAlerts: int,
    fraudDetections: int)

  datatype Health = Excellent | Good | Fair | Poor | Critical

  function HealthName(h: Health): string {
    match h
    case Excellent => "excellent"
    case Good => "good"
    case Fair => "fair"
    case Poor => "poor"
    case Critical => "critical"
  }

  /** The grades from worst (0) to best (4). */
  function Rank(h: Health): nat {
    match h
    case Critical => 0
    case Poor => 1
    case Fair => 2
    case Good => 3
    case Excellent => 4
  }

  /** One metric's deduction: `big` strictly above `upper`, else `small`
      strictly above `lower`, else nothing. */
  function Deduction(value: int, lower: int, small: nat, upper: int, big: nat): (d: nat)
    requires lower <= upper && 0 < small <= big
    ensures d <= big
    ensures d == 0 <==> value <= lower
  {
    if value > upper then big else if value > lower then small else 0
  }

  /** What the five metrics take off 100. */
  function Deductions(m: Metrics): (total: nat)
    ensures total <= 110
  {
    Deduction(m.failedLogins24h, 50, 10, 100, 20)
      + Deduction(m.blockedIPs, 10, 8, 20, 15)
      + Deduction(m.highRiskUsers, 20, 12, 50, 25)
      + Deduction(m.criticalAlerts, 5, 15, 10, 30)
      + Deduction(m.fraudDetections, 10, 10, 20, 20)
  }

  /** The score `calculateSystemHealth` builds. */
  function HealthScore(m: Metrics): (score: int)
    ensures -10 <= score <= 100
    ensures score == 100 <==> m.failedLogins24h <= 50 && m.blockedIPs <= 10 && m.highRiskUsers <= 20
                              && m.criticalAlerts <= 5 && m.fraudDetections <= 10
  {
    100 - Deductions(m)
  }

  /** The bands: 90, 75, 60, 40. */
  function HealthOf(score: int): (h: Health)
    ensures h == Excellent <==> score >= 90
    ensures h == Good <==> 75 <= score < 90
    ensures h == Fair <==> 60 <= score < 75
    ensures h == Poor <==> 40 <= score < 60
    ensures h == Critical <==> score < 40
    ensures Rank(h) >= 2 <==> score >= 60
  {
    if score >= 90 then Excellent
    else if score >= 75 then Good
    else if score >= 60 then Fair
    else if score >= 40 then Poor
    else Critical
  }

  /** `calculateSystemHealth`: start at 100, take off each metric's tier, grade. */
  method CalculateSystemHealth(m: Metrics) returns (status: string)
    ensures status == HealthName(HealthOf(HealthScore(m)))
  {
    var score := 100;
    if m.failedLogins24h > 100 {
      score := score - 20;
    } else if m.failedLogins24h > 50 {
      score := score - 10;
    }
    ghost var deducted := Deduction(m.failedLogins24h, 50, 10, 100, 20);
    assert score == 100 - deducted;
    if m.blockedIPs > 20 {
      score := score - 15;
    } else if m.blockedIPs > 10 {
      score := score - 8;
    }
    deducted := deducted + Deduction(m.blockedIPs, 10, 8, 20, 15);
    assert score == 100 - deducted;
    if m.highRiskUsers > 50 {
      score := score - 25;
    } else if m.highRiskUsers > 20 {
      score := score - 12;
    }
    deducted := deducted + Deduction(m.highRiskUsers, 20, 12, 50, 25);
    assert score == 100 - deducted;
    if m.criticalAlerts > 10 {
      score := score - 30;
    } else if m.criticalAlerts > 5 {
      score := score - 15;
    }
    deducted := deducted + Deduction(m.criticalAlerts, 5, 15, 10, 30);
    assert score == 100 - deducted;
    if m.fraudDetections > 20 {
      score := score - 20;
    } else if m.fraudDetections > 10 {
      score := score - 10;
    }
    assert score == HealthScore(m);
    if score >= 90 {
      return "excellent";
    } else if score >= 75 {
      return "good";
    } else if score >= 60 {
      return "fair";
    } else if score >= 40 {
      return "poor";
    } else {
      return "critical";
    }
  }

  /** `m` is no worse than `n` on every metric. */
  predicate NoWorse(m: Metrics, n: Metrics) {
    m.failedLogins24h <= n.failedLogins24h && m.blockedIPs <= n.blockedIPs && m.highRiskUsers <= n.highRiskUsers
    && m.criticalAlerts <= n.criticalAlerts && m.fraudDetections <= n.fraudDetections
  }

  lemma DeductionMonotone(v: int, w: int, lower: int, small: nat, upper: int, big: nat)
    requires lower <= upper && 0 < small <= big && v <= w
    ensures Deduction(v, lower, small, upper, big) <= Deduction(w, lower, small, upper, big)
  {
  }

  /** Raising any metric never improves the grade. */
  lemma {:induction false} HealthMonotone(m: Metrics, n: Metrics)
    requires NoWorse(m, n)
    ensures HealthScore(n) <= HealthScore(m)
    ensures Rank(HealthOf(HealthScore(n))) <= Rank(HealthOf(HealthScore(m)))
  {
    DeductionMonotone(m.failedLogins24h, n.failedLogins24h, 50, 10, 100, 20);
    DeductionMonotone(m.blockedIPs, n.blockedIPs, 10, 8, 20, 15);
    DeductionMonotone(m.highRiskUsers, n.highRiskUsers, 20, 12, 50, 25);
    DeductionMonotone(m.criticalAlerts, n.criticalAlerts, 5, 15, 10, 30);
    DeductionMonotone(m.fraudDetections, n.fraudDetections, 10, 10, 20, 20);
  }

  /** The largest single deduction is 30, so one bad metric on its own leaves
      the system at least "fair"; a "poor" or "critical" grade needs two. */
  lemma OneMetricAtLeastFair(m: Metrics)
    requires (m.failedLogins24h > 50 ==> m.blockedIPs <= 10 && m.highRiskUsers <= 20 && m.criticalAlerts <= 5 && m.fraudDetections <= 10)
    requires (m.blockedIPs > 10 ==> m.highRiskUsers <= 20 && m.criticalAlerts <= 5 && m.fraudDetections <= 10)
    requires (m.highRiskUsers > 20 ==> m.criticalAlerts <= 5 && m.fraudDetections <= 10)
    requires (m.criticalAlerts > 5 ==> m.fraudDetections <= 10)
    ensures Rank(HealthOf(HealthScore(m))) >= 2
  {
  }

  /** Every metric above its upper threshold gives the lowest score, -10. */
  lemma AllBadIsCritical(m: Metrics)
    requires m.failedLogins24h > 100 && m.blockedIPs > 20 && m.highRiskUsers > 50
    requires m.criticalAlerts > 10 && m.fraudDetections > 20
    ensures HealthScore(m) == -10 && HealthOf(HealthScore(m)) == Critical
  {
  }

  // ---------------------------------------------------------------------------
  // Alert titles

  /** `alertTitles`; each title is written as its severity heading followed by
      the rest. */
  const AlertTitles: map<string, map<string, string>> := map[
    "failed_login" := map[
      "critical" := "Critical: " + "Multiple Failed Login Attempts",
      "high" := "High: " + "Suspicious Login Activity",
      "medium" := "Medium: " + "Failed Login Detected"],
    "fraud_detection" := map[
      "critical" := "Critical: " + "Fraud Detected",
      "high" := "High: " + "Suspicious Transaction",
      "medium" := "Medium: " + "Transaction Flagged"],
    "blocked_ip" := map[
      "critical" := "Critical: " + "Malicious IP Blocked",
      "high" := "High: " + "Suspicious IP Activity",
      "medium" := "Medium: " + "IP Address Blocked"],
    "high_risk_transaction" := map[
      "critical" := "Critical: " + "High-Risk Transaction",
      "high" := "High: " + "Transaction Requires Review",
      "medium" := "Medium: " + "Transaction Flagged"]]

  /** The pair has a fixed title. */
  predicate HasFixedTitle(eventType: string, severity: string) {
    eventType in AlertTitles && severity in AlertTitles[eventType]
  }

  /** `generateAlertTitle`: the fixed title, else "<severity>: <eventType> Event". */
  function GenerateAlertTitle(eventType: string, severity: string): (title: string)
    ensures HasFixedTitle(eventType, severity) ==> title == AlertTitles[eventType][severity]
    ensures !HasFixedTitle(eventType, severity) ==> title == severity + ": " + eventType + " Event"
  {
    if eventType in AlertTitles && severity in AlertTitles[eventType] then AlertTitles[eventType][severity]
    else severity + ": " + eventType + " Event"
  }

  /** The table covers exactly the four event types and the three severities. */
  lemma FixedTitlesExactly(eventType: string, severity: string)
    ensures HasFixedTitle(eventType, severity) <==>
      eventType in {"failed_login", "fraud_detection", "blocked_ip", "high_risk_transaction"}
      && severity in {"critical", "high", "medium"}
  {
  }

  /** The heading the table gives each severity. */
  function Heading(severity: string): string {
    if severity == "critical" then "Critical: " else if severity == "high" then "High: " else "Medium: "
  }

  lemma FixedTitleHeading(eventType: string, severity: string)
    requires HasFixedTitle(eventType, severity)
    ensures var title := AlertTitles[eventType][severity];
      |Heading(severity)| <= |title| && title[..|Heading(severity)|] == Heading(severity)
  {
    FixedTitlesExactly(eventType, severity);
  }

  lemma HeadingLower(severity: string)
    requires severity in {"critical", "high", "medium"}
    ensures |Heading(severity)| == |severity| + 2 && ToLower(Heading(severity)) == severity + ": "
  {
    var h := Heading(severity);
    assert forall i :: 0 <= i < |h| ==> ToLower(h)[i] == LowerChar(h[i]);
  }

  /** Whatever the pair, the title opens with the severity (capitalised in the
      table) and a colon. */
  lemma TitleOpensWithSeverity(eventType: string, severity: string)
    ensures var title := GenerateAlertTitle(eventType, severity);
      |severity| + 2 <= |title| && ToLower(title[..|severity| + 2]) == ToLower(severity) + ": "
  {
    var title := GenerateAlertTitle(eventType, severity);
    if HasFixedTitle(eventType, severity) {
      FixedTitlesExactly(eventType, severity);
      FixedTitleHeading(eventType, severity);
      HeadingLower(severity);
      assert ToLower(severity) == severity;
    } else {
      var head := severity + ": ";
      assert title[..|severity| + 2] == head;
      assert ToLower(head) == ToLower(severity) + ": ";
    }
  }

  // ---------------------------------------------------------------------------
  // Paging

  /** `strconv.Atoi(c.DefaultQuery(name, default))` with the error dropped. */
  function QueryInt(raw: Option<string>, default: string): int {
    AtoiOrZero(raw.GetOr(default))
  }

  /** The OFFSET of `getSecurityEvents`: (page - 1) * limit, page defaulting to 1
      and limit to 50. */
  function EventsOffset(page: Option<string>, limit: Option<string>): int {
    (QueryInt(page, "1") - 1) * QueryInt(limit, "50")
  }

  /** Page n of a well-formed request starts after n - 1 full pages. */
  lemma EventsOffsetOfPage(page: int, limit: int)
    ensures EventsOffset(Some(IntToString(page)), Some(IntToString(limit))) == (page - 1) * limit
    ensures EventsOffset(None, None) == 0
  {
    ParseIntRoundTrip(page);
    ParseIntRoundTrip(limit);
    ParseIntRoundTrip(1);
  }

  /** A page that does not parse counts as page 0, so the offset is minus one
      page: the first 50 events are requested with OFFSET -50. */
  lemma UnparsablePageGoesNegative(page: string)
    requires ParseInt(page) == None
    ensures EventsOffset(Some(page), None) == -50
  {
    assert ParseInt("50") == Some(50) by { ParseIntRoundTrip(50); assert IntToString(50) == "50"; }
  }

  /** The history handler's page size: `limit` defaults to 20 and is cut down to
      100; nothing raises a small or negative one. */
  method ClampHistoryLimit(raw: Option<string>) returns (limit: int)
    ensures limit <= 100
    ensures limit == if QueryInt(raw, "20") > 100 then 100 else QueryInt(raw, "20")
  {
    limit := AtoiOrZero(raw.GetOr("20"));
    if limit > 100 {
      limit := 100;
    }
  }

  lemma HistoryLimitExamples()
    ensures QueryInt(None, "20") == 20
    ensures QueryInt(Some("-5"), "20") == -5
    ensures QueryInt(Some("x"), "20") == 0
  {
    ParseIntRoundTrip(20);
    ParseIntRoundTrip(-5);
    assert IntToString(20) == "20";
    assert IntToString(-5) == "-5";
  }

  // ---------------------------------------------------------------------------
  // Configuration and endpoints

  const DefaultJWTSecret: string := "your-super-secret-jwt-key-change-this"
  const DefaultEncryptionKey: string := "your-32-byte-encryption-key-here-change-this"

  datatype ConfigError = DefaultJWT | DefaultKey | ShortJWT

  function ConfigErrorText(e: ConfigError): string {
    match e
    case DefaultJWT => "JWT secret must be changed from default value"
    case DefaultKey => "encryption key must be changed from default value"
    case ShortJWT => "JWT secret must be at least 32 characters long"
  }

  /** `validateSecurityConfig`: the first failed check, or None. */
  function ValidateSecurityConfig(jwtSecret: string, encryptionKey: string): (r: Option<ConfigError>)
    ensures r == None <==> jwtSecret != DefaultJWTSecret && encryptionKey != DefaultEncryptionKey && Utf8Len(jwtSecret) >= 32
    ensures r == Some(DefaultJWT) <==> jwtSecret == DefaultJWTSecret
    ensures r == Some(DefaultKey) <==> jwtSecret != DefaultJWTSecret && encryptionKey == DefaultEncryptionKey
    ensures r == Some(ShortJWT) <==> jwtSecret != DefaultJWTSecret && encryptionKey != DefaultEncryptionKey && Utf8Len(jwtSecret) < 32
  {
    if jwtSecret == DefaultJWTSecret then Some(DefaultJWT)
    else if encryptionKey == DefaultEncryptionKey then Some(DefaultKey)
    else if Utf8Len(jwtSecret) < 32 then Some(ShortJWT)
    else None
  }

  /** The default secret is 37 bytes long, so without the first check it would
      pass the length check. */
  lemma DefaultSecretIsLongEnough()
    ensures Utf8Len(DefaultJWTSecret) == 37
  {
    assert forall i :: 0 <= i < |DefaultJWTSecret| ==> DefaultJWTSecret[i] as int < 0x80;
  }

  /** The prefix of the versioned API routes. */
  const ApiPrefix: string := "/api/v1"

  const SensitiveEndpoints: seq<string> := [ApiPrefix + "/payments", ApiPrefix + "/payouts", ApiPrefix + "/balance", ApiPrefix + "/security", "/admin"]

  /** `isSensitiveEndpoint`: the path mentions one of the five prefixes. */
  function IsSensitiveEndpoint(path: string): (r: bool)
    ensures r <==> exists k :: 0 <= k < |SensitiveEndpoints| && Contains(path, SensitiveEndpoints[k])
  {
    ContainsAny(path, SensitiveEndpoints)
  }

  /** The three money endpoints are sensitive operations in the sense of the
      enhanced service too; the security and admin ones are not covered there. */
  lemma MoneyEndpointsAreSensitiveOperations(path: string)
    requires IsSensitiveEndpoint(path)
    requires !Contains(path, ApiPrefix + "/security") && !Contains(path, "/admin")
    ensures EnhancedSecurity.IsSensitiveOperation(path)
  {
    var k :| 0 <= k < |SensitiveEndpoints| && Contains(path, SensitiveEndpoints[k]);
    var tail := if k == 0 then "/payments" else if k == 1 then "/payouts" else "/balance";
    assert SensitiveEndpoints[k] == ApiPrefix + tail;
    TailContained(ApiPrefix, tail);
    ContainsTransitive(path, SensitiveEndpoints[k], tail);
  }

  /** The end of a concatenation occurs in it. */
  lemma TailContained(head: string, tail: string)
    ensures Contains(head + tail, tail)
  {
    assert OccursAt(head + tail, tail, |head|) by {
      assert (head + tail)[|head|..|head| + |tail|] == tail;
    }
  }

  // ---------------------------------------------------------------------------
  // Handler gates

  /** How a payment or payout handler answers before reaching the transaction
      service: 400 for a body that does not bind, 403 for a risky request. */
  datatype GateOutcome = BadRequest | Forbidden | Proceed

  /** The payment handler: binding first, then a score strictly above 80. */
  function PaymentGate(bodyBinds: bool, riskScore: int): (g: GateOutcome)
    ensures g == BadRequest <==> !bodyBinds
    ensures g == Forbidden <==> bodyBinds && riskScore > 80
  {
    if !bodyBinds then BadRequest else if riskScore > 80 then Forbidden else Proceed
  }

  /** The payout handler: binding first, then a score strictly above 70. */
  function PayoutGate(bodyBinds: bool, riskScore: int): (g: GateOutcome)
    ensures g == BadRequest <==> !bodyBinds
    ensures g == Forbidden <==> bodyBinds && riskScore > 70
  {
    if !bodyBinds then BadRequest else if riskScore > 70 then Forbidden else Proceed
  }

  /** Payouts are the stricter gate: whatever a payment is refused for, a payout
      is too, and scores 71 to 80 refuse payouts only. */
  lemma PayoutStricter(bodyBinds: bool, riskScore: int)
    ensures PaymentGate(bodyBinds, riskScore) == Forbidden ==> PayoutGate(bodyBinds, riskScore) == Forbidden
    ensures bodyBinds && 70 < riskScore <= 80 ==>
      PaymentGate(bodyBinds, riskScore) == Proceed && PayoutGate(bodyBinds, riskScore) == Forbidden
  {
  }

  /** A score the transaction middleware let through (at most 80) never trips
      the payment handler's own gate; with the placeholder location and IP
      reputation, neither handler gate fires. */
  lemma GatesAfterMiddleware(bodyBinds: bool, inputs: EnhancedSecurity.RiskInputs)
    requires bodyBinds
    ensures !EnhancedSecurity.NeedsManualReview(EnhancedSecurity.RiskScore(inputs)) ==>
      PaymentGate(bodyBinds, EnhancedSecurity.RiskScore(inputs)) == Proceed
    ensures inputs.location == EnhancedSecurity.PlaceholderLocation && !inputs.highRiskIP ==>
      PaymentGate(bodyBinds, EnhancedSecurity.RiskScore(inputs)) == Proceed
      && PayoutGate(bodyBinds, EnhancedSecurity.RiskScore(inputs)) == Proceed
  {
    if inputs.location == EnhancedSecurity.PlaceholderLocation && !inputs.highRiskIP {
      EnhancedSecurity.PlaceholdersNeverReview(inputs);
    }
  }
}
