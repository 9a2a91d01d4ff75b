/**
 * `EnhancedSecurityService` of enhanced_security.go: the path, location and
 * token predicates, the risk score of a transaction, the password rules, the
 * real-IP lookup, and the two tables the service keeps in memory: the IP block
 * list of the rate-limit middleware and the per-user, per-IP request window of
 * `detectSuspiciousBehavior`.
 *
 * Times are whole seconds on one clock and the current time is a parameter
 * `now`. What the source asks of a database, of the rate limiter or of a
 * request header arrives as a parameter too.
 */
module EnhancedSecurity {
  import opened Wrappers
  import opened StringUtil
  import opened Sequences

  /** `LockoutDuration`: how long a rate-limited IP stays blocked. */
  const LockoutSeconds: int := 15 * 60
  /** The window of `detectSuspiciousBehavior`. */
  const AttemptWindowSeconds: int := 5 * 60
  /** More recent requests than this in the window is suspicious. */
  const MaxRecentAttempts: nat := 10
  /** `PasswordMinLength`. */
  const PasswordMinLength: nat := 12
  /** Above this risk score the transaction middleware asks for manual review. */
  const TransactionRiskLimit: int := 80

  // ---------------------------------------------------------------------------
  // Path, location and token predicates

  const SensitiveOps: seq<string> := ["/payments", "/payouts", "/balance", "/withdraw"]

  /** `isSensitiveOperation`: the path mentions one of the four money operations. */
  function IsSensitiveOperation(path: string): (r: bool)
    ensures r <==> Contains(path, "/payments") || Contains(path, "/payouts")
                   || Contains(path, "/balance") || Contains(path, "/withdraw")
  {
    assert SensitiveOps[0] == "/payments" && SensitiveOps[1] == "/payouts";
    assert SensitiveOps[2] == "/balance" && SensitiveOps[3] == "/withdraw";
    ContainsAny(path, SensitiveOps)
  }

  /** The six codes of `isHighRiskLocation`. */
  const HighRiskCountries: seq<string> := ["CN", "RU", "KP", "IR", "SY", "AF"]
  /** The four codes the geo-blocking middleware rejects. */
  const BlockedCountries: seq<string> := ["CN", "RU", "KP", "IR"]

  /** `isHighRiskLocation`: the location mentions one of the six codes. */
  function IsHighRiskLocation(location: string): (r: bool)
    ensures r <==> exists k :: 0 <= k < |HighRiskCountries| && Contains(location, HighRiskCountries[k])
  {
    ContainsAny(location, HighRiskCountries)
  }

  /** The check of `geoBlockingMiddleware`: the location mentions one of the four codes. */
  function GeoBlocked(location: string): (r: bool)
    ensures r <==> exists k :: 0 <= k < |BlockedCountries| && Contains(location, BlockedCountries[k])
  {
    ContainsAny(location, BlockedCountries)
  }

  /** The geo-block list is the first four codes of the high-risk list, so every
      blocked location is also a high-risk one. */
  lemma GeoBlockedIsHighRisk(location: string)
    ensures GeoBlocked(location) ==> IsHighRiskLocation(location)
  {
    if GeoBlocked(location) {
      var k :| 0 <= k < |BlockedCountries| && Contains(location, BlockedCountries[k]);
      assert BlockedCountries[k] == HighRiskCountries[k];
    }
  }

  /** What `getLocationFromIP` returns for every IP. */
  const PlaceholderLocation: string := "US"

  /** The placeholder location is neither high-risk nor geo-blocked. */
  lemma PlaceholderLocationIsSafe()
    ensures !IsHighRiskLocation(PlaceholderLocation) && !GeoBlocked(PlaceholderLocation)
  {
    forall k | 0 <= k < |HighRiskCountries| ensures !Contains(PlaceholderLocation, HighRiskCountries[k]) {
      NotContainedTwoLetters(PlaceholderLocation, HighRiskCountries[k]);
    }
    GeoBlockedIsHighRisk(PlaceholderLocation);
  }

  /** A two-letter string is contained in another two-letter string only when they are equal. */
  lemma NotContainedTwoLetters(hay: string, needle: string)
    requires |hay| == 2 && |needle| == 2 && hay != needle
    ensures !Contains(hay, needle)
  {
    assert hay[0..2] == hay;
  }

  /** `validateTOTP`: six bytes that are not "000000". */
  function ValidateTOTP(secret: string, token: string): (ok: bool)
    ensures ok <==> Utf8Len(token) == 6 && token != "000000"
  {
    Utf8Len(token) == 6 && token != "000000"
  }

  /** Every six-digit code except "000000" is accepted, whatever the secret;
      "000000" never is. */
  lemma TOTPAcceptsSixDigits(secret: string, token: string)
    requires |token| == 6 && forall i :: 0 <= i < 6 ==> '0' <= token[i] <= '9'
    ensures ValidateTOTP(secret, token) <==> token != "000000"
  {
  }

  /** `compareBiometricData`: the template and the sample are the same string. */
  function CompareBiometricData(template: string, data: string): (ok: bool)
    ensures ok <==> template == data
    ensures ok ==> CompareBiometricData(data, template)
  {
    template == data
  }

  // ---------------------------------------------------------------------------
  // Transaction risk

  /** What `calculateRiskScore` looks up: the location of the IP, the
      `X-Device-ID` header, whether the device store trusts that device, the
      hour of the day, the transaction-pattern verdict and the IP reputation. */
  datatype RiskInputs = RiskInputs(
    location: string,
    deviceID: string,
    deviceTrusted: bool,
    hour: int,
    unusualPattern: bool,
    highRiskIP: bool)

  predicate UntrustedDevice(i: RiskInputs) { i.deviceID == "" || !i.deviceTrusted }
  predicate UnusualHour(i: RiskInputs) { i.hour < 6 || i.hour > 22 }

  function Points(present: bool, weight: nat): nat { if present then weight else 0 }

  /** The score as a sum: 30 for a high-risk location, 25 for a missing or
      untrusted device, 15 outside 06:00-22:59, 20 for an unusual pattern and
      35 for a high-risk IP. */
  function RiskScore(i: RiskInputs): (score: nat)
    ensures score <= 125
    ensures score > 0 <==> IsHighRiskLocation(i.location) || UntrustedDevice(i) || UnusualHour(i)
                           || i.unusualPattern || i.highRiskIP
  {
    Points(IsHighRiskLocation(i.location), 30) + Points(UntrustedDevice(i), 25) + Points(UnusualHour(i), 15)
      + Points(i.unusualPattern, 20) + Points(i.highRiskIP, 35)
  }

  /** `calculateRiskScore`: `score` grows by each weight whose condition holds. */
  method CalculateRiskScore(i: RiskInputs) returns (score: int)
    ensures score == RiskScore(i)
    ensures 0 <= score <= 125
  {
    score := 0;
    if IsHighRiskLocation(i.location) {
      score := score + 30;
    }
    if i.deviceID == "" || !i.deviceTrusted {
      score := score + 25;
    }
    if i.hour < 6 || i.hour > 22 {
      score := score + 15;
    }
    if i.unusualPattern {
      score := score + 20;
    }
    if i.highRiskIP {
      score := score + 35;
    }
  }

  /** The transaction middleware rejects a score strictly above 80. */
  predicate NeedsManualReview(score: int) {
    score > TransactionRiskLimit
  }

  /** One more risk factor never lowers the score. */
  lemma RiskScoreMonotone(i: RiskInputs, j: RiskInputs)
    requires IsHighRiskLocation(i.location) ==> IsHighRiskLocation(j.location)
    requires UntrustedDevice(i) ==> UntrustedDevice(j)
    requires UnusualHour(i) ==> UnusualHour(j)
    requires i.unusualPattern ==> j.unusualPattern
    requires i.highRiskIP ==> j.highRiskIP
    ensures RiskScore(i) <= RiskScore(j)
  {
  }

  /** With the placeholder location "US" and the placeholder IP reputation
      (never high-risk) the score is at most 25 + 15 + 20 = 60, so the 80 gate
      never fires. */
  lemma PlaceholdersNeverReview(i: RiskInputs)
    requires i.location == PlaceholderLocation && !i.highRiskIP
    ensures RiskScore(i) <= 60
    ensures !NeedsManualReview(RiskScore(i))
  {
    PlaceholderLocationIsSafe();
  }

  // ---------------------------------------------------------------------------
  // Password rules

  /** The rules `validatePasswordStrength` checks, in its order. */
  datatype PasswordIssue = TooShort | NoLowercase | NoUppercase | NoDigit | NoSpecial | TooCommon

  /** The message reported for each failed rule. */
  function IssueMessage(issue: PasswordIssue): string {
    match issue
    case TooShort => "Password must be at least 12 characters long"
    case NoLowercase => "Password must contain at least one lowercase letter"
    case NoUppercase => "Password must contain at least one uppercase letter"
    case NoDigit => "Password must contain at least one number"
    case NoSpecial => "Password must contain at least one special character"
    case TooCommon => "Password is too common"
  }

  const CommonPasswords: seq<string> := ["password", "123456", "password123", "admin", "qwerty"]

  /** The class `[!@#$%^&*()_+\-=\[\]{};':"\\|,.<>\/?]`. */
  const SpecialCharacters: string := "!@#$%^&*()_+-=[]{};':\"\\|,.<>/?"

  predicate HasLowercase(p: string) { exists i :: 0 <= i < |p| && 'a' <= p[i] <= 'z' }
  predicate HasUppercase(p: string) { exists i :: 0 <= i < |p| && 'A' <= p[i] <= 'Z' }
  predicate HasDigit(p: string) { exists i :: 0 <= i < |p| && '0' <= p[i] <= '9' }
  predicate HasSpecial(p: string) { exists i :: 0 <= i < |p| && p[i] in SpecialCharacters }
  predicate IsCommon(p: string) { ToLower(p) in CommonPasswords }

  /** Whether `p` fails the rule. */
  predicate Fails(p: string, issue: PasswordIssue) {
    match issue
    case TooShort => Utf8Len(p) < PasswordMinLength
    case NoLowercase => !HasLowercase(p)
    case NoUppercase => !HasUppercase(p)
    case NoDigit => !HasDigit(p)
    case NoSpecial => !HasSpecial(p)
    case TooCommon => IsCommon(p)
  }

  /** The issue of one rule: nothing when it passes. */
  function Report(fails: bool, issue: PasswordIssue): (r: seq<PasswordIssue>)
    ensures r == [] <==> !fails
  {
    if fails then [issue] else []
  }

  /** The issues reported for the six rule outcomes, in the order the rules
      are checked. */
  function Collect(short: bool, noLower: bool, noUpper: bool, noDigit: bool, noSpecial: bool, common: bool): seq<PasswordIssue> {
    Report(short, TooShort) + Report(noLower, NoLowercase) + Report(noUpper, NoUppercase)
      + Report(noDigit, NoDigit) + Report(noSpecial, NoSpecial) + Report(common, TooCommon)
  }

  /** The issues `validatePasswordStrength` reports: one per failed rule. */
  function PasswordIssues(p: string): seq<PasswordIssue> {
    Collect(Fails(p, TooShort), Fails(p, NoLowercase), Fails(p, NoUppercase),
            Fails(p, NoDigit), Fails(p, NoSpecial), Fails(p, TooCommon))
  }

  /** The position of each rule in the order they are checked. */
  function Rank(issue: PasswordIssue): nat {
    match issue
    case TooShort => 0
    case NoLowercase => 1
    case NoUppercase => 2
    case NoDigit => 3
    case NoSpecial => 4
    case TooCommon => 5
  }

  /** Issues listed in rule order, hence each at most once. */
  predicate InRuleOrder(issues: seq<PasswordIssue>) {
    forall i, j :: 0 <= i < j < |issues| ==> Rank(issues[i]) < Rank(issues[j])
  }

  /** Reporting a later rule keeps the list in rule order and adds only that
      rule's issue. */
  lemma ReportAfter(s: seq<PasswordIssue>, fails: bool, issue: PasswordIssue)
    requires InRuleOrder(s) && forall x :: x in s ==> Rank(x) < Rank(issue)
    ensures InRuleOrder(s + Report(fails, issue))
    ensures forall x :: x in s + Report(fails, issue) ==> Rank(x) <= Rank(issue)
    ensures forall x :: x in s + Report(fails, issue) <==> x in s || (fails && x == issue)
  {
  }

  /** The collected issues are in rule order: none is reported twice. */
  lemma CollectInOrder(short: bool, noLower: bool, noUpper: bool, noDigit: bool, noSpecial: bool, common: bool)
    ensures InRuleOrder(Collect(short, noLower, noUpper, noDigit, noSpecial, common))
  {
    var s1 := Report(short, TooShort);
    ReportAfter([], short, TooShort);
    ReportAfter(s1, noLower, NoLowercase);
    var s2 := s1 + Report(noLower, NoLowercase);
    ReportAfter(s2, noUpper, NoUppercase);
    var s3 := s2 + Report(noUpper, NoUppercase);
    ReportAfter(s3, noDigit, NoDigit);
    var s4 := s3 + Report(noDigit, NoDigit);
    ReportAfter(s4, noSpecial, NoSpecial);
    var s5 := s4 + Report(noSpecial, NoSpecial);
    ReportAfter(s5, common, TooCommon);
  }

  /** An issue is collected exactly when its rule's outcome is a failure. */
  lemma CollectMembers(short: bool, noLower: bool, noUpper: bool, noDigit: bool, noSpecial: bool, common: bool, issue: PasswordIssue)
    ensures issue in Collect(short, noLower, noUpper, noDigit, noSpecial, common) <==>
      match issue
      case TooShort => short
      case NoLowercase => noLower
      case NoUppercase => noUpper
      case NoDigit => noDigit
      case NoSpecial => noSpecial
      case TooCommon => common
  {
    var s1 := Report(short, TooShort);
    var s2 := s1 + Report(noLower, NoLowercase);
    var s3 := s2 + Report(noUpper, NoUppercase);
    var s4 := s3 + Report(noDigit, NoDigit);
    var s5 := s4 + Report(noSpecial, NoSpecial);
    var s6 := s5 + Report(common, TooCommon);
    assert issue in s6 <==> issue in s5 || (common && issue == TooCommon);
    assert issue in s5 <==> issue in s4 || (noSpecial && issue == NoSpecial);
    assert issue in s4 <==> issue in s3 || (noDigit && issue == NoDigit);
    assert issue in s3 <==> issue in s2 || (noUpper && issue == NoUppercase);
    assert issue in s2 <==> issue in s1 || (noLower && issue == NoLowercase);
  }

  /** `validatePasswordStrength`; the common-password loop stops at the first
      match. Each error is carried as its rule; `IssueMessage` gives its text. */
  method ValidatePasswordStrength(password: string) returns (errors: seq<PasswordIssue>)
    ensures errors == PasswordIssues(password)
  {
    errors := [];
    if Utf8Len(password) < PasswordMinLength {
      errors := errors + [TooShort];
    }
    ghost var e1 := errors;
    assert e1 == Report(Fails(password, TooShort), TooShort);
    if !HasLowercase(password) {
      errors := errors + [NoLowercase];
    }
    ghost var e2 := errors;
    assert e2 == e1 + Report(Fails(password, NoLowercase), NoLowercase);
    if !HasUppercase(password) {
      errors := errors + [NoUppercase];
    }
    ghost var e3 := errors;
    assert e3 == e2 + Report(Fails(password, NoUppercase), NoUppercase);
    if !HasDigit(password) {
      errors := errors + [NoDigit];
    }
    ghost var e4 := errors;
    assert e4 == e3 + Report(Fails(password, NoDigit), NoDigit);
    if !HasSpecial(password) {
      errors := errors + [NoSpecial];
    }
    ghost var e5 := errors;
    assert e5 == e4 + Report(Fails(password, NoSpecial), NoSpecial);
    var passwordLower := ToLower(password);
    var i := 0;
    while i < |CommonPasswords|
      invariant 0 <= i <= |CommonPasswords|
      invariant forall k :: 0 <= k < i ==> passwordLower != CommonPasswords[k]
      invariant errors == e5
    {
      if passwordLower == CommonPasswords[i] {
        errors := errors + [TooCommon];
        break;
      }
      i := i + 1;
    }
    assert IsCommon(password) <==> i < |CommonPasswords|;
    assert errors == e5 + Report(Fails(password, TooCommon), TooCommon);
    IssuesInSteps(password);
  }

  /** `PasswordIssues` rule by rule. */
  lemma IssuesInSteps(p: string)
    ensures PasswordIssues(p) == Report(Fails(p, TooShort), TooShort) + Report(Fails(p, NoLowercase), NoLowercase)
      + Report(Fails(p, NoUppercase), NoUppercase) + Report(Fails(p, NoDigit), NoDigit)
      + Report(Fails(p, NoSpecial), NoSpecial) + Report(Fails(p, TooCommon), TooCommon)
  {
  }

  /** A password is accepted exactly when it passes all six rules. */
  lemma PasswordAcceptedIff(p: string)
    ensures PasswordIssues(p) == [] <==>
      Utf8Len(p) >= 12 && HasLowercase(p) && HasUppercase(p) && HasDigit(p) && HasSpecial(p) && !IsCommon(p)
  {
  }

  /** Each rule is reported exactly when it fails, the issues come in rule
      order, so none is reported twice. */
  lemma PasswordIssuesOnce(p: string, issue: PasswordIssue)
    ensures issue in PasswordIssues(p) <==> Fails(p, issue)
    ensures InRuleOrder(PasswordIssues(p))
  {
    CollectMembers(Fails(p, TooShort), Fails(p, NoLowercase), Fails(p, NoUppercase),
                   Fails(p, NoDigit), Fails(p, NoSpecial), Fails(p, TooCommon), issue);
    CollectInOrder(Fails(p, TooShort), Fails(p, NoLowercase), Fails(p, NoUppercase),
                   Fails(p, NoDigit), Fails(p, NoSpecial), Fails(p, TooCommon));
  }

  /** The six messages differ from each other, so a message names its rule. */
  lemma MessagesDistinct(a: PasswordIssue, b: PasswordIssue)
    requires a != b
    ensures IssueMessage(a) != IssueMessage(b)
  {
    if |IssueMessage(a)| == |IssueMessage(b)| {
      assert {a, b} == {NoLowercase, NoUppercase};
      assert IssueMessage(a)[35] != IssueMessage(b)[35];
    }
  }

  /** Every common password is shorter than twelve characters, so a password
      reported as too common is always reported as too short as well. */
  lemma CommonIsShort(p: string)
    requires IsCommon(p)
    ensures TooShort in PasswordIssues(p)
  {
    var lower := ToLower(p);
    assert |lower| <= 11;
    forall i | 0 <= i < |p| ensures p[i] as int < 0x80 {
      assert lower[i] == LowerChar(p[i]);
      assert lower[i] as int < 0x80;
    }
    assert Utf8Len(p) == |p|;
    PasswordIssuesOnce(p, TooShort);
  }

  // ---------------------------------------------------------------------------
  // Real client IP

  /** The headers `getRealIP` consults, in order. */
  const IPHeaders: seq<string> := ["X-Forwarded-For", "X-Real-IP", "X-Client-IP"]

  /** The IP a header value names: the trimmed part before the first comma of a
      list, or the value itself when there is no comma. */
  function Candidate(raw: string): (ip: string)
    ensures !Contains(raw, ",") ==> ip == raw
    ensures Contains(raw, ",") ==> ',' !in ip && |ip| < |raw|
  {
    if Contains(raw, ",") then
      var first := BeforeFirst(raw, ',');
      CommaSplit(raw);
      TrimKeepsAbsent(first, ',');
      GoTrimSpace(first)
    else raw
  }

  lemma CommaSplit(raw: string)
    requires Contains(raw, ",")
    ensures |BeforeFirst(raw, ',')| < |raw|
  {
    var i :| OccursAt(raw, ",", i);
    assert raw[i] == ',';
    assert raw[..|raw|] == raw;
  }

  lemma TrimKeepsAbsent(s: string, c: char)
    requires c !in s
    ensures c !in GoTrimSpace(s) && |GoTrimSpace(s)| <= |s|
  {
    var left := TrimLeft(s, IsGoSpace);
    assert forall x :: x in left ==> x in s;
    var r := TrimRight(left, IsGoSpace);
    assert forall x :: x in r ==> x in left;
  }

  /** `r` is the candidate of the first header, in `names` order, whose value
      is non-empty and whose candidate parses as an IP; None when there is no
      such header. */
  predicate IsFirstUsable(names: seq<string>, header: string -> string, parses: string -> bool, r: Option<string>) {
    (r.Some? ==> exists k :: 0 <= k < |names| && Usable(header(names[k]), parses)
                   && r.value == Candidate(header(names[k]))
                   && forall j :: 0 <= j < k ==> !Usable(header(names[j]), parses))
    && (r.None? ==> forall k :: 0 <= k < |names| ==> !Usable(header(names[k]), parses))
  }

  /** The header `getRealIP` takes its answer from. */
  function FirstParsable(names: seq<string>, header: string -> string, parses: string -> bool): (r: Option<string>)
    ensures IsFirstUsable(names, header, parses, r)
  {
    if names == [] then None
    else if Usable(header(names[0]), parses) then
      assert IsFirstUsable(names, header, parses, Some(Candidate(header(names[0])))) by {
        assert 0 < |names| && Usable(header(names[0]), parses);
      }
      Some(Candidate(header(names[0])))
    else
      var r := FirstParsable(names[1..], header, parses);
      FirstUsableAfterSkip(names, header, parses, r);
      r
  }

  /** Skipping an unusable first header keeps the answer of the rest. */
  lemma FirstUsableAfterSkip(names: seq<string>, header: string -> string, parses: string -> bool, r: Option<string>)
    requires names != [] && !Usable(header(names[0]), parses)
    requires IsFirstUsable(names[1..], header, parses, r)
    ensures IsFirstUsable(names, header, parses, r)
  {
    assert forall k :: 1 <= k < |names| ==> names[k] == names[1..][k - 1];
    if r.Some? {
      var k :| 0 <= k < |names[1..]| && Usable(header(names[1..][k]), parses)
               && r.value == Candidate(header(names[1..][k]))
               && forall j :: 0 <= j < k ==> !Usable(header(names[1..][j]), parses);
      assert forall j :: 0 <= j < k + 1 ==> !Usable(header(names[j]), parses);
      assert Usable(header(names[k + 1]), parses) && r.value == Candidate(header(names[k + 1]));
    }
  }

  /** A header value that `getRealIP` accepts. */
  predicate Usable(raw: string, parses: string -> bool) {
    raw != "" && parses(Candidate(raw))
  }

  /** `getRealIP`: the headers in order, the first usable one wins, otherwise
      the address gin derives from the connection. */
  method GetRealIP(header: string -> string, parses: string -> bool, clientIP: string) returns (ip: string)
    ensures FirstParsable(IPHeaders, header, parses).Some? ==> ip == FirstParsable(IPHeaders, header, parses).value
    ensures FirstParsable(IPHeaders, header, parses).None? ==> ip == clientIP
  {
    for i := 0 to |IPHeaders|
      invariant FirstParsable(IPHeaders, header, parses) == FirstParsable(IPHeaders[i..], header, parses)
    {
      var raw := header(IPHeaders[i]);
      if raw != "" {
        var candidate := raw;
        if Contains(candidate, ",") {
          candidate := GoTrimSpace(BeforeFirst(candidate, ','));
        }
        if parses(candidate) {
          ip := candidate;
          return;
        }
      }
      assert IPHeaders[i..][1..] == IPHeaders[i + 1..];
    }
    ip := clientIP;
  }

  // ---------------------------------------------------------------------------
  // The service's two tables

  /** What the rate-limit middleware does with a request. */
  datatype RateVerdict = Pass | IPBlocked | RateLimited

  /** The IP is on the block list and its block has not run out. */
  predicate IsBlocked(blocked: map<string, int>, ip: string, now: int) {
    ip in blocked && now < blocked[ip]
  }

  /** The block list and verdict after one request from `ip` at `now`, where
      `allow` is the answer of the IP's token bucket: a live block rejects and
      changes nothing; an expired one is deleted; then a refusal by the limiter
      blocks the IP for the lockout and rejects. */
  function RateLimitStep(blocked: map<string, int>, ip: string, now: int, allow: bool): (r: (map<string, int>, RateVerdict))
    ensures r.1 == IPBlocked <==> IsBlocked(blocked, ip, now)
    ensures r.1 == RateLimited <==> !IsBlocked(blocked, ip, now) && !allow
    ensures r.1 == IPBlocked ==> r.0 == blocked
    ensures r.1 == RateLimited ==> r.0 == blocked[ip := now + LockoutSeconds]
    ensures r.1 == Pass ==> r.0 == blocked - {ip}
    ensures forall other :: other != ip ==> (other in r.0 <==> other in blocked) && (other in blocked ==> r.0[other] == blocked[other])
  {
    if IsBlocked(blocked, ip, now) then (blocked, IPBlocked)
    else
      var cleared := blocked - {ip};
      if !allow then (cleared[ip := now + LockoutSeconds], RateLimited)
      else (cleared, Pass)
  }

  /** A refused request keeps the IP out for the next 15 minutes, whatever its
      limiter would say then. */
  lemma LockoutHolds(blocked: map<string, int>, ip: string, now: int, later: int, allow: bool)
    requires RateLimitStep(blocked, ip, now, false).1 == RateLimited
    requires now <= later < now + LockoutSeconds
    ensures RateLimitStep(RateLimitStep(blocked, ip, now, false).0, ip, later, allow).1 == IPBlocked
  {
  }

  /** The per-key list pruned to the requests younger than the window, in order. */
  function Recent(attempts: seq<int>, now: int): (r: seq<int>)
    ensures |r| <= |attempts|
    ensures forall t :: t in r <==> t in attempts && now - t < AttemptWindowSeconds
    ensures forall t :: multiset(r)[t] == if now - t < AttemptWindowSeconds then multiset(attempts)[t] else 0
    ensures Subsequence(r, attempts)
  {
    if attempts == [] then []
    else
      var init := attempts[..|attempts| - 1];
      var last := attempts[|attempts| - 1];
      assert attempts == init + [last];
      var keep := now - last < AttemptWindowSeconds;
      SubsequenceSnoc(Recent(init, now), init, last, keep);
      Recent(init, now) + (if keep then [last] else [])
  }

  /** The pruning loop of `detectSuspiciousBehavior`: the attempts younger
      than the window, in order and with their repeats. */
  method PruneAttempts(attempts: seq<int>, now: int) returns (recentAttempts: seq<int>)
    ensures recentAttempts == Recent(attempts, now)
  {
    recentAttempts := [];
    for i := 0 to |attempts|
      invariant recentAttempts == Recent(attempts[..i], now)
    {
      if now - attempts[i] < AttemptWindowSeconds {
        recentAttempts := recentAttempts + [attempts[i]];
      }
      assert attempts[..i + 1][..i] == attempts[..i];
    }
    assert attempts[..|attempts|] == attempts;
  }

  /** `fmt.Sprintf("%d_%s", userID, ip)`. */
  function AttemptKey(userID: int, ip: string): string {
    IntToString(userID) + "_" + ip
  }

  /** The key already has more than ten requests in the window. */
  predicate TooManyAttempts(attempts: map<string, seq<int>>, key: string, now: int) {
    key in attempts && |Recent(attempts[key], now)| > MaxRecentAttempts
  }

  /** The request window after one request: a new key gets [now]; an existing
      key gets its pruned list plus now, unless the pruned list is already too
      long, in which case nothing is written. Other keys keep their lists. */
  function RecordAttempt(attempts: map<string, seq<int>>, key: string, now: int): (r: map<string, seq<int>>)
    ensures key in r && r.Keys == attempts.Keys + {key}
    ensures forall k :: k in attempts && k != key ==> r[k] == attempts[k]
    ensures TooManyAttempts(attempts, key, now) ==> r == attempts
    ensures key !in attempts ==> r[key] == [now]
    ensures key in attempts && !TooManyAttempts(attempts, key, now) ==> r[key] == Recent(attempts[key], now) + [now]
    ensures !TooManyAttempts(attempts, key, now) ==>
      1 <= |r[key]| <= MaxRecentAttempts + 1 && r[key][|r[key]| - 1] == now
      && forall t :: t in r[key] ==> now - t < AttemptWindowSeconds
  {
    if key in attempts then
      var recent := Recent(attempts[key], now);
      if |recent| > MaxRecentAttempts then attempts
      else attempts[key := recent + [now]]
    else attempts[key := [now]]
  }

  /** No key holds more than eleven requests. */
  ghost predicate AttemptsBounded(attempts: map<string, seq<int>>) {
    forall k :: k in attempts ==> |attempts[k]| <= MaxRecentAttempts + 1
  }

  lemma RecordAttemptBounded(attempts: map<string, seq<int>>, key: string, now: int)
    requires AttemptsBounded(attempts)
    ensures AttemptsBounded(RecordAttempt(attempts, key, now))
  {
  }

  const SuspiciousAgents: seq<string> := ["bot", "crawler", "spider", "scraper"]

  /** The lower-cased user agent names a bot, crawler, spider or scraper. */
  predicate SuspiciousAgent(userAgent: string) {
    ContainsAny(ToLower(userAgent), SuspiciousAgents)
  }

  class SecurityService {
    /** IP -> the time its block ends. */
    var blockedIPs: map<string, int>
    /** "userID_ip" -> the times of that user's recent requests from that IP. */
    var loginAttempts: map<string, seq<int>>

    ghost predicate Valid()
      reads this
    {
      AttemptsBounded(loginAttempts)
    }

    constructor()
      ensures Valid() && blockedIPs == map[] && loginAttempts == map[]
    {
      blockedIPs := map[];
      loginAttempts := map[];
    }

    /** `advancedRateLimitMiddleware` for one request. */
    method RateLimit(ip: string, now: int, allow: bool) returns (verdict: RateVerdict)
      modifies this`blockedIPs
      ensures (blockedIPs, verdict) == RateLimitStep(old(blockedIPs), ip, now, allow)
    {
      if ip in blockedIPs {
        if now < blockedIPs[ip] {
          verdict := IPBlocked;
          return;
        } else {
          blockedIPs := blockedIPs - {ip};
        }
      } else {
        assert blockedIPs == blockedIPs - {ip};
      }
      if !allow {
        blockedIPs := blockedIPs[ip := now + LockoutSeconds];
        verdict := RateLimited;
        return;
      }
      verdict := Pass;
    }

    /** `detectSuspiciousBehavior`: record the request in the window (or find
        the window already full), then look at the user agent. */
    method DetectSuspiciousBehavior(userID: int, ip: string, userAgent: string, now: int) returns (suspicious: bool)
      requires Valid()
      modifies this`loginAttempts
      ensures Valid()
      ensures loginAttempts == RecordAttempt(old(loginAttempts), AttemptKey(userID, ip), now)
      ensures suspicious <==> TooManyAttempts(old(loginAttempts), AttemptKey(userID, ip), now) || SuspiciousAgent(userAgent)
    {
      var key := AttemptKey(userID, ip);
      RecordAttemptBounded(loginAttempts, key, now);
      if key in loginAttempts {
        var recentAttempts := PruneAttempts(loginAttempts[key], now);
        if |recentAttempts| > MaxRecentAttempts {
          return true;
        }
        loginAttempts := loginAttempts[key := recentAttempts + [now]];
      } else {
        loginAttempts := loginAttempts[key := [now]];
      }
      var userAgentLower := ToLower(userAgent);
      for i := 0 to |SuspiciousAgents|
        invariant forall k :: 0 <= k < i ==> !Contains(userAgentLower, SuspiciousAgents[k])
      {
        if Contains(userAgentLower, SuspiciousAgents[i]) {
          return true;
        }
      }
      return false;
    }
  }
}
