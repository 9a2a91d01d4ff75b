/**
 * `ModerationEngine` of chat_moderation_system.py: one call of
 * `moderate_message` runs the regex analysis, the classifier, the combiner and
 * the final decision, records the message in the database, and keeps the
 * engine's own counters. `batch_moderate` runs it over a list and
 * `get_statistics` reports the counters.
 *
 * `Step` states what one call does to the whole state (database tables and
 * engine counters); the `Engine` class does it step by step and is proved to
 * agree with `Step`. An exception inside the `try` block is an explicit
 * `Fault` naming the stage that raised; the elapsed time the source measures
 * with `time.time()` is a parameter.
 */
module ModerationEngine {
  import opened Wrappers
  import opened ModerationConfig
  import opened RegexDetector
  import opened MLDetector
  import opened ModerationDatabase
  import opened ModerationDecision
  import opened StringUtil
  import opened Normalizer

  /** The regex detector as the engine sees it: the analysis of a message. */
  type Analyzer = string -> RiskAnalysis

  /** The engine's regex detector over a given regex engine. */
  function RegexAnalyzer(m: Matcher): (analyze: Analyzer)
    ensures forall message :: analyze(message) == Analysis(m, message)
  {
    message => Analysis(m, message)
  }

  /** The statement of the `try` block that raises. */
  datatype Stage =
    | Screening    // analyze_message_risk
    | Classifying  // predict_violation
    | Assessing    // the user-statistics read in _combine_detection_results
    | Recording    // the database write of step 5

  datatype Fault = NoFault | FailAt(stage: Stage, error: string)

  predicate FailsAt(fault: Fault, stage: Stage) {
    fault.FailAt? && fault.stage == stage
  }

  /** `result['details']`; a part that was never reached stays absent. */
  datatype Details = Details(
    regexResults: Option<RiskAnalysis>,
    mlResults: Option<MLResult>,
    combinedAnalysis: Option<Combined>,
    error: Option<string>,
    processingTime: real)

  /** The dictionary `moderate_message` returns (its timestamp is not modelled);
      the warning message is carried as its key in `WARNING_MESSAGES`. */
  datatype ModerationResult = ModerationResult(
    message: string,
    userId: string,
    isFlagged: bool,
    action: Action,
    confidence: real,
    violationType: Option<string>,
    warning: Option<WarningKey>,
    details: Details)

  /** The result as initialised before the `try` block. */
  function Initial(message: string, user: string): ModerationResult {
    ModerationResult(message, user, false, Allow, 0.0, None, None, Details(None, None, None, None, 0.0))
  }

  /** The `except` branch: fail open, record the error, keep everything merged so far. */
  function FailOpen(r: ModerationResult, error: string): ModerationResult {
    r.(action := Allow, details := r.details.(error := Some(error)))
  }

  /** `result.update(final_decision)`. */
  function Merge(r: ModerationResult, d: Decision): ModerationResult {
    r.(isFlagged := d.isFlagged, action := d.action, confidence := d.confidence,
       violationType := d.violationType, warning := d.warning)
  }

  /** Everything one call can change: the two tables and the engine's counters. */
  datatype EngineState = EngineState(
    userStats: map<string, UserStats>,
    flaggedRows: seq<FlaggedRecord>,
    totalMessages: nat,
    flaggedMessages: nat,
    falsePositives: nat,
    processingTimes: seq<real>)

  /** The engine's counters agree with the ledger it writes: no more flagged than
      total messages, one flagged row per flagged message, no false positives
      (nothing ever counts one), and a consistent `user_stats` table. */
  ghost predicate Coherent(s: EngineState) {
    && Consistent(s.userStats)
    && IdsInOrder(s.flaggedRows)
    && s.flaggedMessages <= s.totalMessages
    && s.flaggedMessages == |s.flaggedRows|
    && s.falsePositives == 0
  }

  /** The row `_log_flagged_message` writes for a merged result. */
  function RowFor(s: EngineState, r: ModerationResult, c: Combined): FlaggedRecord {
    NewRecord(|s.flaggedRows| + 1, r.userId, r.message, StoredType(r.violationType), r.confidence,
              DetectionMethod(c.evidence), EvidencePatterns(c.evidence))
  }

  /** Step 5 and the counter update, after a decision was merged into `r`. */
  function Record(s: EngineState, r: ModerationResult, c: Combined): EngineState {
    if r.isFlagged then
      s.(userStats := Bumped(s.userStats, r.userId, true),
         flaggedRows := s.flaggedRows + [RowFor(s, r, c)],
         totalMessages := s.totalMessages + 1,
         flaggedMessages := s.flaggedMessages + 1)
    else
      s.(userStats := Bumped(s.userStats, r.userId, false),
         totalMessages := s.totalMessages + 1)
  }

  /** The combined analysis of a message and the result once the final
      decision has been merged into it, before anything is written. */
  function Decided(s: EngineState, analyze: Analyzer, model: ModelState, message: string, user: string)
    : (ModerationResult, Combined)
  {
    var regex := analyze(message);
    var ml := PredictViolation(model, message);
    var c := Combine(regex, ml, ModelTrained(model), StatsOf(s.userStats, user).riskScore);
    var r0 := Initial(message, user);
    (Merge(r0.(details := r0.details.(regexResults := Some(regex), mlResults := Some(ml), combinedAnalysis := Some(c))),
           MakeFinalDecision(c)), c)
  }

  /** The body of the `try` block: the state and result just before the `except`
      branch and the timing code. A stage that raises leaves the details the
      earlier stages stored. */
  function Attempt(s: EngineState, analyze: Analyzer, model: ModelState, message: string, user: string, fault: Fault)
    : (EngineState, ModerationResult)
  {
    var r0 := Initial(message, user);
    if FailsAt(fault, Screening) then (s, FailOpen(r0, fault.error))
    else if FailsAt(fault, Classifying) then
      (s, FailOpen(r0.(details := r0.details.(regexResults := Some(analyze(message)))), fault.error))
    else if FailsAt(fault, Assessing) then
      (s, FailOpen(r0.(details := r0.details.(regexResults := Some(analyze(message)),
                                               mlResults := Some(PredictViolation(model, message)))), fault.error))
    else
      var (r3, c) := Decided(s, analyze, model, message, user);
      if FailsAt(fault, Recording) then (s, FailOpen(r3, fault.error))
      else (Record(s, r3, c), r3)
  }

  /** Once the verdict is reached, the attempt either raises at the write or
      records the verdict. */
  lemma AttemptAfterDecided(s: EngineState, analyze: Analyzer, model: ModelState, message: string, user: string, fault: Fault,
                            r: ModerationResult, c: Combined)
    requires !(FailsAt(fault, Screening) || FailsAt(fault, Classifying) || FailsAt(fault, Assessing))
    requires (r, c) == Decided(s, analyze, model, message, user)
    ensures FailsAt(fault, Recording) ==> Attempt(s, analyze, model, message, user, fault) == (s, FailOpen(r, fault.error))
    ensures !FailsAt(fault, Recording) ==> Attempt(s, analyze, model, message, user, fault) == (Record(s, r, c), r)
  {
  }

  /** One call of `moderate_message`: the attempt, then the processing time is
      stored in the result and appended to the engine's list whatever happened. */
  function Step(s: EngineState, analyze: Analyzer, model: ModelState, message: string, user: string, fault: Fault, elapsed: real)
    : (EngineState, ModerationResult)
  {
    var (s1, r1) := Attempt(s, analyze, model, message, user, fault);
    (s1.(processingTimes := s1.processingTimes + [elapsed]), r1.(details := r1.details.(processingTime := elapsed)))
  }

  /** The verdict one message gets, from the state before the call. */
  function CombinedFor(s: EngineState, analyze: Analyzer, model: ModelState, message: string, user: string): Combined {
    Combine(analyze(message), PredictViolation(model, message), ModelTrained(model), StatsOf(s.userStats, user).riskScore)
  }

  /** A call that succeeds: the sender's risk is read before the message is
      counted; the result is flagged exactly when some detector fired and carries
      the final decision; a flagged message gets a row and a flagged count, any
      other message is counted as safe; the engine counts one more message, one
      more flag when flagged, and one more processing time. */
  lemma StepSucceeds(s: EngineState, analyze: Analyzer, model: ModelState, message: string, user: string, elapsed: real)
    ensures var (s', r) := Step(s, analyze, model, message, user, NoFault, elapsed);
      var c := CombinedFor(s, analyze, model, message, user);
      && r.message == message && r.userId == user
      && (r.isFlagged <==> analyze(message).hasViolation || analyze(message).hasBypass || PredictViolation(model, message).isViolation)
      && r.action == MakeFinalDecision(c).action
      && r.confidence == c.confidence
      && r.violationType == c.violationType
      && r.warning == MakeFinalDecision(c).warning
      && r.details.combinedAnalysis == Some(c)
      && r.details.error.None?
      && s'.userStats == Bumped(s.userStats, user, r.isFlagged)
      && s'.flaggedRows == s.flaggedRows + (if r.isFlagged then [RowFor(s, r, c)] else [])
      && s'.totalMessages == s.totalMessages + 1
      && s'.flaggedMessages == s.flaggedMessages + (if r.isFlagged then 1 else 0)
      && s'.processingTimes == s.processingTimes + [elapsed]
  {
    var (r3, c) := Decided(s, analyze, model, message, user);
    assert c == CombinedFor(s, analyze, model, message, user);
    assert Attempt(s, analyze, model, message, user, NoFault) == (Record(s, r3, c), r3);
    var r := r3.(details := r3.details.(processingTime := elapsed));
    assert Step(s, analyze, model, message, user, NoFault, elapsed) == (Record(s, r3, c).(processingTimes := s.processingTimes + [elapsed]), r);
    assert RowFor(s, r, c) == RowFor(s, r3, c);
  }

  /** A call that raises: nothing is written and no counter moves except the
      processing times; the action is allow and the error is recorded. When the
      write itself raised, the merged decision stays in the result, so a message
      can come back flagged and allowed. Before the decision the result is the
      initial one. */
  lemma StepFails(s: EngineState, analyze: Analyzer, model: ModelState, message: string, user: string, stage: Stage, error: string, elapsed: real)
    ensures var (s', r) := Step(s, analyze, model, message, user, FailAt(stage, error), elapsed);
      && s' == s.(processingTimes := s.processingTimes + [elapsed])
      && r.action == Allow
      && r.details.error == Some(error)
      && r.details.processingTime == elapsed
      && (stage == Recording ==>
            r.isFlagged == CombinedFor(s, analyze, model, message, user).hasViolation
            && r.confidence == CombinedFor(s, analyze, model, message, user).confidence)
      && (stage != Recording ==> !r.isFlagged && r.confidence == 0.0 && r.violationType.None?)
  {
  }

  /** A successful call blocks exactly the flagged messages whose confidence is at least 0.7. */
  lemma StepBlocksIff(s: EngineState, analyze: Analyzer, model: ModelState, message: string, user: string, elapsed: real)
    ensures var r := Step(s, analyze, model, message, user, NoFault, elapsed).1;
      r.action == Block <==> r.isFlagged && r.confidence >= 0.7
  {
    BlockIffStrongViolation(CombinedFor(s, analyze, model, message, user));
  }

  /** Every call keeps the state coherent. */
  lemma StepCoherent(s: EngineState, analyze: Analyzer, model: ModelState, message: string, user: string, fault: Fault, elapsed: real)
    requires Coherent(s)
    ensures Coherent(Step(s, analyze, model, message, user, fault, elapsed).0)
  {
    var s1 := Attempt(s, analyze, model, message, user, fault).0;
    if fault.FailAt? {
      assert s1 == s;
    } else {
      var (r3, c) := Decided(s, analyze, model, message, user);
      assert s1 == Record(s, r3, c);
      RecordCoherent(s, r3, c);
    }
    assert Step(s, analyze, model, message, user, fault, elapsed).0 == s1.(processingTimes := s1.processingTimes + [elapsed]);
  }

  /** Recording a merged result keeps the state coherent. */
  lemma RecordCoherent(s: EngineState, r: ModerationResult, c: Combined)
    requires Coherent(s)
    ensures Coherent(Record(s, r, c))
  {
    BumpedConsistent(s.userStats, r.userId, r.isFlagged);
  }

  /** `batch_moderate`: the messages in order, each call seeing the state the
      previous one left. */
  function Batch(s: EngineState, analyze: Analyzer, model: ModelState, messages: seq<(string, string)>, faults: seq<Fault>, elapsed: seq<real>)
    : (EngineState, seq<ModerationResult>)
    requires |faults| == |messages| && |elapsed| == |messages|
  {
    if messages == [] then (s, [])
    else
      var n := |messages| - 1;
      var (s1, rs) := Batch(s, analyze, model, messages[..n], faults[..n], elapsed[..n]);
      var (s2, r) := Step(s1, analyze, model, messages[n].0, messages[n].1, faults[n], elapsed[n]);
      (s2, rs + [r])
  }

  /** One more message in the batch is one more call on the state the prefix left. */
  lemma BatchPrefixStep(s: EngineState, analyze: Analyzer, model: ModelState, messages: seq<(string, string)>, faults: seq<Fault>, elapsed: seq<real>, i: nat)
    requires |faults| == |messages| && |elapsed| == |messages| && i < |messages|
    ensures var (s1, rs) := Batch(s, analyze, model, messages[..i], faults[..i], elapsed[..i]);
      var (s2, r) := Step(s1, analyze, model, messages[i].0, messages[i].1, faults[i], elapsed[i]);
      Batch(s, analyze, model, messages[..i + 1], faults[..i + 1], elapsed[..i + 1]) == (s2, rs + [r])
  {
    assert messages[..i + 1][..i] == messages[..i];
    assert faults[..i + 1][..i] == faults[..i];
    assert elapsed[..i + 1][..i] == elapsed[..i];
  }

  /** The results come back one per message, in input order. */
  lemma {:induction false} BatchInOrder(s: EngineState, analyze: Analyzer, model: ModelState, messages: seq<(string, string)>, faults: seq<Fault>, elapsed: seq<real>)
    requires |faults| == |messages| && |elapsed| == |messages|
    ensures var rs := Batch(s, analyze, model, messages, faults, elapsed).1;
      |rs| == |messages| && forall i :: 0 <= i < |rs| ==> rs[i].message == messages[i].0 && rs[i].userId == messages[i].1
    decreases |messages|
  {
    if messages != [] {
      var n := |messages| - 1;
      BatchInOrder(s, analyze, model, messages[..n], faults[..n], elapsed[..n]);
      var (s1, rs) := Batch(s, analyze, model, messages[..n], faults[..n], elapsed[..n]);
      var r := Step(s1, analyze, model, messages[n].0, messages[n].1, faults[n], elapsed[n]).1;
      StepKeepsSender(s1, analyze, model, messages[n].0, messages[n].1, faults[n], elapsed[n]);
      assert Batch(s, analyze, model, messages, faults, elapsed).1 == rs + [r];
      forall i | 0 <= i < n ensures rs[i].message == messages[i].0 && rs[i].userId == messages[i].1 {
        assert messages[..n][i] == messages[i];
      }
    }
  }

  /** A call answers for the message and sender it was given, whatever happened. */
  lemma StepKeepsSender(s: EngineState, analyze: Analyzer, model: ModelState, message: string, user: string, fault: Fault, elapsed: real)
    ensures var r := Step(s, analyze, model, message, user, fault, elapsed).1;
      r.message == message && r.userId == user
  {
    if !(FailsAt(fault, Screening) || FailsAt(fault, Classifying) || FailsAt(fault, Assessing)) {
      var (r3, c) := Decided(s, analyze, model, message, user);
      assert r3.message == message && r3.userId == user;
      AttemptAfterDecided(s, analyze, model, message, user, fault, r3, c);
    }
  }

  /** The batch keeps the state coherent. */
  lemma {:induction false} BatchCoherent(s: EngineState, analyze: Analyzer, model: ModelState, messages: seq<(string, string)>, faults: seq<Fault>, elapsed: seq<real>)
    requires |faults| == |messages| && |elapsed| == |messages|
    requires Coherent(s)
    ensures Coherent(Batch(s, analyze, model, messages, faults, elapsed).0)
    decreases |messages|
  {
    if messages != [] {
      var n := |messages| - 1;
      BatchCoherent(s, analyze, model, messages[..n], faults[..n], elapsed[..n]);
      var s1 := Batch(s, analyze, model, messages[..n], faults[..n], elapsed[..n]).0;
      StepCoherent(s1, analyze, model, messages[n].0, messages[n].1, faults[n], elapsed[n]);
    }
  }

  /** The message of the source's worked example. */
  const ContactExample: string := "Contact me at john.doe@gmail.com"

  /** The worked example for a sender with no history and a classifier that is
      not trained. Normalisation turns the address into "j0hn.d0e@gmai1.c0m",
      which none of the category regexes matches (the top-level domain "c0m" is
      not letters, "gmai1" is not "gmail"); the first bypass rule,
      `contact_bypass`, matches the lower-cased text. So only the bypass fires:
      0.8 lowered by the clean-history factor 0.9 gives 0.72, a high risk and a
      block with the general warning, and the stored row has type 'unknown',
      detection method 'regex_bypass' and the bypass matches as its patterns. */
  lemma ContactExampleOutcome(s: EngineState, m: Matcher, model: ModelState, elapsed: real)
    requires "user5" !in s.userStats
    requires !model.Trained?
    requires forall c :: c in Categories ==> !Hits(m, c, Normalize(ContactExample))
    requires m.findall(BypassRules[0].0, ToLower(ContactExample)) != []
    ensures var r := Step(s, RegexAnalyzer(m), model, ContactExample, "user5", NoFault, elapsed).1;
      && r.isFlagged && r.action == Block
      && r.confidence == 0.72 && r.violationType.None?
      && r.warning == Some(General)
      && r.details.combinedAnalysis.Some? && r.details.combinedAnalysis.value.riskLevel == High
  {
    StepSucceeds(s, RegexAnalyzer(m), model, ContactExample, "user5", elapsed);
    ContactExampleVerdict(s, m, model);
  }

  /** What the worked example leaves in the tables: a row typed 'unknown' with
      detection method 'regex_bypass' and the bypass matches as its patterns,
      and a first `user_stats` row for the sender with one flagged message. */
  lemma ContactExampleRecorded(s: EngineState, m: Matcher, model: ModelState, elapsed: real)
    requires "user5" !in s.userStats
    requires !model.Trained?
    requires forall c :: c in Categories ==> !Hits(m, c, Normalize(ContactExample))
    requires m.findall(BypassRules[0].0, ToLower(ContactExample)) != []
    ensures var s' := Step(s, RegexAnalyzer(m), model, ContactExample, "user5", NoFault, elapsed).0;
      && s'.flaggedRows == s.flaggedRows + [FlaggedRecord(|s.flaggedRows| + 1, "user5", ContactExample, "unknown", 0.72,
                                                         {"regex_bypass"}, Some(m.findall(BypassRules[0].0, ToLower(ContactExample))))]
      && StatsOf(s'.userStats, "user5") == UserStats(1, 1, 0, 1.0)
  {
    var analyze := RegexAnalyzer(m);
    var c := CombinedFor(s, analyze, model, ContactExample, "user5");
    var r := Step(s, analyze, model, ContactExample, "user5", NoFault, elapsed).1;
    var ms := m.findall(BypassRules[0].0, ToLower(ContactExample));
    StepSucceeds(s, analyze, model, ContactExample, "user5", elapsed);
    ContactExampleVerdict(s, m, model);
    assert r.isFlagged && r.violationType.None? && r.confidence == 0.72;
    assert RowFor(s, r, c) == FlaggedRecord(|s.flaggedRows| + 1, "user5", ContactExample, "unknown", 0.72, {"regex_bypass"}, Some(ms));
    FreshUserFlagged(s.userStats, "user5");
  }

  /** The combined analysis of the worked example: one piece of evidence, from
      the bypass rules, and the decision it leads to. */
  lemma ContactExampleVerdict(s: EngineState, m: Matcher, model: ModelState)
    requires "user5" !in s.userStats
    requires !model.Trained?
    requires forall c :: c in Categories ==> !Hits(m, c, Normalize(ContactExample))
    requires m.findall(BypassRules[0].0, ToLower(ContactExample)) != []
    ensures var c := CombinedFor(s, RegexAnalyzer(m), model, ContactExample, "user5");
      && c.hasViolation && c.violationType.None?
      && c.confidence == 0.72 && c.riskLevel == High
      && EvidencePatterns(c.evidence) == m.findall(BypassRules[0].0, ToLower(ContactExample))
      && DetectionMethod(c.evidence) == {"regex_bypass"}
      && MakeFinalDecision(c).action == Block
      && MakeFinalDecision(c).warning == Some(General)
  {
    var regex := RegexAnalyzer(m)(ContactExample);
    ContactExampleAnalysis(m);
    var ml := PredictViolation(model, ContactExample);
    assert StatsOf(s.userStats, "user5").riskScore == 0.0;
    BypassOnlyVerdict(regex, ml, ModelTrained(model));
  }

  /** The regex analysis of the worked example: no category hits, so only the
      first bypass rule, `contact_bypass`, is reported, with its matches. */
  lemma ContactExampleAnalysis(m: Matcher)
    requires forall c :: c in Categories ==> !Hits(m, c, Normalize(ContactExample))
    requires m.findall(BypassRules[0].0, ToLower(ContactExample)) != []
    ensures var a := Analysis(m, ContactExample);
      && a.hasBypass && !a.hasViolation && a.bypass.confidence == 0.8
      && a.bypass.bypassType == Some("contact_bypass")
      && a.bypass.matchedPatterns == m.findall(BypassRules[0].0, ToLower(ContactExample))
  {
    ViolationsCharacterised(m, ContactExample);
    assert !Violations(m, ContactExample).isViolation;
    assert FirstRule(m, BypassRules, ToLower(ContactExample)) == Some(0);
  }

  /** A bypass alone, from a sender with no recorded risk and with a classifier
      that finds nothing: the bypass rules give the only evidence, its 0.8 is
      lowered by the clean-history factor 0.9 to 0.72, a high risk, and the
      message is blocked with the general warning. */
  lemma BypassOnlyVerdict(regex: RiskAnalysis, ml: MLResult, trained: bool)
    requires regex.hasBypass && !regex.hasViolation && regex.bypass.confidence == 0.8
    requires !ml.isViolation
    ensures var c := Combine(regex, ml, trained, 0.0);
      && c.hasViolation && c.violationType.None?
      && c.confidence == 0.72 && c.riskLevel == High
      && EvidencePatterns(c.evidence) == regex.bypass.matchedPatterns
      && DetectionMethod(c.evidence) == {"regex_bypass"}
      && MakeFinalDecision(c).action == Block
      && MakeFinalDecision(c).warning == Some(General)
  {
    var b := regex.bypass;
    var evidence := EvidenceOf(regex, ml, trained);
    assert evidence == [Evidence(BypassSource, b.bypassType, 0.8, Some(b.matchedPatterns))];
    assert Strongest(evidence) == 0.8 by {
      assert evidence[..0] == [];
    }
    assert EvidencePatterns(evidence) == b.matchedPatterns by {
      assert evidence[..0] == [];
    }
    assert DetectionMethod(evidence) == {"regex_bypass"};
    var c := Combine(regex, ml, trained, 0.0);
    assert c.evidence == evidence && c.confidence == 0.72 && c.riskLevel == High;
  }

  /** The first message of a user with no row creates the row (1, 1, 0, 1.0) when flagged. */
  lemma FreshUserFlagged(stats: map<string, UserStats>, user: string)
    requires user !in stats
    ensures StatsOf(Bumped(stats, user, true), user) == UserStats(1, 1, 0, 1.0)
  {
    var row := Bumped(stats, user, true)[user];
    assert row.totalMessages == 1 && row.flaggedMessages == 1 && row.falsePositives == 0;
    assert row.riskScore == 1 as real / 1 as real;
  }

  /** The counter part of `get_statistics`. */
  datatype Statistics = Statistics(
    totalMessages: nat,
    flaggedMessages: nat,
    falsePositives: nat,
    processingTimes: seq<real>,
    flaggedRate: real,
    falsePositiveRate: real)

  /** The rates are 0 when their denominator is. */
  function StatisticsOf(s: EngineState): (st: Statistics)
    ensures st.totalMessages == s.totalMessages && st.flaggedMessages == s.flaggedMessages
    ensures s.totalMessages == 0 ==> st.flaggedRate == 0.0
    ensures s.totalMessages > 0 ==> st.flaggedRate * s.totalMessages as real == s.flaggedMessages as real
    ensures s.flaggedMessages == 0 ==> st.falsePositiveRate == 0.0
    ensures Coherent(s) ==> 0.0 <= st.flaggedRate <= 1.0 && st.falsePositiveRate == 0.0
  {
    var flaggedRate := if s.totalMessages > 0 then s.flaggedMessages as real / s.totalMessages as real else 0.0;
    var fpRate := if s.totalMessages > 0 && s.flaggedMessages > 0 then s.falsePositives as real / s.flaggedMessages as real else 0.0;
    RateFacts(s);
    Statistics(s.totalMessages, s.flaggedMessages, s.falsePositives, s.processingTimes, flaggedRate, fpRate)
  }

  lemma RateFacts(s: EngineState)
    ensures Coherent(s) && s.totalMessages > 0 ==>
      0.0 <= s.flaggedMessages as real / s.totalMessages as real <= 1.0
  {
    if Coherent(s) && s.totalMessages > 0 {
      FractionInUnitInterval(s.flaggedMessages, s.totalMessages);
    }
  }

  class Engine {
    const db: Database
    const ml: Detector
    /** `self.regex_detector.analyze_message_risk`. */
    const regexDetector: Analyzer
    var totalMessages: nat
    var flaggedMessages: nat
    var falsePositives: nat
    var processingTimes: seq<real>

    ghost function State(): EngineState
      reads this, db
    {
      EngineState(db.userStats, db.flaggedMessages, totalMessages, flaggedMessages, falsePositives, processingTimes)
    }

    ghost predicate Valid()
      reads this, db
    {
      db.Valid() && Coherent(State())
    }

    /** A fresh engine over empty tables, with the classifier in the given state. */
    constructor(matcher: Matcher, loaded: ModelState)
      ensures Valid() && fresh(db) && fresh(ml)
      ensures State() == EngineState(map[], [], 0, 0, 0, [])
      ensures ml.model == loaded && regexDetector == RegexAnalyzer(matcher)
    {
      db := new Database();
      ml := new Detector(loaded);
      regexDetector := RegexAnalyzer(matcher);
      totalMessages := 0;
      flaggedMessages := 0;
      falsePositives := 0;
      processingTimes := [];
    }

    /** `_combine_detection_results`: the evidence and the running maximum, then
        the history adjustment and the risk band. */
    method CombineDetectionResults(regex: RiskAnalysis, mlResults: MLResult, user: string) returns (combined: Combined)
      ensures combined == Combine(regex, mlResults, ModelTrained(ml.model), StatsOf(db.userStats, user).riskScore)
    {
      var userStats := db.GetUserStats(user);
      var userRisk := userStats.riskScore;
      var hasViolation, violationType, evidence, confidence := CollectEvidence(regex, mlResults);
      ghost var raw := confidence;
      if userRisk > 0.5 {
        confidence := if confidence * 1.2 < 1.0 then confidence * 1.2 else 1.0;
      } else if userRisk < 0.1 {
        confidence := confidence * 0.9;
      }
      assert confidence == HistoryAdjust(raw, userRisk);
      var riskLevel;
      if confidence >= 0.9 {
        riskLevel := Critical;
      } else if confidence >= 0.7 {
        riskLevel := High;
      } else if confidence >= 0.5 {
        riskLevel := Medium;
      } else {
        riskLevel := Low;
      }
      combined := Combined(hasViolation, confidence, violationType, riskLevel, evidence, userRisk);
      CombineUnfolds(regex, mlResults, ModelTrained(ml.model), userRisk);
    }

    /** The three `if` blocks of `_combine_detection_results`: each firing source
        sets the flag, raises the running maximum and appends its evidence. */
    method CollectEvidence(regex: RiskAnalysis, mlResults: MLResult)
      returns (hasViolation: bool, violationType: Option<string>, evidence: seq<Evidence>, confidence: real)
      ensures hasViolation == (regex.hasViolation || regex.hasBypass || mlResults.isViolation)
      ensures violationType == (if regex.hasViolation then TypeName(regex.violation.violationType) else None)
      ensures evidence == EvidenceOf(regex, mlResults, ModelTrained(ml.model))
      ensures confidence == Strongest(evidence)
    {
      hasViolation := false;
      confidence := 0.0;
      violationType := None;
      evidence := [];
      if regex.hasViolation {
        hasViolation := true;
        violationType := TypeName(regex.violation.violationType);
        var e := Evidence(RegexSource, violationType, regex.confidence, Some(regex.violation.matchedPatterns));
        confidence := MaxReal(confidence, e.confidence);
        StrongestSnoc(evidence, e);
        evidence := evidence + [e];
      }
      assert evidence == RegexEvidence(regex) && confidence == Strongest(evidence);
      ghost var afterRegex := evidence;
      if regex.hasBypass {
        hasViolation := true;
        var e := Evidence(BypassSource, regex.bypass.bypassType, regex.bypass.confidence, Some(regex.bypass.matchedPatterns));
        confidence := MaxReal(confidence, e.confidence);
        StrongestSnoc(evidence, e);
        evidence := evidence + [e];
      }
      assert evidence == afterRegex + BypassEvidence(regex) && confidence == Strongest(evidence);
      ghost var afterBypass := evidence;
      if mlResults.isViolation {
        hasViolation := true;
        var mlConfidence := mlResults.confidence;
        if !ModelTrained(ml.model) {
          mlConfidence := mlConfidence * UntrainedDiscount;
        }
        var e := Evidence(MLSource, None, mlConfidence, None);
        confidence := MaxReal(confidence, e.confidence);
        StrongestSnoc(evidence, e);
        evidence := evidence + [e];
      }
      assert evidence == afterBypass + MLEvidence(mlResults, ModelTrained(ml.model));
    }

    /** `_log_flagged_message`: collect the patterns of the evidence that has
        them, the set of sources, and write the row. */
    method LogFlaggedMessage(result: ModerationResult, combined: Combined)
      requires db.Valid()
      modifies db
      ensures db.Valid()
      ensures db.flaggedMessages == old(db.flaggedMessages)
        + [NewRecord(|old(db.flaggedMessages)| + 1, result.userId, result.message, StoredType(result.violationType),
                     result.confidence, DetectionMethod(combined.evidence), EvidencePatterns(combined.evidence))]
      ensures db.userStats == Bumped(old(db.userStats), result.userId, true)
    {
      var patternsMatched: seq<string> := [];
      var evidence := combined.evidence;
      for i := 0 to |evidence|
        invariant patternsMatched == EvidencePatterns(evidence[..i])
      {
        if evidence[i].patterns.Some? {
          patternsMatched := patternsMatched + evidence[i].patterns.value;
        }
        assert evidence[..i + 1][..i] == evidence[..i];
      }
      assert evidence[..|evidence|] == evidence;
      var detectionMethod := set i | 0 <= i < |evidence| :: SourceName(evidence[i].source);
      var _ := db.LogFlaggedMessage(result.userId, result.message, StoredType(result.violationType), result.confidence,
                                    detectionMethod, patternsMatched);
    }

    /** Step 5 of `moderate_message` and the counter update: a flagged result
        gets its row (which also counts the message for the sender), any other
        result is counted as safe; the engine counts the message, and the flag. */
    method RecordOutcome(result: ModerationResult, combined: Combined)
      requires Valid()
      modifies this, db
      ensures Valid()
      ensures State() == Record(old(State()), result, combined)
    {
      ghost var s := State();
      if result.isFlagged {
        LogFlaggedMessage(result, combined);
        assert db.flaggedMessages == s.flaggedRows + [RowFor(s, result, combined)];
      } else {
        db.LogSafeMessage(result.userId);
      }
      assert db.userStats == Bumped(s.userStats, result.userId, result.isFlagged);
      totalMessages := totalMessages + 1;
      if result.isFlagged {
        flaggedMessages := flaggedMessages + 1;
      }
      ghost var rec := Record(s, result, combined);
      assert rec.userStats == db.userStats && rec.flaggedRows == db.flaggedMessages;
      assert rec.totalMessages == totalMessages && rec.flaggedMessages == flaggedMessages;
      assert rec.falsePositives == falsePositives && rec.processingTimes == processingTimes;
      assert State() == rec;
      RecordCoherent(s, result, combined);
    }

    /** `moderate_message`: the `try` block, the fail-open `except` branch,
        then the processing time. */
    method ModerateMessage(message: string, user: string, fault: Fault, elapsed: real) returns (result: ModerationResult)
      requires Valid()
      modifies this, db
      ensures Valid()
      ensures (State(), result) == Step(old(State()), regexDetector, ml.model, message, user, fault, elapsed)
    {
      ghost var s := State();
      var raised;
      result, raised := TryModerate(message, user, fault);
      if raised.Some? {
        result := FailOpen(result, raised.value);
      }
      ghost var expected := Attempt(s, regexDetector, ml.model, message, user, fault);
      assert (State(), result) == expected;
      result := result.(details := result.details.(processingTime := elapsed));
      processingTimes := processingTimes + [elapsed];
      assert State() == expected.0.(processingTimes := expected.0.processingTimes + [elapsed]);
    }

    /** The `try` block of `moderate_message`: the stages in order, stopping
        with the raised error at the stage `fault` names; what the stages
        before it stored stays in the result. */
    method TryModerate(message: string, user: string, fault: Fault) returns (result: ModerationResult, raised: Option<string>)
      requires Valid()
      modifies this, db
      ensures Valid()
      ensures (State(), if raised.Some? then FailOpen(result, raised.value) else result)
              == Attempt(old(State()), regexDetector, ml.model, message, user, fault)
    {
      ghost var s := State();
      var combined;
      result, combined, raised := Decide(message, user, fault);
      assert State() == s;
      if raised.Some? {
        return;
      }
      AttemptAfterDecided(s, regexDetector, ml.model, message, user, fault, result, combined);
      if FailsAt(fault, Recording) {
        return result, Some(fault.error);
      }
      RecordOutcome(result, combined);
    }

    /** The stages of the `try` block before the write: the regex analysis,
        the classifier, the combiner and the final decision, merged into the
        result as they complete; a stage that raises stops them. Nothing is
        written. */
    method Decide(message: string, user: string, fault: Fault) returns (result: ModerationResult, combined: Combined, raised: Option<string>)
      requires Valid()
      ensures raised.Some? <==> FailsAt(fault, Screening) || FailsAt(fault, Classifying) || FailsAt(fault, Assessing)
      ensures raised.Some? ==>
        (raised == Some(fault.error)
         && Attempt(State(), regexDetector, ml.model, message, user, fault) == (State(), FailOpen(result, fault.error)))
      ensures raised.None? ==> (result, combined) == Decided(State(), regexDetector, ml.model, message, user)
    {
      result := Initial(message, user);
      combined := Combined(false, 0.0, None, Low, [], 0.0);
      if FailsAt(fault, Screening) {
        return result, combined, Some(fault.error);
      }
      var regexResults := regexDetector(message);
      result := result.(details := result.details.(regexResults := Some(regexResults)));
      if FailsAt(fault, Classifying) {
        return result, combined, Some(fault.error);
      }
      var mlResults := PredictViolation(ml.model, message);
      result := result.(details := result.details.(mlResults := Some(mlResults)));
      if FailsAt(fault, Assessing) {
        return result, combined, Some(fault.error);
      }
      combined := CombineDetectionResults(regexResults, mlResults, user);
      result := result.(details := result.details.(combinedAnalysis := Some(combined)));
      var decision := MakeFinalDecision(combined);
      result := Merge(result, decision);
      raised := None;
    }

    /** `batch_moderate`. */
    method BatchModerate(messages: seq<(string, string)>, faults: seq<Fault>, elapsed: seq<real>) returns (results: seq<ModerationResult>)
      requires |faults| == |messages| && |elapsed| == |messages|
      requires Valid()
      modifies this, db
      ensures Valid()
      ensures (State(), results) == Batch(old(State()), regexDetector, ml.model, messages, faults, elapsed)
    {
      results := [];
      for i := 0 to |messages|
        invariant Valid()
        invariant (State(), results) == Batch(old(State()), regexDetector, ml.model, messages[..i], faults[..i], elapsed[..i])
      {
        var (message, user) := messages[i];
        var result := ModerateMessage(message, user, faults[i], elapsed[i]);
        BatchPrefixStep(old(State()), regexDetector, ml.model, messages, faults, elapsed, i);
        results := results + [result];
      }
      assert messages[..|messages|] == messages;
      assert faults[..|faults|] == faults;
      assert elapsed[..|elapsed|] == elapsed;
    }

    /** `get_statistics` without the average and maximum processing time. */
    method GetStatistics() returns (st: Statistics)
      requires Valid()
      ensures st == StatisticsOf(State())
      ensures 0.0 <= st.flaggedRate <= 1.0 && st.falsePositiveRate == 0.0
    {
      var flaggedRate := 0.0;
      var falsePositiveRate := 0.0;
      if totalMessages > 0 {
        flaggedRate := flaggedMessages as real / totalMessages as real;
        if flaggedMessages > 0 {
          falsePositiveRate := falsePositives as real / flaggedMessages as real;
        }
      }
      st := Statistics(totalMessages, flaggedMessages, falsePositives, processingTimes, flaggedRate, falsePositiveRate);
    }
  }

  /** `Combine` spelled out field by field. */
  lemma CombineUnfolds(regex: RiskAnalysis, ml: MLResult, trained: bool, userRisk: real)
    ensures var evidence := EvidenceOf(regex, ml, trained);
      var confidence := HistoryAdjust(Strongest(evidence), userRisk);
      Combine(regex, ml, trained, userRisk)
        == Combined(regex.hasViolation || regex.hasBypass || ml.isViolation, confidence,
                    if regex.hasViolation then TypeName(regex.violation.violationType) else None,
                    RiskLevelOf(confidence), evidence, userRisk)
  {
  }
}
