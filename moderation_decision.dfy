/**
 * The decision half of `ModerationEngine` in chat_moderation_system.py:
 * merging the regex analysis and the classifier's answer into one verdict
 * (`_combine_detection_results`), the user-history adjustment and the risk
 * bands, the final action (`_make_final_decision`, `_get_warning_message`)
 * and the arguments of the flagged-message row (`_log_flagged_message`).
 */
module ModerationDecision {
  import opened Wrappers
  import opened ModerationConfig
  import opened RegexDetector
  import opened MLDetector

  /** Where a piece of evidence came from. */
  datatype Source = RegexSource | BypassSource | MLSource

  function SourceName(s: Source): string {
    match s
    case RegexSource => "regex"
    case BypassSource => "regex_bypass"
    case MLSource => "ml"
  }

  /** One entry of `combined['evidence']`; only the regex sources carry `patterns`. */
  datatype Evidence = Evidence(source: Source, evidenceType: Option<string>, confidence: real, patterns: Option<seq<string>>)

  /** The dictionary `_combine_detection_results` returns. */
  datatype Combined = Combined(
    hasViolation: bool,
    confidence: real,
    violationType: Option<string>,
    riskLevel: RiskLevel,
    evidence: seq<Evidence>,
    userRiskFactor: real)

  function Sources(evidence: seq<Evidence>): (r: seq<Source>)
    ensures |r| == |evidence| && forall i :: 0 <= i < |r| ==> r[i] == evidence[i].source
  {
    seq(|evidence|, i requires 0 <= i < |evidence| => evidence[i].source)
  }

  function MaxReal(a: real, b: real): real { if a < b then b else a }

  /** `combined['confidence']` before the history adjustment: `max` folded over
      the evidence from 0.0. It is the largest evidence confidence, or 0.0 when
      that is larger or there is no evidence. */
  function Strongest(evidence: seq<Evidence>): (r: real)
    ensures r >= 0.0
    ensures forall i :: 0 <= i < |evidence| ==> r >= evidence[i].confidence
    ensures r == 0.0 || exists i :: 0 <= i < |evidence| && r == evidence[i].confidence
  {
    if evidence == [] then 0.0
    else
      var init := evidence[..|evidence| - 1];
      var r := MaxReal(Strongest(init), evidence[|evidence| - 1].confidence);
      assert forall i :: 0 <= i < |init| ==> init[i] == evidence[i];
      r
  }

  /** The adjustment for the sender's history: a risky sender (> 0.5) gets 1.2
      times the confidence capped at 1.0, a clean sender (< 0.1) gets 0.9 times
      it, everyone else keeps it. */
  function HistoryAdjust(confidence: real, userRisk: real): real {
    if userRisk > 0.5 then
      (if confidence * 1.2 < 1.0 then confidence * 1.2 else 1.0)
    else if userRisk < 0.1 then confidence * 0.9
    else confidence
  }

  /** The adjustment keeps a confidence in [0, 1], raises it (or keeps it) for a
      risky sender, lowers it (or keeps it) for a clean one, and is monotone. */
  lemma HistoryAdjustFacts(c: real, d: real, userRisk: real)
    requires 0.0 <= c <= d
    ensures c <= 1.0 ==> 0.0 <= HistoryAdjust(c, userRisk) <= 1.0
    ensures HistoryAdjust(c, userRisk) <= HistoryAdjust(d, userRisk)
    ensures userRisk > 0.5 && c <= 1.0 ==> HistoryAdjust(c, userRisk) >= c
    ensures userRisk < 0.1 ==> HistoryAdjust(c, userRisk) <= c
    ensures 0.1 <= userRisk <= 0.5 ==> HistoryAdjust(c, userRisk) == c
  {
  }

  /** The risk bands: 0.9 and above critical, 0.7 high, 0.5 medium, below low. */
  function RiskLevelOf(confidence: real): (level: RiskLevel)
    ensures level == Critical <==> confidence >= 0.9
    ensures level == High <==> 0.7 <= confidence < 0.9
    ensures level == Medium <==> 0.5 <= confidence < 0.7
    ensures level == Low <==> confidence < 0.5
  {
    if confidence >= 0.9 then Critical
    else if confidence >= 0.7 then High
    else if confidence >= 0.5 then Medium
    else Low
  }

  function Severity(level: RiskLevel): nat {
    match level
    case Low => 0
    case Medium => 1
    case High => 2
    case Critical => 3
  }

  /** A higher confidence never lands in a lower band. */
  lemma RiskLevelMonotone(c: real, d: real)
    requires c <= d
    ensures Severity(RiskLevelOf(c)) <= Severity(RiskLevelOf(d))
  {
  }

  /** The category name that becomes `violation_type`. */
  function TypeName(c: Option<Category>): Option<string> {
    match c
    case None => None
    case Some(cat) => Some(CategoryName(cat))
  }

  /** The regex source's evidence entry, when it fired. */
  function RegexEvidence(regex: RiskAnalysis): seq<Evidence> {
    if regex.hasViolation
    then [Evidence(RegexSource, TypeName(regex.violation.violationType), regex.confidence, Some(regex.violation.matchedPatterns))]
    else []
  }

  /** The bypass rules' evidence entry, when they fired. */
  function BypassEvidence(regex: RiskAnalysis): seq<Evidence> {
    if regex.hasBypass
    then [Evidence(BypassSource, regex.bypass.bypassType, regex.bypass.confidence, Some(regex.bypass.matchedPatterns))]
    else []
  }

  /** The classifier's evidence entry, when it fired; its confidence is halved
      for a model that is not trained. It has no type and no patterns. */
  function MLEvidence(ml: MLResult, trained: bool): seq<Evidence> {
    if ml.isViolation
    then [Evidence(MLSource, None, if trained then ml.confidence else ml.confidence * UntrainedDiscount, None)]
    else []
  }

  /** The evidence list: regex, then regex_bypass, then ml, each present when that
      source fired. */
  function EvidenceOf(regex: RiskAnalysis, ml: MLResult, trained: bool): seq<Evidence> {
    RegexEvidence(regex) + BypassEvidence(regex) + MLEvidence(ml, trained)
  }

  /** `_combine_detection_results` for a sender whose stored risk is `userRisk`. */
  function Combine(regex: RiskAnalysis, ml: MLResult, trained: bool, userRisk: real): (c: Combined)
    ensures c.hasViolation <==> regex.hasViolation || regex.hasBypass || ml.isViolation
    ensures c.violationType == (if regex.hasViolation then TypeName(regex.violation.violationType) else None)
    ensures Sources(c.evidence)
      == (if regex.hasViolation then [RegexSource] else [])
       + (if regex.hasBypass then [BypassSource] else [])
       + (if ml.isViolation then [MLSource] else [])
    ensures c.evidence == EvidenceOf(regex, ml, trained)
    ensures c.confidence == HistoryAdjust(Strongest(c.evidence), userRisk)
    ensures c.riskLevel == RiskLevelOf(c.confidence)
    ensures c.userRiskFactor == userRisk
  {
    var evidence := EvidenceOf(regex, ml, trained);
    var confidence := HistoryAdjust(Strongest(evidence), userRisk);
    Combined(regex.hasViolation || regex.hasBypass || ml.isViolation, confidence,
             if regex.hasViolation then TypeName(regex.violation.violationType) else None,
             RiskLevelOf(confidence), evidence, userRisk)
  }

  /** Appending one entry to the evidence takes one more `max`. */
  lemma StrongestSnoc(evidence: seq<Evidence>, e: Evidence)
    ensures Strongest(evidence + [e]) == MaxReal(Strongest(evidence), e.confidence)
  {
    assert (evidence + [e])[..|evidence|] == evidence;
  }

  /** What each source adds to the `max`: its confidence when it fired, else 0.0. */
  function RegexShare(regex: RiskAnalysis): real {
    if regex.hasViolation then regex.confidence else 0.0
  }

  function BypassShare(regex: RiskAnalysis): real {
    if regex.hasBypass then regex.bypass.confidence else 0.0
  }

  function MLShare(ml: MLResult, trained: bool): real {
    if !ml.isViolation then 0.0
    else if trained then ml.confidence
    else ml.confidence * UntrainedDiscount
  }

  /** Adding a source's share to the running `max`: a source that did not fire
      leaves it as it is. */
  lemma StrongestAppend(evidence: seq<Evidence>, more: seq<Evidence>, share: real)
    requires more == [] ==> share == 0.0
    requires more != [] ==> |more| == 1 && share == more[0].confidence
    ensures Strongest(evidence + more) == MaxReal(Strongest(evidence), share)
  {
    if more == [] {
      assert evidence + more == evidence;
    } else {
      assert more == [more[0]];
      StrongestSnoc(evidence, more[0]);
    }
  }

  /** The combined confidence, independently of the evidence list: the history
      adjustment of `max(0.0, regex, regex_bypass, ml)`, where a source that did
      not fire counts as 0.0 and an untrained classifier's confidence is halved. */
  lemma {:induction false} CombinedConfidenceIsAdjustedMax(regex: RiskAnalysis, ml: MLResult, trained: bool, userRisk: real)
    ensures Combine(regex, ml, trained, userRisk).confidence
            == HistoryAdjust(MaxReal(MaxReal(MaxReal(0.0, RegexShare(regex)), BypassShare(regex)), MLShare(ml, trained)), userRisk)
  {
    var a, b, m := RegexEvidence(regex), BypassEvidence(regex), MLEvidence(ml, trained);
    StrongestAppend([], a, RegexShare(regex));
    assert [] + a == a;
    StrongestAppend(a, b, BypassShare(regex));
    StrongestAppend(a + b, m, MLShare(ml, trained));
  }

  /** The combined confidence stays in [0, 1] when every source's own
      confidence and the sender's risk do. */
  lemma CombinedConfidenceInUnitInterval(regex: RiskAnalysis, ml: MLResult, trained: bool, userRisk: real)
    requires 0.0 <= regex.confidence <= 1.0 && 0.0 <= regex.bypass.confidence <= 1.0 && 0.0 <= ml.confidence <= 1.0
    ensures 0.0 <= Combine(regex, ml, trained, userRisk).confidence <= 1.0
  {
    var evidence := EvidenceOf(regex, ml, trained);
    assert forall i :: 0 <= i < |evidence| ==> evidence[i].confidence <= 1.0;
    var s := Strongest(evidence);
    assert s <= 1.0;
    HistoryAdjustFacts(s, s, userRisk);
  }

  /** `violation_type` is set only by the regex categories: a message caught by
      the bypass rules or the classifier alone has none. */
  lemma OnlyRegexSetsType(regex: RiskAnalysis, ml: MLResult, trained: bool, userRisk: real)
    requires !regex.hasViolation
    ensures Combine(regex, ml, trained, userRisk).violationType.None?
  {
  }

  /** The dictionary `_make_final_decision` returns; its `warning_message` is
      carried as the key of `WARNING_MESSAGES` whose text it is (see
      `GetWarningMessage`). */
  datatype Decision = Decision(
    isFlagged: bool,
    action: Action,
    confidence: real,
    violationType: Option<string>,
    warning: Option<WarningKey>)

  /** `_get_warning_message`: the warning of the type's key, 'general' when unmapped or absent. */
  function GetWarningMessage(violationType: Option<string>): (w: string)
    ensures w == WarningMessage(WarningKeyOf(violationType))
    ensures WarningKeyOf(violationType) == General ==> w == WarningMessage(General)
  {
    WarningMessage(WarningKeyOf(violationType))
  }

  /** `_make_final_decision`: anything with a violation is flagged; at or above
      the 0.6 gate a critical or high risk is blocked and a lower one warned,
      both with the type's warning; below the gate it is warned with the
      general warning; no violation is allowed with no message. */
  function MakeFinalDecision(c: Combined): (d: Decision)
    ensures d.isFlagged == c.hasViolation
    ensures d.confidence == c.confidence && d.violationType == c.violationType
    ensures d.action == Allow <==> !c.hasViolation
    ensures d.warning.None? <==> !c.hasViolation
    ensures d.action == Block <==> c.hasViolation && c.confidence >= CombinedThreshold && (c.riskLevel == Critical || c.riskLevel == High)
    ensures c.hasViolation && c.confidence < CombinedThreshold ==> d.warning == Some(General)
    ensures c.hasViolation && c.confidence >= CombinedThreshold ==> d.warning == Some(WarningKeyOf(c.violationType))
  {
    if !c.hasViolation then Decision(false, Allow, c.confidence, c.violationType, None)
    else if c.confidence >= CombinedThreshold then
      if c.riskLevel == Critical || c.riskLevel == High then
        Decision(true, Block, c.confidence, c.violationType, Some(WarningKeyOf(c.violationType)))
      else
        Decision(true, Warn, c.confidence, c.violationType, Some(WarningKeyOf(c.violationType)))
    else
      Decision(true, Warn, c.confidence, c.violationType, Some(General))
  }

  /** With the risk level taken from the confidence, a message is blocked exactly
      when it has a violation and a confidence of at least 0.7; the inclusive 0.6
      gate alone never blocks. */
  lemma BlockIffStrongViolation(c: Combined)
    requires c.riskLevel == RiskLevelOf(c.confidence)
    ensures MakeFinalDecision(c).action == Block <==> c.hasViolation && c.confidence >= 0.7
    ensures c.hasViolation && 0.6 <= c.confidence < 0.7 ==> MakeFinalDecision(c).action == Warn
  {
  }

  // ---------------------------------------------------------------------------
  // The flagged-message row

  /** The patterns of every evidence entry that has them, concatenated in order. */
  function EvidencePatterns(evidence: seq<Evidence>): seq<string> {
    if evidence == [] then []
    else
      var last := evidence[|evidence| - 1];
      EvidencePatterns(evidence[..|evidence| - 1]) + (if last.patterns.Some? then last.patterns.value else [])
  }

  /** The set of sources that `detection_method` joins. */
  function DetectionMethod(evidence: seq<Evidence>): (methods: set<string>)
    ensures forall i :: 0 <= i < |evidence| ==> SourceName(evidence[i].source) in methods
    ensures forall s :: s in methods ==> exists i :: 0 <= i < |evidence| && s == SourceName(evidence[i].source)
  {
    set i | 0 <= i < |evidence| :: SourceName(evidence[i].source)
  }

  /** `result['violation_type'] or 'unknown'`. */
  function StoredType(violationType: Option<string>): (t: string)
    ensures violationType.Some? && violationType.value != "" ==> t == violationType.value
    ensures violationType.None? ==> t == "unknown"
  {
    if violationType.None? || violationType.value == "" then "unknown" else violationType.value
  }

  /** Classifier evidence contributes no patterns: the stored patterns are those of
      the two regex sources. */
  lemma PatternsFromRegexOnly(regex: RiskAnalysis, ml: MLResult, trained: bool)
    ensures EvidencePatterns(EvidenceOf(regex, ml, trained))
      == (if regex.hasViolation then regex.violation.matchedPatterns else [])
       + (if regex.hasBypass then regex.bypass.matchedPatterns else [])
  {
    var e1 := RegexEvidence(regex);
    var e2 := BypassEvidence(regex);
    PatternsAppend([], e1);
    assert [] + e1 == e1;
    PatternsAppend(e1, e2);
    PatternsAppend(e1 + e2, MLEvidence(ml, trained));
  }

  lemma {:induction false} PatternsAppend(a: seq<Evidence>, b: seq<Evidence>)
    requires |b| <= 1
    ensures EvidencePatterns(a + b) == EvidencePatterns(a) + (if b != [] && b[0].patterns.Some? then b[0].patterns.value else [])
  {
    if b != [] {
      assert (a + b)[..|a + b| - 1] == a;
    } else {
      assert a + b == a;
    }
  }
}
