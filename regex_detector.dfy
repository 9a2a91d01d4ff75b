/**
 * `RegexDetector` of chat_moderation_system.py: the first-hit scan of the
 * violation categories over the normalised message, the first-hit scan of
 * the smart-bypass rules over the lower-cased raw message, the context window
 * around a bypass and the four-way risk table that combines the two scans.
 *
 * The regex engine itself is taken as given: a `Matcher` answers `findall`
 * and `search` for a regex source and a text.
 */
module RegexDetector {
  import opened Wrappers
  import opened StringUtil
  import opened ModerationConfig
  import opened Normalizer

  /** The span `[start, end)` of a match, as `re.search` reports it. */
  datatype Span = Span(start: nat, end: nat)

  /** A regex compiled from the configuration: the `index`-th source of a
      category (`self.compiled_patterns`) or the pattern of the `index`-th
      bypass rule. `Source` gives the text it was compiled from. */
  datatype Regex = CategoryRegex(category: Category, index: nat) | BypassRegex(index: nat)

  /** The regex engine: `findall(regex, text)` lists the matches of the regex
      in `text`, and `search(regex, text)` is the span of the first match, if
      there is one (both case-insensitive). */
  datatype Matcher = Matcher(findall: (Regex, string) -> seq<string>, search: (Regex, string) -> Option<Span>)

  /** The number of sources of each category in `REGEX_PATTERNS`. */
  function PatternCount(c: Category): nat {
    match c
    case Email => 3
    case Phone => 3
    case PaymentLinks => 2
    case ExternalPlatforms => 3
    case OffPlatformKeywords => 3
  }

  /** `self.compiled_patterns[c]`: one compiled regex per source of the
      category, in list order. */
  function Compiled(c: Category): (r: seq<Regex>)
    ensures |r| == PatternCount(c)
    ensures forall i :: 0 <= i < |r| ==> r[i] == CategoryRegex(c, i)
  {
    seq(PatternCount(c), i requires 0 <= i => CategoryRegex(c, i))
  }

  /** The regex source a compiled regex was built from. */
  function Source(r: Regex): string {
    match r
    case CategoryRegex(c, i) => if i < |Patterns(c)| then Patterns(c)[i] else ""
    case BypassRegex(i) => if i < |BypassSources| then BypassSources[i] else ""
  }

  /** The detector compiles every source of every category, once each and in
      list order. */
  lemma CompiledFromSources(c: Category)
    ensures |Compiled(c)| == |Patterns(c)|
    ensures forall i :: 0 <= i < |Compiled(c)| ==> Source(Compiled(c)[i]) == Patterns(c)[i]
  {
  }

  /** The dictionary `detect_violations` returns. */
  datatype ViolationResult = ViolationResult(
    isViolation: bool,
    violationType: Option<Category>,
    confidence: real,
    matchedPatterns: seq<string>,
    details: map<Category, seq<string>>)

  const NoViolation: ViolationResult := ViolationResult(false, None, 0.0, [], map[])

  /** The matches of every pattern of a list, concatenated in list order. */
  function PatternMatches(m: Matcher, patterns: seq<Regex>, text: string): seq<string> {
    if patterns == [] then []
    else PatternMatches(m, patterns[..|patterns| - 1], text) + m.findall(patterns[|patterns| - 1], text)
  }

  /** A category hits when at least one of its patterns finds something. */
  predicate Hits(m: Matcher, c: Category, text: string) {
    PatternMatches(m, Compiled(c), text) != []
  }

  /** The index of the first category of `cats` that hits, if any. */
  function FirstHit(m: Matcher, cats: seq<Category>, text: string): (r: Option<nat>)
    ensures r.Some? ==> r.value < |cats| && Hits(m, cats[r.value], text)
    ensures r.Some? ==> forall i :: 0 <= i < r.value ==> !Hits(m, cats[i], text)
    ensures r.None? ==> forall i :: 0 <= i < |cats| ==> !Hits(m, cats[i], text)
  {
    if cats == [] then None
    else if Hits(m, cats[0], text) then Some(0)
    else
      match FirstHit(m, cats[1..], text)
      case None => None
      case Some(k) => Some(k + 1)
  }

  /** What `detect_violations` returns for `message`: the categories are tried
      in order against the normalised message and the first one that hits wins. */
  function Violations(m: Matcher, message: string): ViolationResult {
    var text := Normalize(message);
    match FirstHit(m, Categories, text)
    case None => NoViolation
    case Some(k) =>
      var ms := PatternMatches(m, Compiled(Categories[k]), text);
      ViolationResult(true, Some(Categories[k]), RegexConfidence, ms, map[Categories[k] := ms])
  }

  /** The loop of `detect_violations`, with its `break` at the first category
      that hits. */
  method DetectViolations(m: Matcher, message: string) returns (results: ViolationResult)
    ensures results == Violations(m, message)
  {
    results := NoViolation;
    var normalized := NormalizeMessage(message);
    var i := 0;
    while i < |Categories|
      invariant 0 <= i <= |Categories|
      invariant results == NoViolation
      invariant forall k :: 0 <= k < i ==> !Hits(m, Categories[k], normalized)
    {
      var category := Categories[i];
      var matches := CategoryMatches(m, Compiled(category), normalized);
      if matches != [] {
        results := ViolationResult(true, Some(category), RegexConfidence, matches, map[category := matches]);
        FirstHitAt(m, Categories, normalized, i);
        return;
      }
      i := i + 1;
    }
    NoFirstHit(m, Categories, normalized);
  }

  /** The inner loop of `detect_violations`: the matches of every pattern of
      one category, in pattern order. */
  method CategoryMatches(m: Matcher, patterns: seq<Regex>, text: string) returns (matches: seq<string>)
    ensures matches == PatternMatches(m, patterns, text)
  {
    matches := [];
    for j := 0 to |patterns|
      invariant matches == PatternMatches(m, patterns[..j], text)
    {
      var found := m.findall(patterns[j], text);
      if found != [] {
        matches := matches + found;
      }
      assert patterns[..j + 1][..j] == patterns[..j];
    }
    assert patterns[..|patterns|] == patterns;
  }

  /** The first category that hits is the one `FirstHit` names. */
  lemma FirstHitAt(m: Matcher, cats: seq<Category>, text: string, i: nat)
    requires i < |cats| && Hits(m, cats[i], text)
    requires forall k :: 0 <= k < i ==> !Hits(m, cats[k], text)
    ensures FirstHit(m, cats, text) == Some(i)
  {
  }

  /** With no category hitting, `FirstHit` names none. */
  lemma NoFirstHit(m: Matcher, cats: seq<Category>, text: string)
    requires forall k :: 0 <= k < |cats| ==> !Hits(m, cats[k], text)
    ensures FirstHit(m, cats, text) == None
  {
  }

  /** With no hit the result is the all-clear; with a hit it names a category that
      hits, every category before it in the order finds nothing, the confidence is
      `REGEX_CONFIDENCE` and the matches are that category's in pattern order. */
  lemma ViolationsCharacterised(m: Matcher, message: string)
    ensures var r := Violations(m, message);
      !r.isViolation <==> forall c :: c in Categories ==> !Hits(m, c, Normalize(message))
    ensures var r := Violations(m, message);
      !r.isViolation ==> r == NoViolation
    ensures var r := Violations(m, message);
      r.isViolation ==>
        && r.violationType.Some?
        && Hits(m, r.violationType.value, Normalize(message))
        && r.confidence == 0.9
        && r.matchedPatterns == PatternMatches(m, Compiled(r.violationType.value), Normalize(message))
        && r.details == map[r.violationType.value := r.matchedPatterns]
        && forall i :: 0 <= i < |Categories| && Categories[i] == r.violationType.value ==>
             forall j :: 0 <= j < i ==> !Hits(m, Categories[j], Normalize(message))
  {
    var text := Normalize(message);
    var first := FirstHit(m, Categories, text);
    if first.None? {
      forall c | c in Categories ensures !Hits(m, c, text) {
        var i :| 0 <= i < |Categories| && Categories[i] == c;
      }
    } else {
      var k := first.value;
      var r := Violations(m, message);
      assert r.violationType == Some(Categories[k]);
      CategoriesDistinct();
      forall i | 0 <= i < |Categories| && Categories[i] == Categories[k] ensures i == k {
      }
    }
  }

  /** The categories are listed once each. */
  lemma CategoriesDistinct()
    ensures forall i, j :: 0 <= i < j < |Categories| ==> Categories[i] != Categories[j]
  {
  }

  /** The concatenation is empty exactly when no single pattern finds anything. */
  lemma {:induction false} PatternMatchesEmpty(m: Matcher, patterns: seq<Regex>, text: string)
    ensures PatternMatches(m, patterns, text) == [] <==> forall p :: p in patterns ==> m.findall(p, text) == []
    decreases |patterns|
  {
    if patterns != [] {
      var init := patterns[..|patterns| - 1];
      PatternMatchesEmpty(m, init, text);
      assert patterns == init + [patterns[|patterns| - 1]];
    }
  }

  // ---------------------------------------------------------------------------
  // Smart bypasses

  /** The patterns of the nine bypass rules of `detect_smart_bypasses`, in order. */
  const BypassSources: seq<string> := [
    @"(?:contact|reach|message|call|text)\s+me\s+(?:at|on|via)",
    @"(?:my|the)\s+(?:number|email|phone)\s+is",
    @"(?:send|transfer|pay)\s+(?:to|via|through)\s+(?:my|this)",
    @"(?:meet|deal|transaction)\s+(?:outside|off)\s+(?:platform|site|app)",
    @"(?:zero|one|two|three|four|five|six|seven|eight|nine)[\s-]*(?:zero|one|two|three|four|five|six|seven|eight|nine)",
    @"[a-zA-Z0-9._%+-]+\s*\[\s*at\s*\]\s*[a-zA-Z0-9.-]+",
    @"(?:gmail|yahoo|hotmail|outlook)\s*\[\s*dot\s*\]\s*com",
    @"(?:add|contact|find)\s+me\s+on\s+(?:whatsapp|telegram|discord|instagram)",
    @"(?:paypal|venmo|cashapp|zelle)\s+(?:me|link|account)"
  ]

  /** The nine (pattern, bypass type) rules of `detect_smart_bypasses`, in
      order; the `i`-th pattern is compiled from `BypassSources[i]`. */
  const BypassRules: seq<(Regex, string)> := [
    (BypassRegex(0), "contact_bypass"),
    (BypassRegex(1), "info_sharing"),
    (BypassRegex(2), "payment_bypass"),
    (BypassRegex(3), "off_platform"),
    (BypassRegex(4), "number_words"),
    (BypassRegex(5), "obfuscated_email"),
    (BypassRegex(6), "obfuscated_domain"),
    (BypassRegex(7), "platform_redirect"),
    (BypassRegex(8), "payment_platform")
  ]

  /** Each rule's pattern is compiled from the source in the same place. */
  lemma BypassRulesFromSources()
    ensures |BypassRules| == |BypassSources|
    ensures forall i :: 0 <= i < |BypassRules| ==> Source(BypassRules[i].0) == BypassSources[i]
  {
  }

  /** The dictionary `detect_smart_bypasses` returns. */
  datatype BypassResult = BypassResult(
    isBypass: bool,
    bypassType: Option<string>,
    confidence: real,
    matchedPatterns: seq<string>,
    context: Option<string>)

  const NoBypass: BypassResult := BypassResult(false, None, 0.0, [], None)

  /** The index of the first rule whose pattern finds something in `text`. */
  function FirstRule(m: Matcher, rules: seq<(Regex, string)>, text: string): (r: Option<nat>)
    ensures r.Some? ==> r.value < |rules| && m.findall(rules[r.value].0, text) != []
    ensures r.Some? ==> forall i :: 0 <= i < r.value ==> m.findall(rules[i].0, text) == []
    ensures r.None? ==> forall i :: 0 <= i < |rules| ==> m.findall(rules[i].0, text) == []
  {
    if rules == [] then None
    else if m.findall(rules[0].0, text) != [] then Some(0)
    else
      match FirstRule(m, rules[1..], text)
      case None => None
      case Some(k) => Some(k + 1)
  }

  /** Python's `s[a:b]` for non-negative bounds: both are cut to the length and
      an empty slice results when they cross. */
  function PySlice(s: string, a: nat, b: nat): string {
    var lo := if a < |s| then a else |s|;
    var hi := if b < |s| then b else |s|;
    if lo < hi then s[lo..hi] else []
  }

  function Max(a: int, b: int): int { if a < b then b else a }
  function Min(a: int, b: int): int { if a < b then a else b }

  /** The stripped window of 20 characters either side of a match. Unless it
      is empty it is a piece of the message inside that window, has no whitespace at either end,
      and contains the match itself whenever the match neither starts nor ends
      with whitespace. */
  function Context(message: string, span: Span): (r: string)
    ensures r == [] || exists i :: OccursAt(message, r, i) && Max(0, span.start - 20) <= i && i + |r| <= Min(|message|, span.end + 20)
    ensures r != [] ==> !IsPySpace(r[0]) && !IsPySpace(r[|r| - 1])
    ensures span.start < span.end <= |message| && !IsPySpace(message[span.start]) && !IsPySpace(message[span.end - 1]) ==>
      exists i :: OccursAt(message, r, i) && i <= span.start && span.end <= i + |r|
  {
    var lo: nat := Max(0, span.start - 20);
    var hi: nat := Min(|message|, span.end + 20);
    StrippedWindow(message, span, lo, hi);
    PyStrip(PySlice(message, lo, hi))
  }

  /** Where the stripped window sits in the message. */
  lemma StrippedWindow(message: string, span: Span, lo: nat, hi: nat)
    requires lo == Max(0, span.start - 20) && hi == Min(|message|, span.end + 20)
    ensures var r := PyStrip(PySlice(message, lo, hi));
      r == [] || exists i :: OccursAt(message, r, i) && lo <= i && i + |r| <= hi
    ensures var r := PyStrip(PySlice(message, lo, hi));
      span.start < span.end <= |message| && !IsPySpace(message[span.start]) && !IsPySpace(message[span.end - 1]) ==>
      exists i :: OccursAt(message, r, i) && i <= span.start && span.end <= i + |r|
  {
    var w := PySlice(message, lo, hi);
    if lo < hi {
      assert w == message[lo..hi];
      StrippedPiece(message, span.start, span.end, lo, hi);
    } else {
      assert w == [];
      assert TrimLeft(w, IsPySpace) == [];
    }
  }

  /** The stripped slice `message[lo..hi]` sits in it at `lo` plus the stripped
      offset, and covers any span inside the slice that starts and ends with a
      non-space. */
  lemma StrippedPiece(message: string, start: nat, end: nat, lo: nat, hi: nat)
    requires lo < hi <= |message|
    ensures var r := PyStrip(message[lo..hi]); var off := TrimOffset(message[lo..hi], IsPySpace);
      OccursAt(message, r, lo + off) && lo + off + |r| <= hi
    ensures var r := PyStrip(message[lo..hi]); var off := TrimOffset(message[lo..hi], IsPySpace);
      lo <= start < end <= hi && !IsPySpace(message[start]) && !IsPySpace(message[end - 1]) ==>
      lo + off <= start && end <= lo + off + |r|
  {
    var w := message[lo..hi];
    var r := PyStrip(w);
    var off := TrimOffset(w, IsPySpace);
    TrimOffsetFacts(w, IsPySpace);
    WindowPiece(message, lo, hi, off, r);
    if lo <= start < end <= hi && !IsPySpace(message[start]) && !IsPySpace(message[end - 1]) {
      WindowCovers(message, lo, hi, off, r, start, end, IsPySpace);
    }
  }

  /** `_extract_context`: the context around the first match of `pattern` in the
      original message, or nothing when the pattern does not match it. */
  function ExtractContext(m: Matcher, message: string, pattern: Regex): (r: Option<string>)
    ensures r.Some? <==> m.search(pattern, message).Some?
    ensures r.Some? ==> r.value == Context(message, m.search(pattern, message).value)
  {
    match m.search(pattern, message)
    case None => None
    case Some(span) => Some(Context(message, span))
  }

  /** What `detect_smart_bypasses` returns: the rules are tried in order against
      the lower-cased raw message and the first one that finds anything wins.
      The context is taken from the message as written. */
  function Bypasses(m: Matcher, message: string): BypassResult {
    var lower := ToLower(message);
    match FirstRule(m, BypassRules, lower)
    case None => NoBypass
    case Some(k) =>
      BypassResult(true, Some(BypassRules[k].1), BypassConfidence, m.findall(BypassRules[k].0, lower),
                   ExtractContext(m, message, BypassRules[k].0))
  }

  /** The loop of `detect_smart_bypasses`, with its `break` at the first rule that matches. */
  method DetectSmartBypasses(m: Matcher, message: string) returns (results: BypassResult)
    ensures results == Bypasses(m, message)
  {
    results := NoBypass;
    var messageLower := ToLower(message);
    for i := 0 to |BypassRules|
      invariant forall k :: 0 <= k < i ==> m.findall(BypassRules[k].0, messageLower) == []
    {
      var (pattern, bypassType) := BypassRules[i];
      var matches := m.findall(pattern, messageLower);
      if matches != [] {
        results := BypassResult(true, Some(bypassType), 0.8, matches, ExtractContext(m, message, pattern));
        assert FirstRule(m, BypassRules, messageLower) == Some(i);
        return;
      }
    }
  }

  /** A bypass is reported exactly when some rule finds something; then the
      type is that of a matching rule before which no rule matches, and the
      confidence is 0.8. The normalised text plays no part. */
  lemma BypassesCharacterised(m: Matcher, message: string)
    ensures var r := Bypasses(m, message);
      !r.isBypass <==> forall i :: 0 <= i < |BypassRules| ==> m.findall(BypassRules[i].0, ToLower(message)) == []
    ensures var r := Bypasses(m, message);
      !r.isBypass ==> r == NoBypass
    ensures var r := Bypasses(m, message);
      r.isBypass ==>
        && r.confidence == 0.8
        && r.matchedPatterns != []
        && exists k :: 0 <= k < |BypassRules| && RuleWins(m, message, k)
             && r.bypassType == Some(BypassRules[k].1)
             && r.matchedPatterns == m.findall(BypassRules[k].0, ToLower(message))
             && r.context == ExtractContext(m, message, BypassRules[k].0)
  {
    var first := FirstRule(m, BypassRules, ToLower(message));
    if first.Some? {
      assert RuleWins(m, message, first.value);
    }
  }

  /** Rule `k` matches the lower-cased message and no rule before it does. */
  ghost predicate RuleWins(m: Matcher, message: string, k: nat)
    requires k < |BypassRules|
  {
    && m.findall(BypassRules[k].0, ToLower(message)) != []
    && forall i :: 0 <= i < k ==> m.findall(BypassRules[i].0, ToLower(message)) == []
  }

  // ---------------------------------------------------------------------------
  // Risk analysis

  /** The dictionary `analyze_message_risk` returns. */
  datatype RiskAnalysis = RiskAnalysis(
    message: string,
    hasViolation: bool,
    hasBypass: bool,
    overallRisk: RiskLevel,
    confidence: real,
    violation: ViolationResult,
    bypass: BypassResult,
    action: Action)

  /** The four-way table: both findings are critical and blocked, a violation
      alone is high and blocked, a bypass alone is medium and warned, neither
      is low and allowed. The confidence is the larger of the findings' own
      confidences, 0.0 when there is none. */
  function Assess(message: string, v: ViolationResult, b: BypassResult): (r: RiskAnalysis)
    ensures r.hasViolation == v.isViolation && r.hasBypass == b.isBypass
    ensures r.violation == v && r.bypass == b && r.message == message
    ensures r.overallRisk == Critical <==> v.isViolation && b.isBypass
    ensures r.overallRisk == High <==> v.isViolation && !b.isBypass
    ensures r.overallRisk == Medium <==> !v.isViolation && b.isBypass
    ensures r.overallRisk == Low <==> !v.isViolation && !b.isBypass
    ensures r.action == Block <==> v.isViolation
    ensures r.action == Warn <==> !v.isViolation && b.isBypass
    ensures v.isViolation ==> r.confidence >= v.confidence
    ensures b.isBypass ==> r.confidence >= b.confidence
    ensures (v.isViolation && r.confidence == v.confidence) || (b.isBypass && r.confidence == b.confidence)
            || (!v.isViolation && !b.isBypass && r.confidence == 0.0)
  {
    if v.isViolation && b.isBypass then
      RiskAnalysis(message, true, true, Critical, if v.confidence < b.confidence then b.confidence else v.confidence, v, b, Block)
    else if v.isViolation then
      RiskAnalysis(message, true, false, High, v.confidence, v, b, Block)
    else if b.isBypass then
      RiskAnalysis(message, false, true, Medium, b.confidence, v, b, Warn)
    else
      RiskAnalysis(message, false, false, Low, 0.0, v, b, Allow)
  }

  /** What `analyze_message_risk` returns for `message`. */
  function Analysis(m: Matcher, message: string): RiskAnalysis {
    Assess(message, Violations(m, message), Bypasses(m, message))
  }

  /** `analyze_message_risk`: both scans, then the table. */
  method AnalyzeMessageRisk(m: Matcher, message: string) returns (analysis: RiskAnalysis)
    ensures analysis == Analysis(m, message)
  {
    var violationResults := DetectViolations(m, message);
    var bypassResults := DetectSmartBypasses(m, message);
    analysis := Assess(message, violationResults, bypassResults);
  }

  /** With the fixed confidences the analysis reports 0.0, 0.8 or 0.9, and 0.0
      exactly when nothing was found. */
  lemma AnalysisConfidence(m: Matcher, message: string)
    ensures var r := Analysis(m, message);
      (r.confidence == 0.0 <==> !r.hasViolation && !r.hasBypass)
      && (r.hasViolation ==> r.confidence == 0.9)
      && (!r.hasViolation && r.hasBypass ==> r.confidence == 0.8)
  {
    ViolationsCharacterised(m, message);
    BypassesCharacterised(m, message);
  }
}
