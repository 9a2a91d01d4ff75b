/**
 * The fixed settings of the chat-moderation system (`Config` in
 * chat_moderation_system.py): the confidence constants, the violation
 * categories in the order they are tried, each category's regex sources, the
 * warning texts and the map from violation type to warning.
 */
module ModerationConfig {
  import opened Wrappers

  const PlatformName: string := "KRILI"

  /** Confidence of a regex category hit (`REGEX_CONFIDENCE`). */
  const RegexConfidence: real := 0.9
  /** Confidence of a smart-bypass hit. */
  const BypassConfidence: real := 0.8
  /** `ML_CONFIDENCE_THRESHOLD`: declared by the source, read by nothing. */
  const MLConfidenceThreshold: real := 0.7
  /** Inclusive gate above which a violation may be blocked (`COMBINED_CONFIDENCE_THRESHOLD`). */
  const CombinedThreshold: real := 0.6
  /** Confidence the classifier reports when it cannot score a message. */
  const DefaultMLConfidence: real := 0.1
  /** Factor applied to the classifier's confidence when it is not trained. */
  const UntrainedDiscount: real := 0.5

  /** The violation categories of `REGEX_PATTERNS`. */
  datatype Category = Email | Phone | PaymentLinks | ExternalPlatforms | OffPlatformKeywords

  /** The categories in dictionary order, which is the order they are tried in. */
  const Categories: seq<Category> := [Email, Phone, PaymentLinks, ExternalPlatforms, OffPlatformKeywords]

  function CategoryName(c: Category): string {
    match c
    case Email => "email"
    case Phone => "phone"
    case PaymentLinks => "payment_links"
    case ExternalPlatforms => "external_platforms"
    case OffPlatformKeywords => "off_platform_keywords"
  }

  const EmailPatterns: seq<string> := [
    @"\b[A-Za-z0-9._%+-]+@[A-Za-z0-9.-]+\.[A-Z|a-z]{2,}\b",
    @"\b[A-Za-z0-9._%+-]+\s*@\s*[A-Za-z0-9.-]+\s*\.\s*[A-Z|a-z]{2,}\b",
    @"\b[A-Za-z0-9._%+-]+\s*\[\s*at\s*\]\s*[A-Za-z0-9.-]+\s*\[\s*dot\s*\]\s*[A-Z|a-z]{2,}\b"
  ]

  const PhonePatterns: seq<string> := [
    @"\b(?:\+?1[-.\s]?)?\(?([0-9]{3})\)?[-.\s]?([0-9]{3})[-.\s]?([0-9]{4})\b",
    @"\b(?:\+?[1-9]\d{0,3}[-.\s]?)?\(?([0-9]{2,4})\)?[-.\s]?([0-9]{3,4})[-.\s]?([0-9]{3,4})\b",
    @"\b(?:zero|one|two|three|four|five|six|seven|eight|nine)[\s-]*(?:zero|one|two|three|four|five|six|seven|eight|nine)[\s-]*(?:zero|one|two|three|four|five|six|seven|eight|nine)\b"
  ]

  const PaymentLinksPatterns: seq<string> := [
    @"\b(?:paypal\.me|venmo\.com|cashapp\.com|zelle|cash\.app)/[A-Za-z0-9_-]+\b",
    @"\b(?:bit\.ly|tinyurl\.com|t\.co)/[A-Za-z0-9_-]+\b"
  ]

  const ExternalPlatformsPatterns: seq<string> := [
    @"\b(?:whatsapp|telegram|discord|skype|snapchat|instagram|facebook|twitter|tiktok)\b",
    @"\b(?:paypal|venmo|cashapp|zelle|western union|moneygram)\b",
    @"\b(?:gmail|yahoo|hotmail|outlook|protonmail)\b"
  ]

  const OffPlatformKeywordsPatterns: seq<string> := [
    @"\b(?:contact me|reach me|message me|call me|text me)\s+(?:at|on|via)\b",
    @"\b(?:send|transfer|pay)\s+(?:money|payment|cash)\s+(?:to|via|through)\b",
    @"\b(?:meet|transaction|deal)\s+(?:outside|off)\s+(?:platform|site|app)\b"
  ]

  /** The regex sources of one category, in list order. */
  function Patterns(c: Category): seq<string> {
    match c
    case Email => EmailPatterns
    case Phone => PhonePatterns
    case PaymentLinks => PaymentLinksPatterns
    case ExternalPlatforms => ExternalPlatformsPatterns
    case OffPlatformKeywords => OffPlatformKeywordsPatterns
  }

  /** The four risk grades of the system, from least to most severe. */
  datatype RiskLevel = Low | Medium | High | Critical

  /** What happens to a message. */
  datatype Action = Allow | Warn | Block

  /** Keys of `WARNING_MESSAGES`. */
  datatype WarningKey = PersonalInfo | ExternalPlatform | OffPlatformTransaction | General

  const Prohibited: string := "\U{1F6AB} "

  function WarningMessage(k: WarningKey): string {
    match k
    case PersonalInfo =>
      Prohibited + "Sharing personal info or off-platform payment methods is not allowed. Please use the secure system inside " + PlatformName + "."
    case ExternalPlatform =>
      Prohibited + "Mentions of external platforms are not allowed. Please keep all communications within " + PlatformName + "."
    case OffPlatformTransaction =>
      Prohibited + "Attempting to move transactions outside " + PlatformName + " is prohibited. Use our secure payment system."
    case General =>
      Prohibited + "This message violates our community guidelines. Please use " + PlatformName + "'s secure features."
  }

  /** The violation types `_get_warning_message` maps to a key of its own. */
  const MappedTypes: set<string> := {"email", "phone", "contact_sharing", "payment_links",
    "off_platform_keywords", "payment_request", "external_platforms", "platform_redirect"}

  /** `warning_mapping.get(violation_type, 'general')`: eight violation-type names
      have a key of their own, every other name and `None` fall back to General. */
  function WarningKeyOf(violationType: Option<string>): (k: WarningKey)
    ensures (violationType == Some("email") || violationType == Some("phone")
             || violationType == Some("contact_sharing")) ==> k == PersonalInfo
    ensures (violationType == Some("payment_links") || violationType == Some("off_platform_keywords")
             || violationType == Some("payment_request")) ==> k == OffPlatformTransaction
    ensures violationType == Some("external_platforms") || violationType == Some("platform_redirect") ==> k == ExternalPlatform
    ensures violationType.None? ==> k == General
    ensures violationType.Some? && violationType.value !in MappedTypes ==> k == General
  {
    match violationType
    case None => General
    case Some(t) =>
      if t == "email" || t == "phone" || t == "contact_sharing" then PersonalInfo
      else if t == "payment_links" || t == "off_platform_keywords" || t == "payment_request" then OffPlatformTransaction
      else if t == "external_platforms" || t == "platform_redirect" then ExternalPlatform
      else General
  }
}
