# KRILI back end: chat moderation, security helpers, recommendations and routes

A Dafny model of the core of the KRILI rental-marketplace back end.

- **Chat moderation** (`chat_moderation_system.py`):
  - the regex detector, with its message normaliser, first-hit category scan, smart-bypass rules, context window and risk table;
  - the machine-learning detector's contract with its classifier;
  - the moderation engine, which merges the regex analysis, the classifier and the sender's history into one verdict, decides allow, warn or block, writes the `flagged_messages` and `user_stats` tables and keeps its own counters;
  - batch moderation and the statistics.
- **Security helpers** (`enhanced_security.go`, `secure_system.go`): sensitive operations, geo-blocking, TOTP and biometric checks, the risk score, the password-strength rules, real-IP extraction, the rate limiter and the suspicious-behaviour log, the health grade, alert titles, paging and configuration checks, and the payment and payout gates.
- **Recommendations** (the data-structure parts of `recommendation_engine.py`): rank aggregation, diversity boosting, hybrid and ensemble merging, the UCB bandit, A/B assignment, the real-time session store and the stream buffer.
- **Flask routes** (`routes/items_routes.py`, `routes/rentals_routes.py`, `routes/users_routes.py`): item listing with its filters and paging, item creation, rental booking and listing, the profile lookup and the profile update. For each route the model gives the SQL text it builds and the parameters that go with it, and proves that the statement has one `%s` placeholder per parameter.

## How the model is built

- **Pure code** becomes functions with lemmas about them. This covers the regex tables, the risk table, the decision and the SQL builders.
- **Loops in the source** become methods with loop invariants, each proved equal to a specification function. This covers the category and bypass scans, the normaliser's replacement loops, score accumulation, diversity boosting, the password rules and the profile-update loop.
- **Objects whose fields the source updates** become classes whose methods state their new state: `Database`, `Engine`, `Detector`, `SecurityService`, `Bandit`, `ABTester`, `RealtimeRecommender` and `StreamProcessor`.

How the moderation engine is modelled:

- `Step` states what one `moderate_message` call does to the whole state: both tables and the engine's counters.
- `Engine.ModerateMessage` does the same work step by step and is proved equal to `Step`.
- An exception inside the `try` block is an explicit `Fault` parameter naming the stage that raised.
- The elapsed time is a parameter.
- The engine holds its regex detector as a function value, which the constructor sets to `RegexAnalyzer(matcher)`.

How outside machinery is handled:

- The regex engine is a `Matcher` given as a parameter. It answers `findall` and `search` for a compiled regex. A compiled regex is named by its place in the configuration, and `Source` gives the text it was compiled from.
- The scikit-learn classifier is a `ModelState`, which gives a prediction per message once trained.
- Database rows that a route reads are parameters. So are the insert's result and Python's `float()` parsing of text.

Texts are carried as keys where the source compares or maps them:

- warnings as `WarningKey`, with `WarningMessage` giving the text;
- password errors as `PasswordIssue`, with `IssueMessage` giving the text;
- `create_item` errors as `ItemError`, with `ErrorText` giving the text.

Where the code and its design notes disagree, the model follows the code:

- **The worked example.** "Contact me at john.doe@gmail.com" is not caught as an e-mail with confidence 0.9. Normalisation turns the address into "j0hn.d0e@gmai1.c0m", which no category regex matches. Only the `contact_bypass` rule fires, so the confidence is 0.8 × 0.9 = 0.72: a high risk, blocked with the general warning and stored with type `unknown` (`ContactExampleOutcome`).
- **Training.** `train_models` refits the served pipeline in place. With a single label it returns silently, with no error and no swap of models. An exception from the split or the fit is not caught: it reaches the caller, and a fit that fails part-way leaves the served pipeline partly refitted.
- **Fail-open.** When the database write raises, `is_flagged`, the confidence and the type already merged from the decision stay in the result; only the action becomes `allow`.
- **Counters.** The engine's counters and the `user_stats` updates are plain read-modify-write steps with no locking.

## Model

| member | source | states |
|---|---|---|
| `ModerationConfig.WarningKeyOf` | chat_moderation_system.py:850-864 | email, phone and contact_sharing map to the personal-info warning; payment_links, off_platform_keywords and payment_request map to the off-platform-transaction warning; external_platforms and platform_redirect map to the external-platform warning; no type at all, and every other name, maps to the general warning |
| `ModerationDatabase.Bumped` | chat_moderation_system.py:263-291 | `_update_user_stats`: the row is created if it is missing and counts one more message (and one more flag when flagged); the risk becomes flagged/total; no other row changes and the user's key is added |
| `ModerationDatabase.BumpedConsistent` | chat_moderation_system.py:263-291 | an update keeps every row consistent: at least one message, no more flags than messages, risk equal to the flagged fraction |
| `ModerationDatabase.RiskInUnitInterval` | chat_moderation_system.py:242-261 | in a consistent table, every user's risk, including the zero row of an unknown user, lies in [0, 1], with flags at most the total |
| `ModerationDatabase.FractionInUnitInterval` | chat_moderation_system.py:289 | the risk quotient flagged/total lies in [0, 1] when 0 < total and flagged ≤ total |
| `ModerationDatabase.CountFlagged` | chat_moderation_system.py:269-277 | the number of flagged updates never exceeds the number of updates |
| `ModerationDatabase.ReplayFromFresh` | chat_moderation_system.py:263-291 | after n updates for a user with no row, the row counts n messages and one flag per flagged update, with risk equal to their ratio and no false positives; all other rows are unchanged |
| `ModerationDatabase.NewRecord` | chat_moderation_system.py:179-192 | the inserted row stores the patterns as NULL exactly when the list is empty, and otherwise stores the list itself |
| `ModerationDatabase.Database.constructor` | chat_moderation_system.py:125-177 | both tables start empty and consistent |
| `ModerationDatabase.Database.GetUserStats` | chat_moderation_system.py:242-261 | returns the stored row, or the all-zero row for an unknown user |
| `ModerationDatabase.Database.UpdateUserStats` | chat_moderation_system.py:263-291 | the table becomes `Bumped(old, user, flagged)`; flagged rows are untouched and consistency is kept |
| `ModerationDatabase.Database.LogFlaggedMessage` | chat_moderation_system.py:179-200 | appends the row under the next id (1, 2, 3, … in order), returns that id and counts a flagged message for the user |
| `ModerationDatabase.Database.LogSafeMessage` | chat_moderation_system.py:202-207 | counts an unflagged message for the user; no row is added |
| `MLDetector.PredictViolation` | chat_moderation_system.py:552-592 | a violation is reported exactly when a trained model predicts class 1, with the model's probability as the confidence; without scikit-learn, with an untrained model or when prediction raises, the result is no violation at 0.1 |
| `MLDetector.UntrainedDiscountUnreachable` | chat_moderation_system.py:783-790 | only a trained model can report a violation, so the engine's halving of an untrained model's confidence never applies; an untrained model always answers (false, 0.1) |
| `MLDetector.Labels` | chat_moderation_system.py:601-603 | the label set holds exactly the labels that occur in the data |
| `MLDetector.AfterTraining` | chat_moderation_system.py:594-622 | training refits exactly when scikit-learn is present, the data is non-empty, at least two labels occur and the fit succeeds, and the refitted pipeline is then served; past those guards an exception from the split or the fit is raised to the caller, the split's leaving the model unchanged and the fit's leaving the partly refitted pipeline in service; the three early returns leave the model unchanged |
| `MLDetector.OneLabelKeepsModel` | chat_moderation_system.py:603-605 | a training set with a single label never changes the served model |
| `MLDetector.Detector.constructor` | chat_moderation_system.py:469-477 | the detector serves the model it was loaded with |
| `MLDetector.Detector.Train` | chat_moderation_system.py:594-622 | the guards run in source order, then the model is refitted in place, so a failing fit leaves its partial state; the new state and outcome (including a raised exception) are `AfterTraining` of the old state |
| `RegexDetector.Compiled` | chat_moderation_system.py:304-309 | each category compiles one regex per source, in list order |
| `RegexDetector.CompiledFromSources` | chat_moderation_system.py:91-116 | the i-th compiled regex of a category is built from the i-th source of `REGEX_PATTERNS` for that category |
| `RegexDetector.FirstHit` | chat_moderation_system.py:325-339 | the index found is a category that hits and no earlier category hits; no index means no category hits |
| `RegexDetector.DetectViolations` | chat_moderation_system.py:311-341 | the category loop with its `break` returns `Violations(m, message)` |
| `RegexDetector.CategoryMatches` | chat_moderation_system.py:326-331 | the inner loop yields the matches of every pattern of the category, concatenated in pattern order |
| `RegexDetector.FirstHitAt` | chat_moderation_system.py:333-339 | the first category that hits is the one the loop breaks on |
| `RegexDetector.NoFirstHit` | chat_moderation_system.py:325-341 | with no category hitting, no index is found |
| `RegexDetector.ViolationsCharacterised` | chat_moderation_system.py:311-341 | no violation exactly when no category hits the normalised message, and then the result is the all-clear; a violation names a category that hits before which none hits, at confidence 0.9, with that category's matches and details |
| `RegexDetector.CategoriesDistinct` | chat_moderation_system.py:91-116 | each category occurs once in the scan order |
| `RegexDetector.PatternMatchesEmpty` | chat_moderation_system.py:328-333 | a category's match list is empty exactly when none of its patterns finds anything |
| `RegexDetector.BypassRulesFromSources` | chat_moderation_system.py:383-398 | the nine bypass rules are compiled in order from their nine pattern sources |
| `RegexDetector.FirstRule` | chat_moderation_system.py:402-410 | the rule found matches and no earlier rule matches; no rule found means none matches |
| `RegexDetector.Context` | chat_moderation_system.py:414-421 | the context is empty or a piece of the message inside the window of 20 characters either side of the match; it has no whitespace at either end; it contains the match whenever the match neither starts nor ends with whitespace |
| `RegexDetector.StrippedWindow` | chat_moderation_system.py:419-421 | the stripped window sits inside the clamped bounds and covers a match that starts and ends with non-space |
| `RegexDetector.StrippedPiece` | chat_moderation_system.py:421 | `message[lo:hi].strip()` sits in the message at lo plus the stripped offset and covers any span inside the slice that starts and ends with non-space |
| `RegexDetector.ExtractContext` | chat_moderation_system.py:414-424 | there is a context exactly when `re.search` finds the pattern in the original message, and it is the stripped window around that match |
| `RegexDetector.DetectSmartBypasses` | chat_moderation_system.py:373-412 | the rule loop with its `break` returns `Bypasses(m, message)` |
| `RegexDetector.BypassesCharacterised` | chat_moderation_system.py:373-412 | a bypass is reported exactly when some rule matches the lower-cased message, and otherwise the result is the all-clear; a reported bypass has the type of the first matching rule, its non-empty matches, confidence 0.8, and the context from the original message |
| `RegexDetector.Assess` | chat_moderation_system.py:434-460 | both findings give critical/block; a violation alone gives high/block; a bypass alone gives medium/warn; neither gives low/allow; the confidence is the larger of the findings' confidences, and 0.0 with none |
| `RegexDetector.AnalyzeMessageRisk` | chat_moderation_system.py:426-460 | both scans, then the risk table; equals `Analysis(m, message)` |
| `RegexDetector.AnalysisConfidence` | chat_moderation_system.py:426-460 | the analysis confidence is 0.9 with a violation, 0.8 with a bypass alone, and 0.0 exactly when nothing was found |
| `Normalizer.SkipSpaces` | chat_moderation_system.py:369 | drops a whitespace prefix: the result is a suffix that starts with non-space |
| `Normalizer.CollapseWhitespace` | chat_moderation_system.py:369 | `re.sub(r'\s+', ' ', s)`: no two whitespace characters are adjacent, the only whitespace left is ' ', and the result starts with whitespace exactly when the input does |
| `Normalizer.CollapseKeeps` | chat_moderation_system.py:369 | collapsing keeps exactly the non-whitespace characters that occur |
| `Normalizer.SkipSpacesPrefix` | chat_moderation_system.py:369 | every character that `SkipSpaces` drops is whitespace |
| `Normalizer.NormalizeMessage` | chat_moderation_system.py:343-371 | lower-case, replace each alternative by its target in table order, then collapse whitespace; equals `Normalize(message)` |
| `Normalizer.ReplaceAll` | chat_moderation_system.py:364-366 | the two nested replacement loops compute `ApplyTable` for any table with no empty alternative |
| `Normalizer.ReplaceKeepsAbsent` | chat_moderation_system.py:366 | `str.replace` never introduces a character that is in neither the text nor the replacement |
| `Normalizer.ReplaceRemovesChar` | chat_moderation_system.py:366 | replacing a one-character pattern removes that character unless the replacement contains it |
| `Normalizer.AlternativesKeepAbsent` | chat_moderation_system.py:365-366 | one entry's replacements never introduce a character that its target lacks |
| `Normalizer.AlternativesRemove` | chat_moderation_system.py:365-366 | a one-character alternative is gone after its entry when the target does not contain it |
| `Normalizer.TableKeepsAbsent` | chat_moderation_system.py:364-366 | a character that no target introduces stays absent through the whole table |
| `Normalizer.TableRemoves` | chat_moderation_system.py:364-366 | a character that some entry replaces, and that no target reintroduces, is absent after the table |
| `Normalizer.ReplacementsWellFormed` | chat_moderation_system.py:346-359 | no alternative of the replacement table is empty |
| `Normalizer.ReplacementTargets` | chat_moderation_system.py:346-359 | "o" and "l" are alternatives (of '0' and '1'), and every target is a digit, '@' or '.' |
| `Normalizer.TableGuarantees` | chat_moderation_system.py:346-366 | on lower-cased text the table leaves no 'o', no 'l' and no upper-case ASCII letter |
| `Normalizer.NormalizeGuarantees` | chat_moderation_system.py:343-371 | a normalised message has no 'o', no 'l', no upper-case ASCII letter and no two adjacent whitespace characters |
| `ModerationDecision.Sources` | chat_moderation_system.py:876 | lists the source of each evidence entry, in order |
| `ModerationDecision.Strongest` | chat_moderation_system.py:747-798 | the running `max` from 0.0 is non-negative, at least every evidence confidence, and equal to one of them or to 0.0 |
| `ModerationDecision.HistoryAdjustFacts` | chat_moderation_system.py:800-804 | the history adjustment keeps [0, 1], is monotone, never lowers a risky sender's confidence, never raises a clean sender's, and leaves the middle band unchanged |
| `ModerationDecision.RiskLevelOf` | chat_moderation_system.py:806-814 | critical from 0.9, high in [0.7, 0.9), medium in [0.5, 0.7), low below 0.5 (each band in both directions) |
| `ModerationDecision.RiskLevelMonotone` | chat_moderation_system.py:806-814 | a higher confidence never lands in a lower band |
| `ModerationDecision.Combine` | chat_moderation_system.py:744-816 | a violation exactly when some source fired; the type comes from the regex categories only; the evidence is the regex, bypass and ml entries in that order, each present exactly when it fired, with the ml confidence halved for an untrained model; the confidence is the history-adjusted maximum of the evidence and 0.0; the risk band is taken from it |
| `ModerationDecision.CombinedConfidenceIsAdjustedMax` | chat_moderation_system.py:761-804 | the combined confidence is the history adjustment of max(0.0, regex, regex_bypass, ml), each source counting 0.0 when it did not fire and the ml confidence halved when the model is untrained |
| `ModerationDecision.StrongestSnoc` | chat_moderation_system.py:763-792 | one more evidence entry takes one more `max` into the confidence |
| `ModerationDecision.CombinedConfidenceInUnitInterval` | chat_moderation_system.py:747-816 | the combined confidence stays in [0, 1] when every source's confidence does |
| `ModerationDecision.OnlyRegexSetsType` | chat_moderation_system.py:761-798 | a message caught only by the bypass rules or the classifier has no violation type |
| `ModerationDecision.GetWarningMessage` | chat_moderation_system.py:850-864 | the message is the warning text of the type's key, so an unmapped or absent type gets the general warning |
| `ModerationDecision.MakeFinalDecision` | chat_moderation_system.py:818-848 | flagged exactly when there is a violation; allow with no warning exactly when there is none; block exactly when there is a violation at or above the 0.6 gate with a critical or high risk; below the gate the general warning, otherwise the type's warning |
| `ModerationDecision.BlockIffStrongViolation` | chat_moderation_system.py:806-848 | with the band taken from the confidence, a message is blocked exactly when it has a violation with confidence at least 0.7; between 0.6 and 0.7 it is warned |
| `ModerationDecision.DetectionMethod` | chat_moderation_system.py:876-877 | the detection method is exactly the set of evidence sources |
| `ModerationDecision.StoredType` | chat_moderation_system.py:882 | `violation_type or 'unknown'`: a non-empty type is kept; no type is stored as 'unknown' |
| `ModerationDecision.PatternsFromRegexOnly` | chat_moderation_system.py:868-873 | the stored patterns are the category matches followed by the bypass matches; the classifier adds none |
| `ModerationDecision.PatternsAppend` | chat_moderation_system.py:871-873 | collecting patterns over one more evidence entry appends that entry's patterns |
| `ModerationEngine.AttemptAfterDecided` | chat_moderation_system.py:721-735 | once the decision is merged, the attempt either raises at the write (nothing written, fail open) or records the verdict |
| `ModerationEngine.StepSucceeds` | chat_moderation_system.py:680-742 | a successful call answers for the message and sender; it is flagged exactly when some detector fired and carries the final decision and the combined analysis, with the risk read before the message is counted; a flagged message gets a row; the user row and the engine's counters each count one more message (and flag), plus one processing time |
| `ModerationEngine.StepFails` | chat_moderation_system.py:732-740 | a call that raises writes nothing and moves no counter except the processing times; it allows and records the error; raising at the write keeps the merged flag and confidence; raising earlier leaves the result unflagged at 0.0 with no type |
| `ModerationEngine.StepBlocksIff` | chat_moderation_system.py:680-742 | a successful call blocks exactly the flagged messages whose confidence is at least 0.7 |
| `ModerationEngine.StepCoherent` | chat_moderation_system.py:680-742 | every call keeps the counters coherent with the ledger: flagged ≤ total, one row per flag, ids in order, consistent user rows |
| `ModerationEngine.RecordCoherent` | chat_moderation_system.py:721-730 | step 5 and the counter update keep the state coherent |
| `ModerationEngine.BatchInOrder` | chat_moderation_system.py:888-896 | `batch_moderate` returns one result per message, in input order, each for its own message and sender |
| `ModerationEngine.StepKeepsSender` | chat_moderation_system.py:684-688 | every call, failed or not, answers for the message and sender it was given |
| `ModerationEngine.BatchCoherent` | chat_moderation_system.py:888-896 | a batch keeps the state coherent |
| `ModerationEngine.ContactExampleOutcome` | chat_moderation_system.py:1295 | the worked example "Contact me at john.doe@gmail.com" from a new sender with an untrained model is flagged and blocked at 0.72 with high risk, no type and the general warning |
| `ModerationEngine.ContactExampleRecorded` | chat_moderation_system.py:1295 | the worked example stores a row typed 'unknown' with detection method 'regex_bypass' and the bypass matches, and gives the sender the row (1, 1, 0, 1.0) |
| `ModerationEngine.ContactExampleVerdict` | chat_moderation_system.py:744-848 | the worked example's combined analysis has only bypass evidence, at 0.72, high risk, leading to a block with the general warning |
| `ModerationEngine.ContactExampleAnalysis` | chat_moderation_system.py:426-460 | the worked example's regex analysis finds no category and reports the `contact_bypass` rule at 0.8 with its matches |
| `ModerationEngine.BypassOnlyVerdict` | chat_moderation_system.py:772-816 | a bypass alone from a sender with risk 0.0 is lowered from 0.8 to 0.72, gives high risk and is blocked with the general warning, with the bypass matches and 'regex_bypass' as the stored method |
| `ModerationEngine.FreshUserFlagged` | chat_moderation_system.py:263-291 | the first, flagged message of a new user creates the row (1, 1, 0, 1.0) |
| `ModerationEngine.StatisticsOf` | chat_moderation_system.py:898-917 | the flagged rate is flagged/total, and 0 with no messages; the false-positive rate is 0 with no flags; for a coherent state the rate is in [0, 1] and the false-positive rate is 0 |
| `ModerationEngine.RateFacts` | chat_moderation_system.py:904 | in a coherent state the flagged rate lies in [0, 1] |
| `ModerationEngine.Engine.constructor` | chat_moderation_system.py:666-678 | a fresh engine over empty tables with zero counters, serving the given model and the regex detector over the given matcher |
| `ModerationEngine.Engine.CombineDetectionResults` | chat_moderation_system.py:744-816 | equals `Combine` of the two results, the model's trained flag and the sender's stored risk |
| `ModerationEngine.Engine.CollectEvidence` | chat_moderation_system.py:760-798 | the three `if` blocks set the flag exactly when a source fired, take the regex type, build the evidence list and keep its running maximum |
| `ModerationEngine.Engine.LogFlaggedMessage` | chat_moderation_system.py:866-886 | appends the row with the collected patterns, the set of sources and the stored type, and counts a flagged message for the sender |
| `ModerationEngine.Engine.RecordOutcome` | chat_moderation_system.py:721-730 | step 5 and the counter update take the state to `Record(old state, result, combined)` |
| `ModerationEngine.Engine.ModerateMessage` | chat_moderation_system.py:680-742 | one call takes the state and result to `Step(old state, …)` and keeps the engine valid |
| `ModerationEngine.Engine.TryModerate` | chat_moderation_system.py:702-735 | the `try` block with its fail-open branch equals `Attempt(old state, …)` |
| `ModerationEngine.Engine.Decide` | chat_moderation_system.py:702-719 | raises exactly at the first three stages, leaving the attempt's fail-open result and no write; otherwise gives the merged decision and combined analysis of `Decided` |
| `ModerationEngine.Engine.BatchModerate` | chat_moderation_system.py:888-896 | the loop takes the state and results to `Batch(old state, …)` |
| `ModerationEngine.Engine.GetStatistics` | chat_moderation_system.py:898-917 | the counters and rates of `StatisticsOf` the state; the flagged rate is in [0, 1] and the false-positive rate is 0 |
| `EnhancedSecurity.IsSensitiveOperation` | enhanced_security.go:469-477 | true exactly when the path contains "/payments", "/payouts", "/balance" or "/withdraw" |
| `EnhancedSecurity.IsHighRiskLocation` | enhanced_security.go:775-783 | true exactly when the location contains one of CN, RU, KP, IR, SY, AF |
| `EnhancedSecurity.GeoBlocked` | enhanced_security.go:372-383 | true exactly when the location contains one of CN, RU, KP, IR |
| `EnhancedSecurity.GeoBlockedIsHighRisk` | enhanced_security.go:373 | every geo-blocked location is also a high-risk location |
| `EnhancedSecurity.PlaceholderLocationIsSafe` | enhanced_security.go:769-773 | the placeholder location "US" is neither high-risk nor geo-blocked |
| `EnhancedSecurity.ValidateTOTP` | enhanced_security.go:809-813 | accepted exactly when the token is six bytes long and not "000000" |
| `EnhancedSecurity.TOTPAcceptsSixDigits` | enhanced_security.go:809-813 | every six-digit code except "000000" is accepted, whatever the secret |
| `EnhancedSecurity.CompareBiometricData` | enhanced_security.go:815-819 | a match exactly when template and sample are equal, hence symmetric |
| `EnhancedSecurity.RiskScore` | enhanced_security.go:597-629 | the score is at most 125, and positive exactly when some risk factor is present |
| `EnhancedSecurity.CalculateRiskScore` | enhanced_security.go:597-629 | adds 30, 25, 15, 20 and 35 for the factors that hold; equals `RiskScore` and lies in [0, 125] |
| `EnhancedSecurity.RiskScoreMonotone` | enhanced_security.go:597-629 | more risk factors never lower the score |
| `EnhancedSecurity.PlaceholdersNeverReview` | enhanced_security.go:347 | with the placeholder location and IP reputation the score is at most 60, so the "> 80" manual-review gate never fires |
| `EnhancedSecurity.Report` | enhanced_security.go:904-932 | a rule reports nothing exactly when it passes |
| `EnhancedSecurity.CollectInOrder` | enhanced_security.go:901-935 | the issues come in the order the rules are checked |
| `EnhancedSecurity.CollectMembers` | enhanced_security.go:901-935 | an issue is collected exactly when its own rule's check failed |
| `EnhancedSecurity.ValidatePasswordStrength` | enhanced_security.go:901-935 | the checks in order, with the common-password loop stopping at the first match, give exactly `PasswordIssues(password)` |
| `EnhancedSecurity.PasswordAcceptedIff` | enhanced_security.go:901-935 | no error exactly when the password has at least 12 bytes, a lower-case letter, an upper-case letter, a digit and a special character, and is not common |
| `EnhancedSecurity.PasswordIssuesOnce` | enhanced_security.go:901-935 | each rule is reported exactly when it fails; the reports are in rule order, so none is reported twice |
| `EnhancedSecurity.MessagesDistinct` | enhanced_security.go:905-929 | the six error messages are pairwise different |
| `EnhancedSecurity.CommonIsShort` | enhanced_security.go:925 | every common password is shorter than 12 bytes, so a password reported as too common is always reported as too short too |
| `EnhancedSecurity.Candidate` | enhanced_security.go:456-459 | without a comma the value is used as is; with one, the trimmed part before the first comma, which is shorter and has no comma |
| `EnhancedSecurity.FirstParsable` | enhanced_security.go:451-464 | the answer comes from the first header, in order, whose non-empty candidate parses as an IP; no answer means no header is usable |
| `EnhancedSecurity.GetRealIP` | enhanced_security.go:449-467 | returns the first usable header's candidate, otherwise the connection's client IP |
| `EnhancedSecurity.RateLimitStep` | enhanced_security.go:174-220 | rejects as blocked exactly when a live block exists, changing nothing; otherwise clears an expired block; a limiter refusal blocks the IP for 15 minutes; other IPs are untouched |
| `EnhancedSecurity.LockoutHolds` | enhanced_security.go:204-208 | after a refusal the IP is rejected for the next 15 minutes whatever its limiter says |
| `EnhancedSecurity.Recent` | enhanced_security.go:505-511 | keeps exactly the attempts younger than five minutes, each as often as it occurs, as a subsequence of the list (order kept) |
| `EnhancedSecurity.PruneAttempts` | enhanced_security.go:505-511 | the pruning loop returns `Recent` of the stored list |
| `EnhancedSecurity.RecordAttempt` | enhanced_security.go:501-522 | a new key gets exactly [now]; a key with more than 10 recent attempts is left as it was; otherwise the key gets exactly `Recent` of its list followed by now (at most 11, all in the window); other keys are unchanged |
| `EnhancedSecurity.RecordAttemptBounded` | enhanced_security.go:504-522 | no key ever holds more than 11 attempts |
| `EnhancedSecurity.SecurityService.constructor` | enhanced_security.go:143-148 | the block list and the attempt table start empty |
| `EnhancedSecurity.SecurityService.RateLimit` | enhanced_security.go:174-220 | the block list and verdict are `RateLimitStep` of the old list |
| `EnhancedSecurity.SecurityService.DetectSuspiciousBehavior` | enhanced_security.go:495-535 | the attempt table becomes `RecordAttempt` of the old one; suspicious exactly when the key already had more than 10 recent attempts or the lower-cased user agent contains bot, crawler, spider or scraper |
| `SecureSystem.Deduction` | secure_system.go:1301-1329 | a metric costs nothing exactly when it is at or below the lower threshold, and never more than the large deduction |
| `SecureSystem.Deductions` | secure_system.go:1298-1329 | the five deductions add up to at most 110 points |
| `SecureSystem.HealthScore` | secure_system.go:1298-1329 | the score lies between -10 and 100, and is 100 exactly when failed logins, blocked IPs, high-risk users, critical alerts and fraud detections are all at or below their lower thresholds (50, 10, 20, 5 and 10) |
| `SecureSystem.HealthOf` | secure_system.go:1331-1342 | excellent exactly at 90 or more, good exactly from 75 below 90, fair exactly from 60 below 75, poor exactly from 40 below 60, critical exactly below 40 |
| `SecureSystem.CalculateSystemHealth` | secure_system.go:1297-1343 | the status is the name of the grade of the metrics' score |
| `SecureSystem.DeductionMonotone` | secure_system.go:1301-1329 | a larger metric never costs fewer points |
| `SecureSystem.HealthMonotone` | secure_system.go:1297-1343 | metrics that are no better in any field never give a higher score or a better grade |
| `SecureSystem.OneMetricAtLeastFair` | secure_system.go:1297-1343 | with at most one metric above its lower threshold the grade is fair or better |
| `SecureSystem.AllBadIsCritical` | secure_system.go:1297-1343 | every metric above its upper threshold gives score -10 and the critical grade |
| `SecureSystem.GenerateAlertTitle` | secure_system.go:1815-1846 | a known (type, severity) pair gets its table title; any other pair gets "severity: type Event" |
| `SecureSystem.FixedTitlesExactly` | secure_system.go:1816-1837 | the table covers exactly four event types by three severities |
| `SecureSystem.FixedTitleHeading` | secure_system.go:1816-1837 | each table title opens with its capitalised severity and a colon |
| `SecureSystem.TitleOpensWithSeverity` | secure_system.go:1815-1846 | every title, table or fallback, opens with the severity and a colon, up to letter case |
| `SecureSystem.EventsOffsetOfPage` | secure_system.go:1850-1855 | the offset is (page - 1) * limit, and 0 with the defaults |
| `SecureSystem.UnparsablePageGoesNegative` | secure_system.go:1850-1855 | an unparsable page becomes 0, so the offset with the default limit is -50 |
| `SecureSystem.ClampHistoryLimit` | secure_system.go:2990-2996 | the limit is the parsed query value (default 20, 0 when unparsable) capped at 100 |
| `SecureSystem.HistoryLimitExamples` | secure_system.go:2990-2996 | no query gives 20, "-5" gives -5 (no lower clamp), "x" gives 0 |
| `SecureSystem.ValidateSecurityConfig` | secure_system.go:3040-3055 | the default JWT secret is reported first, then the default encryption key, then a JWT secret shorter than 32 bytes; no error exactly when none holds |
| `SecureSystem.DefaultSecretIsLongEnough` | secure_system.go:3042 | the default JWT secret is 37 bytes long, so only the equality test rejects it |
| `SecureSystem.IsSensitiveEndpoint` | secure_system.go:3057-3073 | true exactly when the path contains one of the five sensitive prefixes |
| `SecureSystem.MoneyEndpointsAreSensitiveOperations` | secure_system.go:3057-3073 | a sensitive payments, payouts or balance path is also a sensitive operation for the enhanced-security service |
| `SecureSystem.PaymentGate` | secure_system.go:2877-2905 | 400 exactly when the body does not bind; 403 exactly when it binds and the risk score exceeds 80 |
| `SecureSystem.PayoutGate` | secure_system.go:2932-2960 | 400 exactly when the body does not bind; 403 exactly when it binds and the risk score exceeds 70 |
| `SecureSystem.PayoutStricter` | secure_system.go:2877-2960 | any payment refused for risk is also refused as a payout; scores 71 to 80 refuse only payouts |
| `SecureSystem.GatesAfterMiddleware` | enhanced_security.go:346-352 | a score the transaction middleware let through never trips the payment gate; with the placeholder location and IP reputation, neither gate fires |
| `Ranking.SortByScore` | recommendation_engine.py:857 | the result is sorted by descending score and is a permutation of the input |
| `Ranking.Insert` | recommendation_engine.py:857 | inserting into a descending list keeps it descending and adds exactly the one entry |
| `Ranking.PyPrefix` | recommendation_engine.py:858 | `xs[:n]`: a prefix of the list, of length min(n, len) for a non-negative n and max(0, len + n) for a negative n |
| `Ranking.PointsSign` | recommendation_engine.py:852-854 | a list gives no points to an item it does not hold; with a positive weight its points are non-negative, and positive for an item it holds |
| `Ranking.TotalPositiveIff` | recommendation_engine.py:852-854 | with positive weights an item's total is positive exactly when some list holds it |
| `Ranking.PointsAtIndex` | recommendation_engine.py:853-854 | in a list without repeats, the item at index i gets weight times (len - i) |
| `Ranking.SingleListKeepsOrder` | recommendation_engine.py:852-857 | a single list with a positive weight and no repeats keeps its order after aggregation |
| `Ranking.AddListScores` | recommendation_engine.py:852-854 | one list's pass adds its points to each item's entry, creating missing entries; the keys stay distinct and match the dictionary |
| `Ranking.AggregateScores` | recommendation_engine.py:851-854 | the dictionary holds exactly the items of the lists, each with its total over all lists |
| `Ranking.RankedEntries` | recommendation_engine.py:857 | the sorted items list is descending and holds exactly one (item, score) pair per key |
| `Ranking.DiversifyFacts` | recommendation_engine.py:265-278 | the kept items keep the input's order, each has a genre, no two share a genre, and at most top_n are kept (one when top_n is not positive) |
| `Ranking.DiversifyCovers` | recommendation_engine.py:265-278 | when fewer than top_n are kept, every genre of the input is represented |
| `Ranking.DiversifyHead` | recommendation_engine.py:268-277 | an item without a genre is skipped, an item of a seen genre is skipped unless the list is full, an item of a new genre is kept |
| `Ranking.DiversifyFirstOfGenre` | recommendation_engine.py:265-278 | every kept item is the first item of its genre in the input |
| `Ranking.BoostDiversity` | recommendation_engine.py:265-278 | the loop returns what `Diversify` keeps of the recommendations |
| `Ranking.RankAggregate` | recommendation_engine.py:851-857 | the ranking is descending, each entry carries its item's total, it holds every listed item and no item twice |
| `Ranking.RankedEntriesOnce` | recommendation_engine.py:857 | each pair occurs at most once in the sorted list |
| `Ranking.HybridRecommend` | recommendation_engine.py:836-862 | the ranking aggregates the lists; the answer is the diversity filter of the top 20 with ten places, or the top 10 |
| `Ranking.EnsembleRecommend` | recommendation_engine.py:1632-1672 | the ranking aggregates the models' lists; the answer and its scores are the first n entries |
| `Ranking.RankedHeadIsBest` | recommendation_engine.py:857-858 | the first ranked item has the largest total of all listed items |
| `Recommenders.MeanBounds` | recommendation_engine.py:1342-1346 | the mean of rewards that lie in [lo, hi] lies in [lo, hi] |
| `Recommenders.LastN` | recommendation_engine.py:1421-1422 | `xs[-n:]`: the newest min(len, n) entries, in order, ending with the newest one |
| `Recommenders.Bandit.constructor` | recommendation_engine.py:1335-1340 | the reward and count tables start empty and no interaction is counted |
| `Recommenders.Bandit.GetItemScore` | recommendation_engine.py:1342-1346 | 0.0 for an item never rewarded; otherwise the mean of its recorded rewards, of which there is at least one |
| `Recommenders.Bandit.ItemScoreWithinRewards` | recommendation_engine.py:1342-1346 | the score of a rewarded item lies within the bounds of its rewards |
| `Recommenders.Bandit.UpdateReward` | recommendation_engine.py:1414-1422 | the item's count and the interaction total go up by one; its rewards become the newest 100 of the old ones plus the new reward; other items are untouched |
| `Recommenders.Bandit.UcbEntries` | recommendation_engine.py:1367-1380 | one (item, key) entry per available item, in order: +inf for an item never rewarded, else mean plus bonus |
| `Recommenders.Bandit.SelectItemsUCB` | recommendation_engine.py:1362-1383 | nothing for no items; otherwise the items of the first n entries of the UCB entries sorted by descending key |
| `Recommenders.Bandit.UcbExploresFirst` | recommendation_engine.py:1362-1383 | the selection has min(n, items) entries; never-rewarded items come before rewarded ones, and once a rewarded item is selected every never-rewarded item is too |
| `Recommenders.Bandit.UcbSortedKeys` | recommendation_engine.py:1367-1382 | every sorted entry carries its own item's key and an available item |
| `Recommenders.Bandit.UcbFreshFirst` | recommendation_engine.py:1382-1383 | in a prefix of the sorted entries no rewarded item precedes a never-rewarded one |
| `Recommenders.Bandit.UcbFreshAllSelected` | recommendation_engine.py:1382-1383 | a prefix that reaches a rewarded item holds every never-rewarded item |
| `Recommenders.Uniform` | recommendation_engine.py:700-701 | the default split gives each of the n variants 1/n |
| `Recommenders.UniformChooses` | recommendation_engine.py:716-723 | with the uniform split, the draw picks the variant k with k/n < draw <= (k+1)/n |
| `Recommenders.UniformAlwaysAssigns` | recommendation_engine.py:709-725 | with the uniform split every draw in [0, 1) is assigned a variant |
| `Recommenders.ABTester.constructor` | recommendation_engine.py:694-696 | no experiments and no results |
| `Recommenders.ABTester.CreateExperiment` | recommendation_engine.py:698-707 | the experiment is stored under its name with the given split, or the uniform one; with no split and no variants the call fails and nothing changes |
| `Recommenders.FirstReaching` | recommendation_engine.py:719-723 | the least index whose prefix sum of the split reaches the draw, or none when no prefix sum does |
| `Recommenders.ChooseFromFirstReaching` | recommendation_engine.py:719-725 | for any split, the walk returns the variant at the least index whose prefix sum reaches the draw (an IndexError when that index has no variant), and the last variant when no prefix sum reaches it (an IndexError when there are no variants) |
| `Recommenders.ABTester.GetVariant` | recommendation_engine.py:709-725 | an unknown experiment gives none; otherwise the cumulative walk with the user's draw, which is the variant at the least index whose prefix sum reaches the draw, else the last variant |
| `Recommenders.ABTester.RecordResult` | recommendation_engine.py:727-729 | the value is appended to the list under "experiment_variant_metric"; other keys are unchanged |
| `Recommenders.Fresh` | recommendation_engine.py:763-769 | keeps exactly the interactions younger than the one-hour timeout, each as often as it occurs, as a subsequence of the session (order kept) |
| `Recommenders.RealtimeRecommender.constructor` | recommendation_engine.py:745-748 | no sessions and no interaction counts |
| `Recommenders.RealtimeRecommender.TrackInteraction` | recommendation_engine.py:750-761 | the user's session gets the new interaction and is then cut to the fresh ones; the item's count goes up by one; other users' sessions are unchanged |
| `Recommenders.RealtimeRecommender.CleanOldSessions` | recommendation_engine.py:763-769 | the user's session keeps only its fresh interactions |
| `Recommenders.Bounded` | recommendation_engine.py:1697 | a deque with maxlen keeps the newest min(len, maxlen) entries in order |
| `Recommenders.StreamProcessor.constructor` | recommendation_engine.py:1696-1701 | an empty buffer with the given bounds and no processors |
| `Recommenders.StreamProcessor.AddProcessor` | recommendation_engine.py:1703-1705 | the processor is registered last |
| `Recommenders.StreamProcessor.AddInteraction` | recommendation_engine.py:1707-1719 | the event, stamped now when no timestamp is given, is appended and the buffer is bounded; a full buffer drops its oldest event |
| `Recommenders.StreamProcessor.ProcessBatch` | recommendation_engine.py:1721-1740 | nothing happens until batch-size events wait; then the oldest batch-size events leave the buffer and go, in order, to every processor in registration order |
| `ItemsRoutes.IntArg` | routes/items_routes.py:18-19 | a missing argument gives the default; a present one gives its integer value, or none where `int()` raises |
| `ItemsRoutes.FloorDiv` | routes/items_routes.py:96 | Python's `//`: the quotient rounded toward negative infinity, for either sign of the divisor |
| `ItemsRoutes.OffsetsAbut` | routes/items_routes.py:20 | page 1 starts at row 0, and each page starts `limit` rows after the previous one |
| `ItemsRoutes.PagesIsCeiling` | routes/items_routes.py:96 | for a positive limit the page count is the smallest number of pages that holds all rows |
| `ItemsRoutes.TextFilter` | routes/items_routes.py:35-41 | a non-empty argument appends its clause and binds the argument itself; an absent or empty one adds nothing |
| `ItemsRoutes.PriceFilter` | routes/items_routes.py:43-49 | a non-empty argument appends its clause and binds `float(arg)`, and fails where that raises; an absent or empty one adds nothing |
| `ItemsRoutes.SearchFilter` | routes/items_routes.py:51-54 | a non-empty search appends the title-or-description LIKE clause and binds "%term%" twice; an empty one adds nothing |
| `ItemsRoutes.FiltersOrder` | routes/items_routes.py:35-54 | the clauses and the parameters are category, city, minimum price, maximum price and search, in that order; the filters fail exactly when a price does not parse; a search ends with the term twice |
| `ItemsRoutes.GetItems` | routes/items_routes.py:9-101 | the handler's step-by-step query building gives the listing, count and pagination of `ItemsFor`, or the 500 reply |
| `ItemsRoutes.AppendFilters` | routes/items_routes.py:35-54 | appending the five optional clauses one by one gives the query and parameters of the filters, and fails exactly when they fail |
| `ItemsRoutes.ItemsQueriesWellFormed` | routes/items_routes.py:56-84 | both queries bind one parameter per placeholder; limit and offset come last; the count query has the listing's parameters without them |
| `ItemsRoutes.ThenWellFormed` | routes/items_routes.py:35-57 | appending a well-formed clause to a well-formed query keeps placeholders and parameters matched |
| `ItemsRoutes.FiltersWellFormed` | routes/items_routes.py:35-54 | the five filters bind one parameter per placeholder |
| `ItemsRoutes.ItemsErrors` | routes/items_routes.py:18-101 | the reply is a 500 exactly for an unparsable page or limit, an unparsable price or a zero limit; a missing count row reads as a total of 0; a positive limit gives a non-negative page count |
| `ItemsRoutes.DefaultListing` | routes/items_routes.py:18-20 | with no arguments: page 1, limit 20, offset 0, and only the limit and offset are bound |
| `ItemsRoutes.ItemFieldsListed` | routes/items_routes.py:160 | the required fields are title, category_id, daily_rental_price and description |
| `ItemsRoutes.CreateItemRequires` | routes/items_routes.py:155-199 | a 400 for missing fields exactly when one of the four is absent; otherwise the item is created exactly when the insert result (the affected row count) is non-zero, and the reply reports that count |
| `ItemsRoutes.CreateItemRow` | routes/items_routes.py:164-185 | the row has the caller as owner and the four required values; condition defaults to "good" and quantity to 1 |
| `RentalsRoutes.CreateRental` | routes/rentals_routes.py:10-87 | a rental is created, with the booking's total, exactly when validation reaches the insert and the insert returns a non-zero row count, which the reply reports; a zero result is the 400 "Failed to create rental"; an exception during validation is the 500 |
| `RentalsRoutes.MissingFieldsFirst` | routes/rentals_routes.py:15-17 | the 400 for missing fields comes exactly when item_id, rental_start_date or rental_end_date is absent, before any lookup |
| `RentalsRoutes.ItemChecks` | routes/rentals_routes.py:20-29 | no active item gives 404; renting one's own item gives 400 |
| `RentalsRoutes.BookedRowFacts` | routes/rentals_routes.py:28-59 | every inserted row is the caller's booking of someone else's active item for at least one day; subtotal is daily price times days; the total is subtotal plus deposit, insurance and delivery, each 0 when absent |
| `RentalsRoutes.InvalidDatesExactly` | routes/rentals_routes.py:32-37 | with the fields, someone else's item and parsable dates, the 400 "Invalid rental dates" comes exactly when the end is not after the start |
| `RentalsRoutes.RaisedExactly` | routes/rentals_routes.py:32-44 | past the field, item and owner checks, the handler raises (a 500) exactly when a date does not parse, or when the dates are in order and the daily price, a truthy deposit, the insurance or the delivery price does not convert |
| `RentalsRoutes.ValidRequestIsBooked` | routes/rentals_routes.py:15-45 | a request with the fields, someone else's active item, parsable dates in order and convertible prices always reaches the insert, with total daily price times days plus deposit, insurance and delivery |
| `RentalsRoutes.PlainRequestTotal` | routes/rentals_routes.py:40-45 | with no deposit and neither charge, the total is the daily price times the days |
| `RentalsRoutes.GetUserRentals` | routes/rentals_routes.py:91-135 | the renter listing is queried exactly for type renter or all, the owner listing exactly for owner or all (default all); any other type queries neither |
| `RentalsRoutes.ListingQuery` | routes/rentals_routes.py:98-112 | the query built by appending to the text and parameter list is `RentalsQuery`: the user id, then the status when one is given |
| `RentalsRoutes.RentalsQueryPlaceholders` | routes/rentals_routes.py:98-132 | each listing binds one parameter per placeholder, the first being the user id |
| `UsersRoutes.Chosen` | routes/users_routes.py:55-62 | exactly the allowed fields the body carries; for fields without repeats, each chosen field comes later in the field list than the one before it, so the order is kept and none repeats |
| `UsersRoutes.AllowedFieldsDistinct` | routes/users_routes.py:55 | the seven allowed fields are pairwise different |
| `UsersRoutes.Values` | routes/users_routes.py:62 | the body's value for each chosen field, in the same order |
| `UsersRoutes.UpdateProfile` | routes/users_routes.py:49-69 | the loop's clauses and parameters give the statement of `UpdateFor`, or the 400 when no allowed field is present |
| `UsersRoutes.CollectFields` | routes/users_routes.py:59-62 | one "field = %s" clause and one value per chosen field, in `Chosen` order, so in allowed-field order with no repeats |
| `UsersRoutes.UpdateUsesOnlyAllowedFields` | routes/users_routes.py:55-69 | no statement exactly when no allowed field is present; otherwise every parameter but the last is the body's value of an allowed field, and the last is the user id |
| `UsersRoutes.UpdatePlaceholdersMatchParams` | routes/users_routes.py:67-69 | the statement holds one placeholder per parameter |
| `UsersRoutes.GetUserProfile` | routes/users_routes.py:8-42 | not found exactly when no active user row exists; otherwise the row with its reviews attached |
| `SqlParams.Get` | routes/rentals_routes.py:43-44 | `data.get(key, default)`: the body's value when present, else the default |
| `SqlParams.PlaceholdersAppend` | routes/items_routes.py:35-57 | placeholders add up over a concatenation unless a '%' meets an 's' at the seam |
| `StringUtil.Contains` | enhanced_security.go:472-474 | `strings.Contains` / Python `in`: true exactly when the needle occurs at some index |
| `StringUtil.ContainsAny` | secure_system.go:3066-3070 | the loop over a list of needles: true exactly when one of them occurs |
| `StringUtil.ToLower` | enhanced_security.go:527 | lower-casing keeps the length and folds each ASCII capital to its small letter |
| `StringUtil.PyStrip` | chat_moderation_system.py:421 | `str.strip()`: the result neither starts nor ends with whitespace |
| `StringUtil.GoTrimSpace` | enhanced_security.go:458 | `strings.TrimSpace`: the result neither starts nor ends with whitespace |
| `StringUtil.BeforeFirst` | enhanced_security.go:458 | `strings.Split(s, ",")[0]`: the prefix of the text up to the first comma, holding no comma |
| `StringUtil.Utf8Len` | enhanced_security.go:904 | Go's `len`: at least one byte and at most four per character, one per ASCII character |
| `StringUtil.Join` | routes/users_routes.py:69 | `", ".join`: empty for no parts, the part itself for one |
| `StringUtil.ParseInt` | secure_system.go:1850-1851 | `strconv.Atoi`: an accepted text starts with a digit or sign, and a negative value with '-' |
| `StringUtil.ParseIntRoundTrip` | secure_system.go:1850-1851 | parsing the decimal form of any integer gives that integer back |

## Left out

- Floating point: scores, confidences, prices, rewards, timestamps and traffic splits are exact reals, so rounding is not modelled.
- Regular expressions: Python's `re` and Go's `regexp` are not interpreted. A compiled pattern is a name answered by the `Matcher` parameter.
- Text encodings: strings are sequences of characters. Go's byte length is modelled by `Utf8Len`.
- ModerationEngine.Engine.GetStatistics: returns the counters, the rates and the processing-time list, but not the average and maximum processing time. Those are floating-point summaries of the list.
- StringUtil.ToLower: folds only ASCII capitals, whereas `str.lower` and `strings.ToLower` fold every Unicode capital. A non-ASCII capital such as the Kelvin sign, which both fold to 'k', is left unchanged by the model.
- StringUtil.ParseInt: has no 64-bit range check, so `strconv.Atoi` errors on overflow are not modelled. Python's `int()` also accepts surrounding whitespace and underscores, which the model rejects.
- StringUtil.PyStrip and StringUtil.GoTrimSpace: the contracts state only that neither end is whitespace. `TrimOffsetFacts` states where the trimmed text sits.
- StringUtil.Join: the contract covers only zero and one part. The placeholder lemmas cover the joined SET clause.
- Ranking.SortByScore: the contract states sortedness and permutation but not stability. The body is a stable insertion sort, as Python's sort is.
- Clocks: `time.time`, `datetime.now` and `time.Now` are parameters. The `created_at` and `updated_at` columns are not modelled.
- Randomness: `random.seed(user_id)` followed by `random.random()` is the `draw` parameter. Thompson sampling is not modelled.
- Concurrency: the engine counters, the `user_stats` updates and the Go maps are modelled single-threaded. The source has no locks around the Python state. The Go code's deletion of an expired block while holding only a read lock is a data race, and it is not modelled.
- Machine learning: scikit-learn fitting and scoring are an abstract `ModelState` and a fit result. `extract_features` (language detection, phone-number parsing, character ratios) is not consumed by the pipeline. Model saving and loading is file I/O.
- Moderation persistence: SQLite connections are replaced by the in-memory `Database`. The reads `get_flagged_messages`, `export_training_data` and `health_check` are I/O wrappers and are not modelled.
- Moderation front ends: the Flask API, its HTML page, `run_examples` and the command-line menu are not modelled.
- Rate limiting: the `x/time/rate` token bucket is the `allow` parameter of `RateLimitStep`.
- Security lookups: the location and IP-reputation lookups, device trust and `hasUnusualTransactionPattern` are inputs to `RiskScore`. `checkTransactionLimits` reads SQL and float money and is not modelled.
- Security crypto and wiring: RSA, argon2, JWT, HMAC-CSRF, the validation middleware's injection patterns, gin wiring, JSON replies, SQL logging and the WebSocket monitor are not modelled.
- Go duplicates: `secure_system.go` repeats the enhanced-security service verbatim. Each function is modelled once, from `enhanced_security.go`.
- Recommendation models: the k-NN, SVD, content, surprise, trending, cold-start, neural and graph recommenders are not modelled. Their ranked lists are inputs to the aggregation, and their weights are inputs too.
- `EnsembleRecommender`: `update_model_weights` and the per-model `model_contributions` counts are not modelled.
- `BanditRecommender`: `get_confidence_interval` and `recommend` (pandas) are not modelled. The UCB confidence bonus is an opaque function of the total and the item count.
- `ABTester.get_results`: returns numpy mean and standard deviation and is not modelled.
- `RealtimeRecommender.get_session_recommendations`: filters pandas metadata and is not modelled.
- Other recommendation-engine parts: `StreamProcessor`'s thread loop, `ModelCache`, `DatabaseManager`, `PerformanceMonitor` and `interactive_cli` are not modelled.
- Route execution: the database calls of the routes are not modelled, and neither are the rows they return nor the 200 replies built from them. `update_profile`'s execution result and its "Failed to update profile" reply are left out; the model ends at the statement and its parameters.
- `get_item`: the single-item route is not part of this model.
- Request bodies: a body is a JSON object, a `map` from keys to values. A body that `request.get_json()` returns as None, a list or a string makes the handlers raise (a 500), and that case is not modelled.
- Insert results: `execute_query` returns `cursor.rowcount` for an INSERT and None on an error. The item and rental routes report that count as `item_id` and `rental_id`. The model keeps it as `rowCount`, as an integer, and does not model the None case.
