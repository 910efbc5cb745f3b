# AI Token Watch, modelled in Dafny

AI Token Watch is a browser extension. It estimates how many tokens the conversation on an
AI chat page (ChatGPT, Claude, Gemini, Grok) has used, shows the count in a floating
ball (the HUD), and warns when the conversation nears the platform's limit. This project
models the extension's logic in Dafny and proves what that logic promises. It has four parts.

- **Platform resolution** (`platform_detector.dfy`, module `PlatformDetector`). The
  registry of four platform entries. The search by location: a two-way substring test
  between hostname and domain, then the entry's URL patterns. The search by page
  structure: primary selector, then fallbacks. The derived answers: the entry, whether
  it is supported, its name and token ceiling, the manifest's domain patterns and the
  diagnostic tables. `Detector` is the detector object; its loops are methods proved
  equal to recursive first-match searches.
- **Token estimation** (`token_estimator.dfy`, module `TokenEstimator`). The per-text
  formula `max(ceil(words × 1.3 × 1.15), 1)`, with the exact rational 1.495. The
  conversation total: 4 per message with a role and content, plus 3. Then the reading of
  the page:
  - the selector cascade, in which the primary tier is used when it yields anything and
    otherwise the first fallback tier that does, alone;
  - the five content strategies;
  - the per-platform battery of role rules, which ends in parity over the "substantial"
    nodes;
  - the default role for counting.

  `Estimator` is the estimator object and holds the lazily initialised configuration; its
  loops are methods proved against these functions.
- **The content script** (`content.dfy`, module `Content`). HUD position clamping, the
  status bands and the HUD class list, the five-minute warning throttle, the route-change
  tracker, the reading of conversation messages, and the objective/decision/question
  lists of the hand-over report (deduplicated and capped). `TokenWatch` is the script's
  object. Its methods change `currentTokens`, `lastUrl`, `isExpanded`, the HUD's class
  list and the notifier, and each is tied to a function of the old state. The two that count the page also state the estimator's configuration afterwards.
- **The options popup** (`popup.dfy`, module `Popup`). Form validation, the save guard,
  and resetting to the defaults, as the `PopupController` class.

The support modules are:

- `Wrappers`: `Option` and JavaScript's `x || fallback`.
- `Strings` (`strings.dfy`): `trim`, `includes`, `indexOf`, `split`, `join`, `filter`,
  deduplication through a `Set`, and `substring`.
- `Dom` (`dom.dfy`): the page as a record of total functions. Selectors are opaque
  strings, `query` returns the matching nodes in document order, and each node has a
  class name, attributes, text, a parent and text nodes.
- `ExtensionSettings` (`settings.dfy`): the settings record and its defaults.

The browser is abstracted away:

| Browser input | In the model |
|---|---|
| `window.location` | a `Location` value |
| the document | a `Document` value |
| `Date.now()` | a `now` parameter |
| viewport size | `width`, `height` parameters |
| `removeCodeBlocks`, `cleanContent` (regex chains) | function parameters |
| whether `chrome.storage.sync.set` succeeded | a `stored` flag |
| what `chrome.storage.sync.get` returned | a `loaded` option |
| the messages sent to the background page | the notifier's `sent` list |

## Model

| member | source | states |
|---|---|---|
| `PlatformDetector.RegistryIsValid` | platformDetector.js:11-69 | The registry has four entries under the keys chatgpt, claude, gemini and grok, in that order. Every entry has a non-empty primary selector, non-empty user and assistant labels, a positive token ceiling and a distinct key. |
| `PlatformDetector.RegistryKeys` | platformDetector.js:11-69 | The registry's keys are exactly the four platforms; `unknown` has no entry. |
| `PlatformDetector.KeysOfMembers` | platformDetector.js:11-69 | A platform is among the keys of a run of entries exactly when some entry of the run has it as its key. |
| `PlatformDetector.RegistryLookup` | platformDetector.js:11-69 | Each key finds its own entry. The ceilings are ChatGPT 8000, Claude 200000, Gemini 30000 and Grok 25000. Claude is switched off and the others are on. `unknown` finds nothing. |
| `PlatformDetector.FirstByLocation` | platformDetector.js:80-99 | An answer from the location search is always the key of an entry that the location accepts. |
| `PlatformDetector.FirstByLocationIsFirstMatch` | platformDetector.js:80-99 | The location search answers exactly when some entry is accepted: a two-way domain match, and a pattern match in path, URL or hostname when the entry declares patterns. The answer is the first accepted entry in registry order. |
| `PlatformDetector.FirstByDom` | platformDetector.js:106-133 | The structural search answers `unknown` or the key of an entry whose primary selector or one of whose fallbacks finds a node. |
| `PlatformDetector.FirstByDomIsFirstMatch` | platformDetector.js:106-133 | The structural search answers `unknown` exactly when no entry's selectors find anything. Otherwise it answers with the first entry that finds something. |
| `PlatformDetector.Resolve` | platformDetector.js:72-104 | Detection answers with the location search's result when there is one, and with the structural search otherwise. Any known answer is a registry key. |
| `PlatformDetector.Lookup` | platformDetector.js:137 | The entry under a key is missing (`null`) exactly when no entry has the key; otherwise it is an entry under that key. |
| `PlatformDetector.LookupAt` | platformDetector.js:137 | Under distinct keys, every entry is found under its own key. |
| `PlatformDetector.CurrentPlatformConfig` | platformDetector.js:135-145 | The result names the detected platform and its entry. `isEnabled` holds exactly when there is an entry and it is enabled. `isSupported` holds exactly when, in addition, the platform is known. |
| `PlatformDetector.ResolvedHasConfig` | platformDetector.js:135-145 | In a valid registry there is an entry exactly when the platform is known, so config is null and isEnabled false for `unknown`. |
| `PlatformDetector.PlatformName` | platformDetector.js:147-150 | The name is the entry's name when it is present and non-empty, and `Unknown Platform` otherwise. |
| `PlatformDetector.TokenLimitOf` | platformDetector.js:152-155 | The limit is the entry's ceiling, or 8000 when there is no entry or the ceiling is the falsy 0. |
| `PlatformDetector.PatternsOf` | platformDetector.js:167 | Each domain becomes `https://<domain>/*`, position by position. |
| `PlatformDetector.DomainPatternsCover` | platformDetector.js:163-171 | Every domain of every entry has its pattern among the collected patterns. |
| `PlatformDetector.DomainPatternsSound` | platformDetector.js:163-171 | Every collected pattern is the pattern of some declared domain. |
| `PlatformDetector.ElementsOf` | platformDetector.js:199-203 | The three flags say whether the primary selector, any fallback and the content selector find a node. |
| `PlatformDetector.FirstFallbackHit` | platformDetector.js:120-128 | The fallback loop reports a hit exactly when some fallback selector finds a node. |
| `PlatformDetector.Detector.constructor` | platformDetector.js:2-70 | The detector holds the declared registry, which is valid. |
| `PlatformDetector.Detector.DetectCurrentPlatform` | platformDetector.js:72-104 | The loop with its early returns, followed by the structural search, computes `Resolve`. |
| `PlatformDetector.Detector.DetectByDOM` | platformDetector.js:106-133 | The nested loops compute the first structural match, or `unknown`. |
| `PlatformDetector.Detector.GetCurrentPlatformConfig` | platformDetector.js:135-145 | The method returns exactly `CurrentPlatformConfig` for the page. |
| `PlatformDetector.Detector.GetPlatformName` | platformDetector.js:147-150 | The method returns the detected entry's name, and `Unknown Platform` for an undetected page. |
| `PlatformDetector.Detector.GetPlatformTokenLimit` | platformDetector.js:152-155 | The method returns the detected entry's ceiling, or 8000 for an undetected page; the limit is always positive. |
| `PlatformDetector.Detector.IsCurrentPlatformSupported` | platformDetector.js:158-160 | The page is supported exactly when the detected key is a known platform whose entry is enabled. |
| `PlatformDetector.Detector.GetAllSupportedDomains` | platformDetector.js:163-171 | The result is the collected patterns deduplicated with first occurrences kept, without repeats. It holds the pattern of every declared domain and nothing else. |
| `PlatformDetector.Detector.CheckDomainMatch` | platformDetector.js:187-194 | The table has one entry per key. An entry is true exactly when the hostname contains one of that platform's domains; unlike detection, the test runs in one direction only. |
| `PlatformDetector.Detector.FindPlatformElements` | platformDetector.js:196-206 | The table has one entry per key, holding what that entry's selectors find. |
| `PlatformDetector.Detector.GetDebugInfo` | platformDetector.js:174-185 | The debug record carries the detected platform, its entry and the location's fields. Both tables are keyed by the registry's keys. The domain table holds, per entry, whether the hostname includes one of its domains. The element table holds that entry's three selector flags. |
| `PlatformDetector.SupportedDomainsInOrder` | platformDetector.js:163-171 | The registry's eight domains are all different. So the supported-domain list is every declared domain's pattern, in registry order, and has eight entries. |
| `PlatformDetector.RegistryDomainPatterns` | platformDetector.js:163-169 | Before deduplication, the patterns are those of the declared domains in registry order. |
| `PlatformDetector.DeclaredDomainsDistinct` | platformDetector.js:13-56 | No domain is declared twice. |
| `PlatformDetector.EmptyHostnameIsChatGPT` | platformDetector.js:81 | An empty hostname is contained in every domain. So ChatGPT, the first entry and one without URL patterns, wins. |
| `PlatformDetector.DeclaredDomainIsResolved` | platformDetector.js:80-99 | A hostname equal to a declared domain is resolved to that entry when it meets the entry's URL patterns and no earlier entry accepts it. |
| `PlatformDetector.HostMissesChatGPT` | platformDetector.js:13 | A hostname is not a ChatGPT domain candidate when it lacks a character both ChatGPT domains have and has one neither has. This covers `x.com` and `claude.ai`. |
| `PlatformDetector.XComMissesClaude` | platformDetector.js:27 | `x.com` is not a domain candidate for Claude. |
| `PlatformDetector.XComMissesGemini` | platformDetector.js:42 | `x.com` is not a domain candidate for Gemini. |
| `PlatformDetector.XComReachesGrok` | platformDetector.js:80-99 | On `x.com` the location search comes down to the Grok entry. |
| `PlatformDetector.XHomeIsNotGrokByLocation` | platformDetector.js:57 | `x.com/home` is a Grok domain candidate but matches no URL pattern. So no entry is accepted by location, and the structural search decides. |
| `PlatformDetector.XGrokPageIsGrok` | platformDetector.js:55-68 | `x.com/i/grok` resolves to Grok. |
| `PlatformDetector.ClaudeIsDetectedButUnsupported` | platformDetector.js:29 | `claude.ai` resolves to Claude and yields Claude's entry, but is not supported because the entry is switched off. |
| `TokenEstimator.TokensForWords` | tokenEstimator.js:38-46 | For w words the result is the least whole number that is at least 1.495 × w, and never below 1. |
| `TokenEstimator.EstimateTokens` | tokenEstimator.js:23-46 | The estimate is 0 exactly when the text is missing or empty. |
| `TokenEstimator.WordsCostTwo` | tokenEstimator.js:35-46 | Since the word count is at least 1, every estimate of a present text is at least 2. The character-count branch is never reached. |
| `TokenEstimator.NonEmptyTextCostsTwo` | tokenEstimator.js:23-46 | A non-empty text costs at least 2 tokens, with or without code blocks. |
| `TokenEstimator.TokensForWordsMonotone` | tokenEstimator.js:39-46 | More words never cost fewer tokens. |
| `TokenEstimator.EstimateMonotoneInWords` | tokenEstimator.js:35-46 | `estimateTokens` is monotone in the word count of the processed text. |
| `TokenEstimator.ThirteenWordsCostTwenty` | tokenEstimator.js:34-46 | Thirteen words separated by single spaces are estimated at 20 tokens. |
| `TokenEstimator.ConversationTokens` | tokenEstimator.js:61-78 | A non-array gives 0, and any list gives at least the 3 of the overhead. |
| `TokenEstimator.EmptyConversationCostsThree` | tokenEstimator.js:75 | An empty list gives 3, not 0. |
| `TokenEstimator.AppendMessage` | tokenEstimator.js:68-72 | Appending a message that has a role and content adds exactly its estimate plus 4, which is at least 5. Appending any other message adds nothing. |
| `TokenEstimator.AppendNeverLowers` | tokenEstimator.js:68-75 | Appending any message never lowers the total. |
| `TokenEstimator.OnlyCountedMessagesMatter` | tokenEstimator.js:69 | Dropping the messages without a role or content leaves the total unchanged. |
| `TokenEstimator.SumToIsSum` | tokenEstimator.js:66-73 | The running total after i messages is the sum of the first i contributions. |
| `TokenEstimator.SumAppend` | tokenEstimator.js:68-73 | The sum of a list with one more message is the old sum plus that message's contribution. |
| `TokenEstimator.Estimator.AddMessage` | tokenEstimator.js:69-72 | One pass of the loop adds the message's contribution. |
| `TokenEstimator.Estimator.EstimateConversationTokens` | tokenEstimator.js:61-78 | The accumulating loop computes the conversation total. |
| `TokenEstimator.Substantial` | tokenEstimator.js:394-397 | The substantial nodes are drawn from the given nodes. |
| `TokenEstimator.SubstantialDistinct` | tokenEstimator.js:394-398 | Among distinct nodes, the substantial ones are distinct too. |
| `TokenEstimator.ClaudeSide` | tokenEstimator.js:282-410 | On Claude a streaming flag of `true` or `false` decides for the assistant before any other rule. |
| `TokenEstimator.RoleOf` | tokenEstimator.js:265-472 | On ChatGPT the role is the author attribute, or `unknown`. Elsewhere it is one of the two labels or `unknown`. When both labels are defined, a role is always produced. |
| `TokenEstimator.InferDefaultRoleForCounting` | tokenEstimator.js:475-495 | The inferred role is always the assistant label, or `assistant` in its absence. |
| `TokenEstimator.DefaultRole` | tokenEstimator.js:250 | The role substituted for an unknown one is never empty. |
| `TokenEstimator.DefaultRoleIsAssistantLabel` | tokenEstimator.js:475-495 | With the entry's own labels, the substituted role is the assistant label, whichever branch of the inference applies. |
| `TokenEstimator.MessageRole` | tokenEstimator.js:248-252 | A kept message's role is never empty. |
| `TokenEstimator.FirstSubstantialDiv` | tokenEstimator.js:233-243 | A `div` accepted by strategy 5 gives content longer than 20 characters. |
| `TokenEstimator.ContentSelectorWins` | tokenEstimator.js:166-243 | Content found by the content selector is final once it is long enough: 20 characters on Claude, 10 elsewhere. |
| `TokenEstimator.MessageContent` | tokenEstimator.js:144-262 | There is content exactly when the node is not a skipped Claude control and the strategies' text, trimmed, exceeds 10 characters. The content is then that trimmed text. |
| `TokenEstimator.ExtractMessage` | tokenEstimator.js:141-263 | A message is returned exactly when there is content. It carries that content and the role kept for it. |
| `TokenEstimator.UnknownRoleBecomesAssistantLabel` | tokenEstimator.js:248-252 | A missing, empty or `unknown` role becomes the entry's assistant label. |
| `TokenEstimator.ChatGPTRoleIsAuthorAttribute` | tokenEstimator.js:278-279 | On ChatGPT a meaningful author attribute is the role, whatever the labels. |
| `TokenEstimator.StreamingIsAssistant` | tokenEstimator.js:283-288 | On Claude a streaming flag makes the message an assistant message. |
| `TokenEstimator.AbsentNodeIsAssistant` | tokenEstimator.js:389-410 | A node that is not a primary match sits at index -1 and gets the assistant side by parity. |
| `TokenEstimator.ParityAlternates` | tokenEstimator.js:389-404 | Among distinct primary matches, the k-th substantial one is on the user side exactly when k is even. |
| `TokenEstimator.GeminiRoles` | tokenEstimator.js:412-471 | On Gemini a user marker wins over a model marker, and a model marker wins over the class heuristics. There is no verdict exactly when no marker or class cue is present, and the role is then `unknown`. |
| `TokenEstimator.GrokRoles` | tokenEstimator.js:431-455 | On Grok `not-prose` always gives the assistant label. A post or timeline cell always gets a verdict, and it is the assistant exactly when a Grok indicator is present. A node with no verdict is not a substantial primary match. |
| `TokenEstimator.GrokParity` | tokenEstimator.js:457-468 | On Grok the k-th substantial primary match that no marker classifies is on the user side exactly when k is even. |
| `TokenEstimator.ExtractAll` | tokenEstimator.js:100-108 | Extraction never yields more messages than there are nodes. |
| `TokenEstimator.ExtractAllEmpty` | tokenEstimator.js:100-108 | A tier yields no message exactly when no node of it does. |
| `TokenEstimator.ExtractAllSnoc` | tokenEstimator.js:118-124 | One more node appends that node's message, if it has one. |
| `TokenEstimator.PushExtracted` | tokenEstimator.js:100-108 | One turn of an element loop extends the pushed list by the extraction of the next node. |
| `TokenEstimator.ExtractAllAppend` | tokenEstimator.js:100-108 | Extraction keeps document order across runs of nodes. |
| `TokenEstimator.FirstFallbackIsFirstNonEmpty` | tokenEstimator.js:114-129 | The fallback loop returns the first tier that yields a message, or nothing when every tier is empty. |
| `TokenEstimator.CascadeIsOneTier` | tokenEstimator.js:97-130 | If the primary tier yields messages, it is used. Otherwise exactly one fallback tier is used, every earlier one having yielded nothing. An empty result means every tier was empty. Tiers are never merged. |
| `TokenEstimator.ExtractionIgnoresLabels` | tokenEstimator.js:248-262 | Whether a node yields a message, and its content, do not depend on the labels. |
| `TokenEstimator.TierCountIgnoresLabels` | tokenEstimator.js:100-108 | A tier's message count and total do not depend on the labels. |
| `TokenEstimator.FallbackCountIgnoresLabels` | tokenEstimator.js:111-130 | The fallback tiers' total does not depend on the labels. |
| `TokenEstimator.CountIgnoresLabels` | tokenEstimator.js:80-139 | The tokens counted for a page are the same whatever labels the role rules hand out. |
| `TokenEstimator.TopLevelLabelsCollapseRoles` | tokenEstimator.js:287-494 | Reading the labels at the entry's top level, where they are undefined, labels every message outside ChatGPT `assistant`. |
| `TokenEstimator.UserTestIdGetsUserLabel` | tokenEstimator.js:305-308 | With the entry's own labels, a Claude node whose test id names the user gets the user label. |
| `TokenEstimator.AncestorWalk` | tokenEstimator.js:345-361 | The walk of up to three parents returns the side named by the first deciding ancestor. |
| `TokenEstimator.WalkTextNodes` | tokenEstimator.js:201-224 | The walker loop collects each non-blank text node's value, trimmed, in order. |
| `TokenEstimator.FindSubstantialDiv` | tokenEstimator.js:234-242 | The `div` loop returns the first accepted `div`'s trimmed text. |
| `TokenEstimator.TryNestedContainers` | tokenEstimator.js:186-196 | Strategy 3 replaces content shorter than 10 characters by the containers' joined text, when there is any. |
| `TokenEstimator.TryTextWalker` | tokenEstimator.js:199-230 | Strategy 4, on Claude, replaces content shorter than 20 characters by the walked text, when there is any. |
| `TokenEstimator.TrySubstantialDiv` | tokenEstimator.js:233-243 | Strategy 5, on Claude, replaces content shorter than 10 characters by the first accepted `div`. |
| `TokenEstimator.CollectContent` | tokenEstimator.js:166-243 | The strategies in turn compute the extracted content. |
| `TokenEstimator.Estimator.constructor` | tokenEstimator.js:2-8 | The estimator keeps its detector and starts with the configuration that initialisation finds. |
| `TokenEstimator.Estimator.InitializePlatform` | tokenEstimator.js:10-21 | With a detector, the configuration becomes the detected entry, or none. Without a detector it is left as it was. |
| `TokenEstimator.Estimator.DetectedPlatform` | tokenEstimator.js:275 | The re-detection yields the detector's answer for the page, or no platform without a detector. |
| `TokenEstimator.Estimator.DetermineMessageRole` | tokenEstimator.js:265-472 | Without a configuration the role is `unknown`. Otherwise it is the rule battery of the detected platform, with the entry's labels. |
| `TokenEstimator.Estimator.ExtractMessageFromElement` | tokenEstimator.js:141-263 | Without a configuration there is no message. Otherwise the message is the node's extraction under the entry and the detected platform, with roles from the entry's `selectors` labels (the corrected reading; see Left out and Findings). |
| `TokenEstimator.Estimator.ExtractStep` | tokenEstimator.js:118-124 | One turn of the element loop pushes the next node's message. |
| `TokenEstimator.Estimator.ExtractInto` | tokenEstimator.js:100-108 | The element loop appends the tier's messages in document order. |
| `TokenEstimator.Estimator.CollectMessages` | tokenEstimator.js:96-130 | The primary loop and the fallback loop with its `break` compute the cascade. |
| `TokenEstimator.Estimator.EstimateFromDOM` | tokenEstimator.js:80-139 | The configuration is initialised lazily and kept once present. The result is 0 when there is still no configuration, and otherwise the conversation total of the cascade's messages. |
| `TokenEstimator.Estimator.DomTokens` | tokenEstimator.js:84-138 | The page's count is 0 without a configuration and at least 3 with one. |
| `TokenEstimator.Estimator.GetTokenLimit` | tokenEstimator.js:498-500 | The limit is the entry's ceiling, or 8000 without an entry; it is never 0. |
| `TokenEstimator.Estimator.GetPlatformName` | tokenEstimator.js:503-505 | The name is the entry's name, or `Unknown Platform`. |
| `TokenEstimator.InitializedEstimatorAgreesWithDetector` | tokenEstimator.js:10-21 | Once initialised with a detector, the estimator's name is the detector's name for the page. The name is `Unknown Platform` and the limit 8000 on an undetected page. Otherwise the limit is the detected entry's ceiling. |
| `Content.ValidateHUDPosition` | content.js:283-300 | Both coordinates are at least 10, and at most the extent minus 50 whenever the viewport allows. On a viewport of at least 60 × 60 the ball stays inside. A position already inside is kept. |
| `Content.ValidateIdempotent` | content.js:292-293 | Correcting a corrected position changes nothing. |
| `Content.DefaultPositionKept` | content.js:273-278 | The fallback position (width − 60, 20) is kept on any viewport of at least 70 × 70. On a viewport narrower than 70 its x is pushed to the 10-pixel margin. On one lower than 70 its y becomes height − 50, but never less than 10. |
| `Content.AtLeastPercentIsQuotient` | content.js:431-462 | For a non-zero limit, the integer test is the comparison of the exact percentage. |
| `Content.ClassifyMonotone` | content.js:459-467 | Under a positive limit, more tokens never give a milder status. |
| `Content.FullIsCritical` | content.js:460 | Under a positive limit, reaching the limit is critical. |
| `Content.DefaultBands` | content.js:459-467 | Under the defaults the status is critical from 7600 tokens, warning from 6400 to 7599, and normal below 6400. |
| `Content.StatusClassesOf` | content.js:453-467 | The filtered list holds status classes only. |
| `Content.StatusClassesOfAppend` | content.js:453-467 | The status classes of a concatenation are those of its parts. |
| `Content.ExactlyOneStatusClass` | content.js:453-467 | After the update exactly one status class is applied, the classified one. `ctw-expanded` is present exactly when the panel is open. |
| `Content.AddClass` | content.js:256 | After `classList.add`, the list holds the old classes and the new one, and has no repeats if it had none. |
| `Content.RemoveClass` | content.js:259 | After `classList.remove`, the list holds the old classes except the removed one, and has no repeats if it had none. |
| `Content.NotifyKeepsPace` | content.js:470-483 | The throttle keeps the pacing: the last send's time is recorded, and consecutive sends are at least 300000 ms apart, unless the earlier one went out at time 0, which the truthiness test treats as never sent. |
| `Content.NotifySendsIffDue` | content.js:470-483 | Within five minutes after a warning nothing is sent. A call after that, or before any warning, sends exactly one warning and records its time. |
| `Content.WarningFor` | content.js:477-482 | The warning carries the limit, and the tokens plus the remaining add up to it. |
| `Content.UpdateHUDIdleWhenOff` | content.js:429 | Without a HUD, or with the extension disabled, the update changes nothing. |
| `Content.UpdateHUDWhenOn` | content.js:428-468 | The update keeps the pacing and applies exactly the classified status class. The notifier changes exactly when the status is warning and the throttle allows a send. |
| `Content.RouteChangeOnce` | content.js:536-548 | The tracker acts exactly when the URL differs and records it, so a repeated call with the same URL is a no-op. |
| `Content.ConversationEntry` | content.js:621-634 | A kept entry has a non-empty role and non-empty content without surrounding white space. |
| `Content.ConversationOfShape` | content.js:617-638 | Every message read has a role and trimmed, non-empty content, and document order is kept. |
| `Content.ConversationOfSingle` | content.js:621-634 | An element yields its message exactly when it has a role and a non-blank content element. |
| `Content.ConversationIsCounted` | content.js:617-638 | Every message read is one the estimator counts. |
| `Content.SomeVerbStarts` | content.js:857 | The scan says whether some verb from the given index on begins the text. |
| `Content.StartsWithActionVerb` | content.js:855-858 | The answer is yes exactly when the text begins with one of the sixteen listed verbs. |
| `Content.FindCue` | content.js:949-955 | The search finds nothing exactly when no verb has a cue. Otherwise it finds the first verb with a cue. |
| `Content.ActionItem` | content.js:959-966 | The rewritten item begins with the verb found. |
| `Content.ObjectiveShape` | content.js:945-968 | An objective has at most 80 characters, begins with a task verb, and is accepted by `startsWithActionVerb`. |
| `Content.DecisionAndQuestionLengths` | content.js:981-1038 | Decisions keep 26 to 100 characters and questions 16 to 70. |
| `Content.Collect` | content.js:945-970 | Everything collected is what the recogniser yields on some piece. |
| `Content.Gather` | content.js:941-971 | Every candidate is something the recogniser yields. |
| `Content.Last` | content.js:1012 | `slice(-3)` is the last three messages, or all of them. |
| `Content.TaskElementsShape` | content.js:1042-1046 | The lists hold at most 3, 3 and 2 entries, none twice. Each is the start of its candidates deduplicated with first occurrences kept. |
| `Content.TaskObjectivesShape` | content.js:938-1046 | Every reported objective has at most 80 characters and begins with an action verb. |
| `Content.TaskDecisionsAndQuestionsShape` | content.js:973-1045 | Every reported decision has 26 to 100 characters and every question 16 to 70. |
| `Content.TokenWatch.constructor` | content.js:2-16 | The object starts with the default settings, no tokens, the current URL, no HUD and no warning sent. |
| `Content.TokenWatch.CreateHUD` | content.js:117-123 | A HUD is created once, with the base classes and closed. A second call does nothing. The object's invariant is kept: warnings stay paced, and `ctw-expanded` is on the ball exactly while the panel is open. |
| `Content.TokenWatch.ToggleHUD` | content.js:251-262 | The panel flips, and `ctw-expanded` is present exactly when it is open. Nothing else changes. |
| `Content.TokenWatch.ShowWarningNotification` | content.js:470-483 | The notifier advances as the throttle says, and the pacing is kept. |
| `Content.TokenWatch.UpdateHUD` | content.js:428-468 | The HUD's classes and the notifier become what `HudUpdate` gives, with the pacing kept. |
| `Content.TokenWatch.UpdateTokenCount` | content.js:497-504 | The estimator keeps its configuration, or initialises it lazily when it had none. The count becomes the estimator's count of the page under that configuration, and the HUD is updated with it. |
| `Content.TokenWatch.HandleRouteChange` | content.js:536-548 | `lastUrl` and the scheduling follow the route-change rule; nothing else changes, and the object's invariant is kept. |
| `Content.TokenWatch.ResetAfterRouteChange` | content.js:542-546 | The count drops to 0 and is shown. Then the page is counted again and shown, under the estimator's configuration after the same lazy initialisation. |
| `Content.TokenWatch.ExtractConversationMessages` | content.js:617-638 | The loop reads exactly the conversation of the `[data-message-author-role]` elements. |
| `Content.TokenWatch.ConversationEntryOf` | content.js:622-634 | One element's reading is its conversation entry. |
| `Content.TokenWatch.ExtractTaskElements` | content.js:933-1047 | The report is `TaskElementsOf` of the messages. |
| `Content.GatherInto` | content.js:941-971 | The nested `forEach` pushes compute the candidate list. |
| `Popup.FormErrorCases` | popup.js:66-82 | The form is valid exactly when the reserve is below the limit and the threshold is below 100. The reserve check comes first and names the error whenever it fails; otherwise the threshold error is shown. |
| `Popup.DefaultsAreValid` | popup.js:3-10 | The defaults pass validation. |
| `Popup.PopupController.constructor` | popup.js:2-44 | The form shows the loaded settings, or the defaults when loading failed. Nothing is stored and no message is shown. |
| `Popup.PopupController.LoadSettings` | popup.js:36-44 | The form shows the loaded settings, or the defaults. |
| `Popup.PopupController.PopulateForm` | popup.js:46-53 | The form shows the given settings. |
| `Popup.PopupController.ValidateForm` | popup.js:66-82 | The verdict is true exactly when the form is valid. On failure, the first failing check's message is shown. |
| `Popup.PopupController.SaveSettings` | popup.js:84-115 | An invalid form stores nothing and shows its error. A valid form is stored and the success message shown; when storing fails, the failure message is shown. Nothing invalid is ever stored. |
| `Popup.PopupController.ResetSettings` | popup.js:117-120 | The form shows the defaults with the reset message, and nothing is stored. |
| `Wrappers.OrElse` | tokenEstimator.js:279 | JavaScript's or-default gives the value when it is a non-empty string, and the fallback otherwise. |
| `Strings.Trim` | tokenEstimator.js:35 | Trimming never lengthens a string. |
| `Strings.TrimIdempotent` | content.js:946 | Trimming twice is trimming once. |
| `Strings.TrimEmptyIffAllSpace` | content.js:627 | A trimmed text is empty exactly when the text is all white space. |
| `Strings.WordCount` | tokenEstimator.js:35 | `trim().split(/\s+/).length` is at least 1. |
| `Strings.WordCountOfJoin` | tokenEstimator.js:35 | Words joined by single spaces are counted as that many words. |
| `Strings.Dedup` | platformDetector.js:170 | `[...new Set(xs)]` has no repeats, keeps every element and adds none. |
| `Strings.DedupFirstOccurrence` | content.js:1043-1045 | Deduplication lists the survivors in the order of their first occurrences. |
| `Strings.DedupOfDistinct` | platformDetector.js:170 | A list without repeats is its own deduplication. |
| `Strings.SplitOn` | content.js:943 | `split` on a character class gives at least one piece, and no piece holds a separator. |
| `Strings.IndexOfPiece` | content.js:962 | `indexOf` gives the first occurrence, and -1 exactly when there is none. |
| `Strings.Take` | content.js:967 | `substring(0, n)` is a prefix of at most n characters, exactly n when the string is longer. |

## Left out

- Character-count branch of `estimateTokens`: it divides by 4 and is never reached, because the word count is at least 1. `WordsCostTwo` states why.
- `removeCodeBlocks` and `cleanContent`: regular-expression chains, kept as uninterpreted function parameters.
- CSS selector semantics: selectors are opaque strings, and the page answers queries with node lists in document order through the `Document` record.
- `innerText` and `textContent` are one text function.
- Tree walker: an abstract list of the non-button text nodes.
- Floating point: the formula uses the exact rational 1.495, and percentages compare by integer cross-multiplication. JavaScript doubles could differ by one at exact boundaries. A zero limit is modelled as the quotient's `Infinity`/`NaN` behaviour.
- Integers (counts, positions, settings) are unbounded.
- `parseInt`, `NaN` form values and `toLocaleString` formatting are left out. The form holds parsed integers.
- JavaScript strings count UTF-16 code units, while the model counts characters, so lengths and `substring` cuts can differ for text outside the Basic Multilingual Plane.
- `classList` de-duplicates tokens: `AddClass` models it exactly only on lists without repeats. The HUD never holds a repeat, because `TokenWatch.Valid()` keeps its class list repeat-free.
- Timers (`setInterval`, `setTimeout`, the 3-second hide of the popup's message), the `MutationObserver` and the `history` hooks are left out. `HandleRouteChange` returns whether the delayed reset is scheduled, and `ResetAfterRouteChange` is that callback with one immediate recount.
- `Date.now()` is a `now` parameter, read once per call where the source reads it twice.
- `chrome.storage`, `chrome.runtime.sendMessage` and `chrome.tabs` messaging are represented by their outcomes: a `stored` flag, a `loaded` option, and the notifier's list of sent warnings. The `SETTINGS_UPDATED` broadcast to open ChatGPT tabs is not modelled.
- Drawing the HUD is not modelled: DOM construction, drag handlers, `localStorage` positions, the ball's text, the panel's numbers, the progress bar and the critical-warning modal.
- `init`, `loadSettings` and the debug HUD of the content script are not modelled. The constructor builds the object; `init` would then set `maxTokens` from `getTokenLimit`.
- Exceptions are left out: an estimator exception caught by `updateTokenCount` is not modelled.
- The timestamp of extracted messages depends on the clock and is dropped.
- `createSummary` and `generateSeedPrompt`: report templating, not modelled.
- background.js and debug-selectors.js are not part of this model.
- Content.TokenWatch.ToggleHUD requires a HUD, because the source dereferences it without a check.
- TokenEstimator.Estimator.DetermineMessageRole uses the labels the registry declares under `selectors` (see Findings); `TopLevelLabelsCollapseRoles` covers the code as written.
- TokenEstimator.Estimator.ExtractMessageFromElement, and the loops built on it (`ExtractStep`, `ExtractInto`, `CollectMessages`), return messages whose roles use those corrected labels. For example, a Claude user turn carries `human`. The code as written labels every non-ChatGPT message `assistant`. Only the roles differ: the token count is the same under either labels (`CountIgnoresLabels`).

## Findings

| source | as written | input that shows it | evidently intended | confidence | as-written member | corrected member |
|---|---|---|---|---|---|---|
| tokenEstimator.js:287-494 | The role rules return `config.userRole` and `config.assistantRole`, but registry entries keep those labels under `selectors` (platformDetector.js:19-20, 34-35, 48-49, 63-64). Both read `undefined`, and the fallback at line 250 then labels every non-ChatGPT message `assistant`. | A Claude node with `data-testid="user-message"` and no `data-is-streaming` attribute: the rules find the user side but return `undefined`, so the message is labelled `assistant`. | The entry's own labels (`config.selectors.userRole`, here `human`). The token count is the same either way (`CountIgnoresLabels`). | not executed | `TokenEstimator.TopLevelLabelsCollapseRoles` | `TokenEstimator.UserTestIdGetsUserLabel` |
