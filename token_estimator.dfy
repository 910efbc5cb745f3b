/** Token estimation: the per-text formula, the conversation total, and the extraction of
    messages from the page (which nodes to read, how to get their text, and which side of
    the conversation each one is on). */
module TokenEstimator {
  import opened Wrappers
  import opened Strings
  import opened Dom
  import opened PlatformDetector

  // ---------------------------------------------------------------------------
  // The per-text formula

  /** `Math.max(Math.ceil(w * 1.3 * 1.15), 1)` with the exact rational 1.3 × 1.15 = 1.495:
      the least whole number of tokens that is at least 1.495 per word, and never 0. */
  function TokensForWords(w: nat): (t: nat)
    ensures t >= 1
    ensures 1495 * w <= 1000 * t
    ensures w >= 1 ==> 1000 * (t - 1) < 1495 * w
  {
    var c := (w * 1495 + 999) / 1000;
    if c >= 1 then c else 1
  }

  /** The text the formula counts: the original, or what `removeCodeBlocks` leaves of it. */
  function Processed(text: string, includeCode: bool, removeCodeBlocks: string -> string): string {
    if includeCode then text else removeCodeBlocks(text)
  }

  /** `estimateTokens(text, includeCode)`. `None` stands for a missing or non-string
      argument. The character-count branch of the source is not written: the word count
      is at least 1 (`WordCount` ensures it), so that branch is never taken. */
  function EstimateTokens(text: Option<string>, includeCode: bool, removeCodeBlocks: string -> string): (t: nat)
    ensures t == 0 <==> text.None? || text.value == ""
  {
    if text.None? || text.value == "" then 0
    else TokensForWords(WordCount(Processed(text.value, includeCode, removeCodeBlocks)))
  }

  /** One word or more costs at least 2 (⌈1.495⌉ = 2). */
  lemma WordsCostTwo(s: string)
    ensures TokensForWords(WordCount(s)) >= 2
  {
    TokensForWordsMonotone(1, WordCount(s));
  }

  /** Text that is present and non-empty costs at least 2 tokens, so at least the floor
      of 1. */
  lemma NonEmptyTextCostsTwo(text: string, includeCode: bool, removeCodeBlocks: string -> string)
    requires text != ""
    ensures EstimateTokens(Some(text), includeCode, removeCodeBlocks) >= 2
  {
    WordsCostTwo(Processed(text, includeCode, removeCodeBlocks));
  }

  /** More words never cost fewer tokens. */
  lemma TokensForWordsMonotone(v: nat, w: nat)
    requires v <= w
    ensures TokensForWords(v) <= TokensForWords(w)
  {
    assert v * 1495 + 999 <= w * 1495 + 999;
  }

  /** `estimateTokens` is monotone in the word count of the processed text. */
  lemma EstimateMonotoneInWords(s: string, t: string, includeCode: bool, removeCodeBlocks: string -> string)
    requires s != "" && t != ""
    requires WordCount(Processed(s, includeCode, removeCodeBlocks)) <= WordCount(Processed(t, includeCode, removeCodeBlocks))
    ensures EstimateTokens(Some(s), includeCode, removeCodeBlocks) <= EstimateTokens(Some(t), includeCode, removeCodeBlocks)
  {
    TokensForWordsMonotone(WordCount(Processed(s, includeCode, removeCodeBlocks)), WordCount(Processed(t, includeCode, removeCodeBlocks)));
  }

  /** Thirteen words separated by single spaces are estimated at 20 tokens. */
  lemma ThirteenWordsCostTwenty(ws: seq<string>, removeCodeBlocks: string -> string)
    requires |ws| == 13 && forall i :: 0 <= i < |ws| ==> IsWord(ws[i])
    ensures EstimateTokens(Some(Join(ws, " ")), true, removeCodeBlocks) == 20
  {
    SpaceRunsOfJoin(ws);
    WordCountOfJoin(ws);
  }

  // ---------------------------------------------------------------------------
  // Conversation totals

  datatype Message = Message(role: string, content: string)

  /** A message counts when both its role and its content are truthy (non-empty). */
  predicate Counted(m: Message) {
    m.role != "" && m.content != ""
  }

  /** What one message adds to the total: its estimate plus 4, or nothing. */
  function Contribution(m: Message, includeCode: bool, removeCodeBlocks: string -> string): nat {
    if Counted(m) then EstimateTokens(Some(m.content), includeCode, removeCodeBlocks) + 4 else 0
  }

  function ConversationSum(ms: seq<Message>, includeCode: bool, removeCodeBlocks: string -> string): nat
    decreases |ms|
  {
    if |ms| == 0 then 0
    else ConversationSum(ms[..|ms| - 1], includeCode, removeCodeBlocks) + Contribution(ms[|ms| - 1], includeCode, removeCodeBlocks)
  }

  /** `estimateConversationTokens(messages, includeCode)`: 0 for a non-array (`None`),
      otherwise the contributions of the messages plus 3. */
  function ConversationTokens(messages: Option<seq<Message>>, includeCode: bool, removeCodeBlocks: string -> string): (t: nat)
    ensures messages.None? ==> t == 0
    ensures messages.Some? ==> t >= 3
  {
    match messages
    case None => 0
    case Some(ms) => ConversationSum(ms, includeCode, removeCodeBlocks) + 3
  }

  /** An empty list still costs the 3 of the conversation overhead. */
  lemma EmptyConversationCostsThree(includeCode: bool, removeCodeBlocks: string -> string)
    ensures ConversationTokens(Some([]), includeCode, removeCodeBlocks) == 3
  {
  }

  /** The contributions of the first `i` messages of `ms`. */
  function SumTo(ms: seq<Message>, i: nat, includeCode: bool, removeCodeBlocks: string -> string): nat
    requires i <= |ms|
  {
    if i == 0 then 0 else SumTo(ms, i - 1, includeCode, removeCodeBlocks) + Contribution(ms[i - 1], includeCode, removeCodeBlocks)
  }

  lemma {:induction false} SumToIsSum(ms: seq<Message>, i: nat, includeCode: bool, removeCodeBlocks: string -> string)
    requires i <= |ms|
    ensures SumTo(ms, i, includeCode, removeCodeBlocks) == ConversationSum(ms[..i], includeCode, removeCodeBlocks)
  {
    if i > 0 {
      SumToIsSum(ms, i - 1, includeCode, removeCodeBlocks);
      assert ms[..i][..i - 1] == ms[..i - 1];
    }
  }

  lemma SumAppend(ms: seq<Message>, m: Message, includeCode: bool, removeCodeBlocks: string -> string)
    ensures ConversationSum(ms + [m], includeCode, removeCodeBlocks)
         == ConversationSum(ms, includeCode, removeCodeBlocks) + Contribution(m, includeCode, removeCodeBlocks)
  {
    assert (ms + [m])[..|ms|] == ms;
  }

  /** Appending a counted message adds exactly its estimate plus 4, which is at least 5;
      appending one that does not count changes nothing. */
  lemma AppendMessage(ms: seq<Message>, m: Message, includeCode: bool, removeCodeBlocks: string -> string)
    ensures Counted(m) ==>
      ConversationTokens(Some(ms + [m]), includeCode, removeCodeBlocks)
        == ConversationTokens(Some(ms), includeCode, removeCodeBlocks) + EstimateTokens(Some(m.content), includeCode, removeCodeBlocks) + 4
    ensures Counted(m) ==>
      ConversationTokens(Some(ms + [m]), includeCode, removeCodeBlocks) >= ConversationTokens(Some(ms), includeCode, removeCodeBlocks) + 5
    ensures !Counted(m) ==>
      ConversationTokens(Some(ms + [m]), includeCode, removeCodeBlocks) == ConversationTokens(Some(ms), includeCode, removeCodeBlocks)
  {
    SumAppend(ms, m, includeCode, removeCodeBlocks);
  }

  /** Appending any message never lowers the total. */
  lemma AppendNeverLowers(ms: seq<Message>, m: Message, includeCode: bool, removeCodeBlocks: string -> string)
    ensures ConversationTokens(Some(ms + [m]), includeCode, removeCodeBlocks) >= ConversationTokens(Some(ms), includeCode, removeCodeBlocks)
  {
    SumAppend(ms, m, includeCode, removeCodeBlocks);
  }

  /** Only counted messages matter: dropping the others leaves the total as it is. */
  lemma {:induction false} OnlyCountedMessagesMatter(ms: seq<Message>, includeCode: bool, removeCodeBlocks: string -> string)
    ensures ConversationTokens(Some(Filter(ms, Counted)), includeCode, removeCodeBlocks)
         == ConversationTokens(Some(ms), includeCode, removeCodeBlocks)
    decreases |ms|
  {
    if |ms| > 0 {
      var init := ms[..|ms| - 1];
      var m := ms[|ms| - 1];
      OnlyCountedMessagesMatter(init, includeCode, removeCodeBlocks);
      if Counted(m) {
        SumAppend(Filter(init, Counted), m, includeCode, removeCodeBlocks);
      }
    }
  }

  // ---------------------------------------------------------------------------
  // Which side of the conversation a node is on

  datatype Side = UserSide | AssistantSide

  /** The labels the role rules hand out for the two sides; `None` is `undefined`. */
  datatype RoleLabels = RoleLabels(user: Option<string>, assistant: Option<string>)

  /** The labels an entry declares, under its `selectors`. */
  function Labels(cfg: PlatformConfig): RoleLabels {
    RoleLabels(Some(cfg.selectors.userRole), Some(cfg.selectors.assistantRole))
  }

  /** What `config.userRole` and `config.assistantRole` read on a registry entry: the entry
      has no such top-level properties, so both are `undefined`. */
  const TopLevelLabels := RoleLabels(None, None)

  function Label(s: Side, labels: RoleLabels): Option<string> {
    match s
    case UserSide => labels.user
    case AssistantSide => labels.assistant
  }

  /** A side's label, or `'unknown'` when the rules reach no verdict. */
  function SideOrUnknown(s: Option<Side>, labels: RoleLabels): Option<string> {
    if s.Some? then Label(s.value, labels) else Some("unknown")
  }

  /** The openings of a conversation turn that mark a question (如何, 什麼, 為什麼, 請, 可以,
      能否, 幫我, 我想, 我需要). */
  const UserOpenings: seq<string> := [
    "\U{5982}\U{4F55}", "\U{4EC0}\U{9EBC}", "\U{70BA}\U{4EC0}\U{9EBC}", "\U{8ACB}", "\U{53EF}\U{4EE5}",
    "\U{80FD}\U{5426}", "\U{5E6B}\U{6211}", "\U{6211}\U{60F3}", "\U{6211}\U{9700}\U{8981}"]

  /** Pieces of text that suggest a request (?, ？, 如何, 什麼, 為什麼, 幫我, 請, 可以, 能否,
      我想, 我需要). */
  const UserPatterns: seq<string> := [
    "?", "\U{FF1F}", "\U{5982}\U{4F55}", "\U{4EC0}\U{9EBC}", "\U{70BA}\U{4EC0}\U{9EBC}", "\U{5E6B}\U{6211}",
    "\U{8ACB}", "\U{53EF}\U{4EE5}", "\U{80FD}\U{5426}", "\U{6211}\U{60F3}", "\U{6211}\U{9700}\U{8981}"]

  /** Pieces of text that suggest an answer (the English phrases, 我可以, 讓我, 根據, 基於). */
  const AssistantPatterns: seq<string> := [
    "I can", "I'll", "Let me", "Based on", "Here's", "I understand", "I'd be happy",
    "\U{6211}\U{53EF}\U{4EE5}", "\U{8B93}\U{6211}", "\U{6839}\U{64DA}", "\U{57FA}\U{65BC}"]

  /** `patterns.some(p => s.includes(p))` */
  predicate AnyContains(s: string, patterns: seq<string>) {
    exists k :: 0 <= k < |patterns| && Contains(s, patterns[k])
  }

  /** `/^(p1|p2|…)/.test(s)` for literal alternatives. */
  predicate StartsWithAny(s: string, prefixes: seq<string>) {
    exists k :: 0 <= k < |prefixes| && StartsWith(s, prefixes[k])
  }

  /** The nodes whose trimmed text is longer than 20 characters, in order. */
  function Substantial(doc: Document, nodes: seq<NodeId>): (r: seq<NodeId>)
    ensures forall k :: 0 <= k < |r| ==> r[k] in nodes
    decreases |nodes|
  {
    if |nodes| == 0 then []
    else
      var init := Substantial(doc, nodes[..|nodes| - 1]);
      var el := nodes[|nodes| - 1];
      if |Trim(doc.text(el))| > 20 then init + [el] else init
  }

  /** Among distinct nodes the substantial ones are distinct too. */
  lemma {:induction false} SubstantialDistinct(doc: Document, nodes: seq<NodeId>)
    requires NoDuplicates(nodes)
    ensures NoDuplicates(Substantial(doc, nodes))
    decreases |nodes|
  {
    if |nodes| > 0 {
      var init := nodes[..|nodes| - 1];
      assert NoDuplicates(init);
      SubstantialDistinct(doc, init);
      assert nodes[|nodes| - 1] !in init;
    }
  }

  /** The ancestor rule: up to `levels` parents, the first one that names a side decides. */
  function AncestorSide(doc: Document, n: NodeId, levels: nat): Option<Side>
    decreases levels
  {
    if levels == 0 then None
    else match doc.parent(n)
      case None => None
      case Some(p) =>
        var cls := doc.className(p);
        var testId := Attr(doc, p, "data-testid");
        if Contains(cls, "font-user") || Contains(testId, "user") || Contains(testId, "human") then Some(UserSide)
        else if Contains(cls, "font-claude") || Contains(testId, "assistant") || Contains(testId, "claude") then Some(AssistantSide)
        else AncestorSide(doc, p, levels - 1)
  }

  /** The terminal rule for Claude: the parity of the node's position among the
      substantial primary matches, or, when it is not one of them, of its position among
      all primary matches. An absent node has position -1, which is odd (in JavaScript
      `-1 % 2` is -1 and here it is 1; neither is 0). */
  function ParitySide(cfg: PlatformConfig, doc: Document, n: NodeId): Side {
    var all := doc.query(cfg.selectors.primary);
    var rank := IndexOf(Substantial(doc, all), n);
    if rank >= 0 then (if rank % 2 == 0 then UserSide else AssistantSide)
    else (if IndexOf(all, n) % 2 == 0 then UserSide else AssistantSide)
  }

  /** The Claude battery, in order: streaming flag, conversation-turn test id, test id
      words, font classes, article with a test id, right-aligned layout, ancestors
      (`anc`), text patterns, parity. It always decides. */
  function ClaudeSide(cfg: PlatformConfig, doc: Document, n: NodeId, anc: Option<Side>): (s: Side)
    ensures doc.attribute(n, "data-is-streaming") in {Some("true"), Some("false")} ==> s == AssistantSide
  {
    var streaming := doc.attribute(n, "data-is-streaming");
    var testId := Attr(doc, n, "data-testid");
    var cls := doc.className(n);
    var text := doc.text(n);
    if streaming == Some("true") || streaming == Some("false") then AssistantSide
    else if testId == "conversation-turn" then
      (if StartsWithAny(text, UserOpenings) then UserSide else AssistantSide)
    else if Contains(testId, "user") || Contains(testId, "human") then UserSide
    else if Contains(testId, "assistant") || Contains(testId, "claude") || Contains(testId, "model") then AssistantSide
    else if Contains(cls, "font-user") || Contains(cls, "font-user-message") || Contains(cls, "user-message")
         || doc.closest(n, "[class*=\"font-user\"]") then UserSide
    else if Contains(cls, "font-claude") || Contains(cls, "font-claude-message") || Contains(cls, "font-claude-response")
         || doc.closest(n, "[class*=\"font-claude\"]") then AssistantSide
    else if Attr(doc, n, "role") == "article" && testId != "" then AssistantSide
    else if Contains(cls, "justify-end") || Contains(cls, "ml-auto")
         || doc.closest(n, "[class*=\"justify-end\"]") || doc.closest(n, "[class*=\"ml-auto\"]") then UserSide
    else if anc.Some? then anc.value
    // the text rules apply only to text whose trimmed length exceeds 10
    else if |Trim(text)| > 10 && AnyContains(text, UserPatterns) && |text| < 500 then UserSide
    else if |Trim(text)| > 10 && (AnyContains(text, AssistantPatterns) || |text| > 800) then AssistantSide
    else ParitySide(cfg, doc, n)
  }

  /** The Gemini rules; `None` when none applies. */
  function GeminiSide(doc: Document, n: NodeId): Option<Side> {
    var cls := doc.className(n);
    if HasClass(doc, n, "user-message") || AttrContains(doc, n, "data-testid", "user") then Some(UserSide)
    else if HasClass(doc, n, "model-message") || AttrContains(doc, n, "data-testid", "model") then Some(AssistantSide)
    else if Contains(cls, "response-container") then Some(AssistantSide)
    else if Contains(cls, "query-input") || Contains(cls, "prompt") || Contains(cls, "user-query") then Some(UserSide)
    else None
  }

  /** The Grok rules, ending in parity among the substantial primary matches; `None` for
      a node that is not one of them. */
  function GrokSide(cfg: PlatformConfig, doc: Document, n: NodeId): Option<Side> {
    var testId := Attr(doc, n, "data-testid");
    var cls := doc.className(n);
    if Contains(cls, "not-prose") || doc.closest(n, ".not-prose") then Some(AssistantSide)
    else if Contains(testId, "tweet") || Contains(testId, "cellInnerDiv") then
      (if HasDescendant(doc, n, "[data-testid*=\"grok\"]") || Contains(doc.text(n), "@grok")
          || doc.closest(n, "[aria-label*=\"Grok\"]")
       then Some(AssistantSide) else Some(UserSide))
    else if Contains(testId, "user") || doc.closest(n, "[data-testid*=\"user\"]") then Some(UserSide)
    else if Contains(testId, "grok") || doc.closest(n, "[data-testid*=\"grok\"]") then Some(AssistantSide)
    else
      var rank := IndexOf(Substantial(doc, doc.query(cfg.selectors.primary)), n);
      if rank >= 0 then Some(if rank % 2 == 0 then UserSide else AssistantSide) else None
  }

  /** Everything role extraction depends on: the entry in use, the labels its rules hand
      out, the platform detected for the page, and the page. */
  datatype Context = Context(cfg: PlatformConfig, labels: RoleLabels, detected: Platform, doc: Document)

  /** The context in which the rules hand out the entry's own labels. */
  function Corrected(cfg: PlatformConfig, detected: Platform, doc: Document): Context {
    Context(cfg, Labels(cfg), detected, doc)
  }

  /** `determineMessageRole(element)` with a configuration present, switching on the
      detected platform. ChatGPT reads the author attribute; every other platform answers
      with one of the two labels or `'unknown'`. */
  function RoleOf(ctx: Context, n: NodeId): (r: Option<string>)
    ensures ctx.detected == ChatGPT ==> r == Some(OrElse(ctx.doc.attribute(n, "data-message-author-role"), "unknown"))
    ensures ctx.detected != ChatGPT ==> r == Some("unknown") || r == ctx.labels.user || r == ctx.labels.assistant
    ensures ctx.labels.user.Some? && ctx.labels.assistant.Some? ==> r.Some?
  {
    match ctx.detected
    case ChatGPT => Some(OrElse(ctx.doc.attribute(n, "data-message-author-role"), "unknown"))
    case Claude => Label(ClaudeSide(ctx.cfg, ctx.doc, n, AncestorSide(ctx.doc, n, 3)), ctx.labels)
    case Gemini => SideOrUnknown(GeminiSide(ctx.doc, n), ctx.labels)
    case Grok => SideOrUnknown(GrokSide(ctx.cfg, ctx.doc, n), ctx.labels)
    case Unknown => Some("unknown")
  }

  /** `inferDefaultRoleForCounting(element, content)`: the assistant label when the Gemini
      or Grok markers are present, otherwise the assistant label or `'assistant'`. */
  function InferDefaultRoleForCounting(cfg: PlatformConfig, labels: RoleLabels, doc: Document, n: NodeId): (r: Option<string>)
    ensures r == labels.assistant || r == Some(OrElse(labels.assistant, "assistant"))
  {
    var platformName := LowerAscii(cfg.name);
    var cls := doc.className(n);
    if Contains(platformName, "gemini")
       && (Contains(cls, "response-container") || HasDescendant(doc, n, ".model-response-text, .formatted-text"))
    then labels.assistant
    else if Contains(platformName, "grok") && (Contains(cls, "not-prose") || doc.closest(n, ".not-prose"))
    then labels.assistant
    else Some(OrElse(labels.assistant, "assistant"))
  }

  /** The role an unknown or missing role is replaced by: the inferred one, else the
      assistant label, else `'assistant'`. */
  function DefaultRole(ctx: Context, n: NodeId): (r: string)
    ensures r != ""
  {
    OrElse(InferDefaultRoleForCounting(ctx.cfg, ctx.labels, ctx.doc, n), OrElse(ctx.labels.assistant, "assistant"))
  }

  /** With the entry's own labels, the default for counting is its assistant label
      (`'assistant'` when that is empty), whichever branch of the inference applies. */
  lemma DefaultRoleIsAssistantLabel(cfg: PlatformConfig, detected: Platform, doc: Document, n: NodeId)
    ensures DefaultRole(Corrected(cfg, detected, doc), n) == OrElse(Some(cfg.selectors.assistantRole), "assistant")
  {
  }

  /** The role kept for a message with substantial content: a missing, empty or
      `'unknown'` role is replaced by the default. */
  function MessageRole(ctx: Context, n: NodeId): (r: string)
    ensures r != ""
  {
    var role := RoleOf(ctx, n);
    if role.None? || role.value == "" || role.value == "unknown" then DefaultRole(ctx, n) else role.value
  }

  // ---------------------------------------------------------------------------
  // The text of a message node

  /** The Claude pre-filter: nodes that are evidently controls rather than messages. */
  predicate SkippedAsUi(cfg: PlatformConfig, doc: Document, n: NodeId) {
    var cls := doc.className(n);
    var text := doc.text(n);
    && cfg.name == "Claude"
    && (|| Contains(cls, "group-hover") || Contains(cls, "transition") || Contains(cls, "button")
        || Contains(cls, "cursor-") || |text| < 10
        || StartsWithAny(text, ["Copy", "Regenerate", "Share", "Edit", "Delete"]) || AllSpace(text))
  }

  /** The texts of a list of nodes that are not blank, in order. */
  function NonBlankTexts(doc: Document, ns: seq<NodeId>): seq<string>
    decreases |ns|
  {
    if |ns| == 0 then []
    else
      var init := NonBlankTexts(doc, ns[..|ns| - 1]);
      var t := doc.text(ns[|ns| - 1]);
      if Trim(t) != "" then init + [t] else init
  }

  /** Strategy 1: the non-blank texts of the content-selector matches, joined by spaces and
      trimmed; `""` when there are no matches. */
  function FromContentSelector(cfg: PlatformConfig, doc: Document, n: NodeId): string {
    var els := doc.queryWithin(n, cfg.selectors.content);
    if |els| > 0 then Trim(Join(NonBlankTexts(doc, els), " ")) else ""
  }

  const NestedContainers: Selector := "p, div, span, [dir=\"auto\"], pre, code"

  /** Strategy 2: the node's own text, when strategy 1 found nothing. */
  function FromOwnText(doc: Document, n: NodeId, content: string): string {
    if content == "" then doc.text(n) else content
  }

  /** Strategy 3, for content shorter than 10: the non-blank texts of the common text
      containers, joined and trimmed, when there are any. */
  function FromNestedContainers(doc: Document, n: NodeId, content: string): string {
    var ts := NonBlankTexts(doc, doc.queryWithin(n, NestedContainers));
    if |content| < 10 && |ts| > 0 then Trim(Join(ts, " ")) else content
  }

  /** What the tree walker collects: each text node's value trimmed, the blank ones left
      out. */
  function WalkedText(values: seq<string>): seq<string>
    decreases |values|
  {
    if |values| == 0 then []
    else
      var init := WalkedText(values[..|values| - 1]);
      var t := Trim(values[|values| - 1]);
      if t != "" then init + [t] else init
  }

  /** A `div` text strategy 5 accepts: more than 20 characters once trimmed, mentioning
      neither "Copy" nor "Regenerate". */
  predicate SubstantialDiv(t: string) {
    |Trim(t)| > 20 && !Contains(t, "Copy") && !Contains(t, "Regenerate")
  }

  /** Strategy 5: the trimmed text of the first descendant `div` from position `i` on
      that it accepts. */
  function FirstSubstantialDiv(doc: Document, divs: seq<NodeId>, i: nat): (r: Option<string>)
    ensures r.Some? ==> |r.value| > 20
    decreases |divs| - i
  {
    if i >= |divs| then None
    else if SubstantialDiv(doc.text(divs[i])) then Some(Trim(doc.text(divs[i])))
    else FirstSubstantialDiv(doc, divs, i + 1)
  }

  /** Strategy 4, on Claude for content shorter than 20: the walked text nodes, joined
      and trimmed, when there are any. */
  function FromTextWalker(cfg: PlatformConfig, doc: Document, n: NodeId, content: string): string {
    var walked := WalkedText(doc.textNodes(n));
    if |content| < 20 && cfg.name == "Claude" && |walked| > 0 then Trim(Join(walked, " ")) else content
  }

  /** Strategy 5, on Claude for content shorter than 10: the first accepted `div`. */
  function FromSubstantialDiv(cfg: PlatformConfig, doc: Document, n: NodeId, content: string): string {
    var div := FirstSubstantialDiv(doc, doc.queryWithin(n, "div"), 0);
    if |content| < 10 && cfg.name == "Claude" && div.Some? then div.value else content
  }

  /** The strategies in turn, each one tried only while the content is still short
      (`!content || content.length < k` is `|content| < k`, as `""` has length 0). */
  function ExtractedContent(cfg: PlatformConfig, doc: Document, n: NodeId): string {
    var c2 := FromOwnText(doc, n, FromContentSelector(cfg, doc, n));
    FromSubstantialDiv(cfg, doc, n, FromTextWalker(cfg, doc, n, FromNestedContainers(doc, n, c2)))
  }

  /** Substantial content found by the content selector is final: no later strategy
      replaces it (20 characters on Claude, 10 elsewhere). */
  lemma ContentSelectorWins(cfg: PlatformConfig, doc: Document, n: NodeId)
    requires |FromContentSelector(cfg, doc, n)| >= (if cfg.name == "Claude" then 20 else 10)
    ensures ExtractedContent(cfg, doc, n) == FromContentSelector(cfg, doc, n)
  {
  }

  /** The content of a message: the strategies' result trimmed, when the node is not a
      skipped control and that result exceeds 10 characters. */
  function MessageContent(cfg: PlatformConfig, doc: Document, n: NodeId): (c: Option<string>)
    ensures c.Some? <==> !SkippedAsUi(cfg, doc, n) && |Trim(ExtractedContent(cfg, doc, n))| > 10
    ensures c.Some? ==> c.value == Trim(ExtractedContent(cfg, doc, n)) && IsTrimmed(c.value) && |c.value| > 10
  {
    if SkippedAsUi(cfg, doc, n) then None
    else
      var content := ExtractedContent(cfg, doc, n);
      TrimIsTrimmed(content);
      if |Trim(content)| > 10 then Some(Trim(content)) else None
  }

  /** `extractMessageFromElement(element)` with a configuration present: a message exactly
      when there is content, with the role kept for it. */
  function ExtractMessage(ctx: Context, n: NodeId): (m: Option<Message>)
    ensures m.Some? <==> MessageContent(ctx.cfg, ctx.doc, n).Some?
    ensures m.Some? ==> m.value.content == MessageContent(ctx.cfg, ctx.doc, n).value && m.value.role == MessageRole(ctx, n)
  {
    var content := MessageContent(ctx.cfg, ctx.doc, n);
    if content.Some? then Some(Message(MessageRole(ctx, n), content.value)) else None
  }

  /** An unknown role becomes the entry's assistant label (or `'assistant'` when that is
      empty). */
  lemma UnknownRoleBecomesAssistantLabel(cfg: PlatformConfig, detected: Platform, doc: Document, n: NodeId)
    requires RoleOf(Corrected(cfg, detected, doc), n) in {None, Some(""), Some("unknown")}
    ensures MessageRole(Corrected(cfg, detected, doc), n) == OrElse(Some(cfg.selectors.assistantRole), "assistant")
  {
    DefaultRoleIsAssistantLabel(cfg, detected, doc, n);
  }

  /** On ChatGPT the author attribute is the role, when it is neither absent, empty nor
      `'unknown'`, whatever the labels. */
  lemma ChatGPTRoleIsAuthorAttribute(cfg: PlatformConfig, labels: RoleLabels, doc: Document, n: NodeId, a: string)
    requires doc.attribute(n, "data-message-author-role") == Some(a) && a != "" && a != "unknown"
    ensures MessageRole(Context(cfg, labels, ChatGPT, doc), n) == a
  {
  }

  /** On Claude a streaming flag makes the node an assistant message, before any other rule. */
  lemma StreamingIsAssistant(cfg: PlatformConfig, doc: Document, n: NodeId)
    requires doc.attribute(n, "data-is-streaming") in {Some("true"), Some("false")}
    requires cfg.selectors.assistantRole != "" && cfg.selectors.assistantRole != "unknown"
    ensures MessageRole(Corrected(cfg, Claude, doc), n) == cfg.selectors.assistantRole
  {
    assert ClaudeSide(cfg, doc, n, AncestorSide(doc, n, 3)) == AssistantSide;
  }

  /** A node that is not a primary match sits at position -1, so parity makes it an
      assistant message on Claude. */
  lemma AbsentNodeIsAssistant(cfg: PlatformConfig, doc: Document, n: NodeId)
    requires n !in doc.query(cfg.selectors.primary)
    ensures ParitySide(cfg, doc, n) == AssistantSide
  {
    var s := Substantial(doc, doc.query(cfg.selectors.primary));
    assert n !in s;
  }

  /** Among distinct primary matches, the k-th substantial one is on the user side exactly
      when k is even: the conversation is assumed to open with the user. */
  lemma ParityAlternates(cfg: PlatformConfig, doc: Document, k: nat)
    requires NoDuplicates(doc.query(cfg.selectors.primary))
    requires k < |Substantial(doc, doc.query(cfg.selectors.primary))|
    ensures ParitySide(cfg, doc, Substantial(doc, doc.query(cfg.selectors.primary))[k]) == (if k % 2 == 0 then UserSide else AssistantSide)
  {
    var all := doc.query(cfg.selectors.primary);
    SubstantialDistinct(doc, all);
    IndexOfDistinct(Substantial(doc, all), k);
  }

  /** The Gemini rules in their order: a user marker wins over a model marker, a model
      marker over the class heuristics, and a node with no marker at all is `'unknown'`. */
  lemma GeminiRoles(cfg: PlatformConfig, doc: Document, n: NodeId)
    ensures var ctx := Corrected(cfg, Gemini, doc);
      && (HasClass(doc, n, "user-message") || AttrContains(doc, n, "data-testid", "user") ==>
            RoleOf(ctx, n) == Some(cfg.selectors.userRole))
      && (!HasClass(doc, n, "user-message") && !AttrContains(doc, n, "data-testid", "user")
            && (HasClass(doc, n, "model-message") || AttrContains(doc, n, "data-testid", "model")) ==>
            RoleOf(ctx, n) == Some(cfg.selectors.assistantRole))
    ensures var cls := doc.className(n);
      GeminiSide(doc, n).None? <==>
        && !HasClass(doc, n, "user-message") && !AttrContains(doc, n, "data-testid", "user")
        && !HasClass(doc, n, "model-message") && !AttrContains(doc, n, "data-testid", "model")
        && !Contains(cls, "response-container")
        && !Contains(cls, "query-input") && !Contains(cls, "prompt") && !Contains(cls, "user-query")
    ensures GeminiSide(doc, n).None? ==> RoleOf(Corrected(cfg, Gemini, doc), n) == Some("unknown")
  {
  }

  /** The Grok rules in their order: `not-prose` always gives the assistant; a post or
      timeline cell always gets a verdict, the assistant exactly when a Grok indicator is
      present; and with no verdict the node is not a substantial primary match. */
  lemma GrokRoles(cfg: PlatformConfig, doc: Document, n: NodeId)
    ensures Contains(doc.className(n), "not-prose") || doc.closest(n, ".not-prose") ==>
      RoleOf(Corrected(cfg, Grok, doc), n) == Some(cfg.selectors.assistantRole)
    ensures var testId := Attr(doc, n, "data-testid");
      !Contains(doc.className(n), "not-prose") && !doc.closest(n, ".not-prose")
      && (Contains(testId, "tweet") || Contains(testId, "cellInnerDiv")) ==>
        GrokSide(cfg, doc, n).Some? &&
        (GrokSide(cfg, doc, n) == Some(AssistantSide) <==>
          HasDescendant(doc, n, "[data-testid*=\"grok\"]") || Contains(doc.text(n), "@grok")
          || doc.closest(n, "[aria-label*=\"Grok\"]"))
    ensures GrokSide(cfg, doc, n).None? ==> n !in Substantial(doc, doc.query(cfg.selectors.primary))
  {
  }

  /** A Grok node that no marker classifies takes its side from its rank among the
      substantial primary matches: the k-th is on the user side iff k is even. */
  lemma GrokParity(cfg: PlatformConfig, doc: Document, k: nat)
    requires NoDuplicates(doc.query(cfg.selectors.primary))
    requires k < |Substantial(doc, doc.query(cfg.selectors.primary))|
    ensures var m := Substantial(doc, doc.query(cfg.selectors.primary))[k];
      var testId := Attr(doc, m, "data-testid");
      (&& !Contains(doc.className(m), "not-prose") && !doc.closest(m, ".not-prose")
       && !Contains(testId, "tweet") && !Contains(testId, "cellInnerDiv")
       && !Contains(testId, "user") && !doc.closest(m, "[data-testid*=\"user\"]")
       && !Contains(testId, "grok") && !doc.closest(m, "[data-testid*=\"grok\"]")) ==>
        GrokSide(cfg, doc, m) == Some(if k % 2 == 0 then UserSide else AssistantSide)
  {
    var subs := Substantial(doc, doc.query(cfg.selectors.primary));
    SubstantialDistinct(doc, doc.query(cfg.selectors.primary));
    IndexOfDistinct(subs, k);
  }

  // ---------------------------------------------------------------------------
  // The selector cascade

  /** A way of turning a node into a message, or into nothing. The cascade is written
      for any extraction; `Extractor` is the one the estimator uses. */
  type Extraction = NodeId -> Option<Message>

  function Extractor(ctx: Context): Extraction {
    (n: NodeId) => ExtractMessage(ctx, n)
  }

  /** The messages extracted from a list of nodes, in order, the failures dropped. */
  function ExtractAll(extract: Extraction, nodes: seq<NodeId>): (ms: seq<Message>)
    ensures |ms| <= |nodes|
    decreases |nodes|
  {
    if |nodes| == 0 then []
    else
      var rest := ExtractAll(extract, nodes[..|nodes| - 1]);
      var m := extract(nodes[|nodes| - 1]);
      if m.Some? then rest + [m.value] else rest
  }

  /** A list of nodes yields no message exactly when no node in it does. */
  lemma {:induction false} ExtractAllEmpty(extract: Extraction, nodes: seq<NodeId>)
    ensures |ExtractAll(extract, nodes)| == 0 <==> forall j :: 0 <= j < |nodes| ==> extract(nodes[j]).None?
    decreases |nodes|
  {
    if |nodes| > 0 {
      var init := nodes[..|nodes| - 1];
      ExtractAllEmpty(extract, init);
      assert forall j :: 0 <= j < |init| ==> init[j] == nodes[j];
    }
  }

  /** Extending the list by one node appends that node's message, if any. */
  lemma ExtractAllSnoc(extract: Extraction, nodes: seq<NodeId>, i: nat)
    requires i < |nodes|
    ensures ExtractAll(extract, nodes[..i + 1])
         == ExtractAll(extract, nodes[..i]) + (if extract(nodes[i]).Some? then [extract(nodes[i]).value] else [])
  {
    assert nodes[..i + 1][..i] == nodes[..i];
  }

  /** The step of a loop that pushes what `extract` yields for `nodes[i]`. */
  lemma PushExtracted(extract: Extraction, nodes: seq<NodeId>, i: nat, acc: seq<Message>, messages: seq<Message>, m: Option<Message>)
    requires i < |nodes| && m == extract(nodes[i]) && messages == acc + ExtractAll(extract, nodes[..i])
    ensures (if m.Some? then messages + [m.value] else messages) == acc + ExtractAll(extract, nodes[..i + 1])
  {
    ExtractAllSnoc(extract, nodes, i);
  }

  /** Extraction keeps order: the messages of two runs of nodes are those of the first
      followed by those of the second. */
  lemma {:induction false} ExtractAllAppend(extract: Extraction, a: seq<NodeId>, b: seq<NodeId>)
    ensures ExtractAll(extract, a + b) == ExtractAll(extract, a) + ExtractAll(extract, b)
    decreases |b|
  {
    if |b| == 0 {
      assert a + b == a;
    } else {
      var b' := b[..|b| - 1];
      assert (a + b)[..|a + b| - 1] == a + b';
      assert (a + b)[|a + b| - 1] == b[|b| - 1];
      ExtractAllAppend(extract, a, b');
    }
  }

  /** One tier: the messages extracted from the matches of one selector. */
  function Tier(extract: Extraction, doc: Document, sel: Selector): seq<Message> {
    ExtractAll(extract, doc.query(sel))
  }

  /** The fallback loop: the first tier that yields a message, alone. */
  function FirstFallback(extract: Extraction, doc: Document, sels: seq<Selector>): seq<Message>
    decreases |sels|
  {
    if |sels| == 0 then []
    else if |Tier(extract, doc, sels[0])| > 0 then Tier(extract, doc, sels[0])
    else FirstFallback(extract, doc, sels[1..])
  }

  /** The messages `estimateFromDOM` counts: the primary tier, or the fallback search
      when the primary tier yields none. */
  function Cascade(extract: Extraction, doc: Document, cfg: PlatformConfig): seq<Message> {
    var primary := Tier(extract, doc, cfg.selectors.primary);
    if |primary| > 0 then primary else FirstFallback(extract, doc, cfg.selectors.fallback)
  }

  /** The fallback search returns the first non-empty tier, or nothing when every tier is
      empty. */
  lemma {:induction false} FirstFallbackIsFirstNonEmpty(extract: Extraction, doc: Document, sels: seq<Selector>)
    ensures FirstFallback(extract, doc, sels) == [] ==> forall j :: 0 <= j < |sels| ==> Tier(extract, doc, sels[j]) == []
    ensures FirstFallback(extract, doc, sels) != [] ==>
      exists k :: 0 <= k < |sels| && FirstFallback(extract, doc, sels) == Tier(extract, doc, sels[k])
                  && forall j :: 0 <= j < k ==> Tier(extract, doc, sels[j]) == []
    decreases |sels|
  {
    if |sels| > 0 && |Tier(extract, doc, sels[0])| == 0 {
      var rest := sels[1..];
      FirstFallbackIsFirstNonEmpty(extract, doc, rest);
      if FirstFallback(extract, doc, sels) != [] {
        var k :| 0 <= k < |rest| && FirstFallback(extract, doc, rest) == Tier(extract, doc, rest[k])
                 && forall j :: 0 <= j < k ==> Tier(extract, doc, rest[j]) == [];
        assert FirstFallback(extract, doc, sels) == Tier(extract, doc, sels[k + 1]);
        forall j | 0 <= j < k + 1 ensures Tier(extract, doc, sels[j]) == [] {
          if j > 0 { assert sels[j] == rest[j - 1]; }
        }
      } else {
        forall j | 0 <= j < |sels| ensures Tier(extract, doc, sels[j]) == [] {
          if j > 0 { assert sels[j] == rest[j - 1]; }
        }
      }
    }
  }

  /** The cascade never merges tiers: the result is the primary tier when that yields a
      message, otherwise exactly one fallback tier, each earlier tier having yielded
      nothing, or nothing at all. */
  lemma CascadeIsOneTier(extract: Extraction, doc: Document, cfg: PlatformConfig)
    ensures |Tier(extract, doc, cfg.selectors.primary)| > 0 ==> Cascade(extract, doc, cfg) == Tier(extract, doc, cfg.selectors.primary)
    ensures |Tier(extract, doc, cfg.selectors.primary)| == 0 && Cascade(extract, doc, cfg) != [] ==>
      exists k :: 0 <= k < |cfg.selectors.fallback| && Cascade(extract, doc, cfg) == Tier(extract, doc, cfg.selectors.fallback[k])
                  && forall j :: 0 <= j < k ==> Tier(extract, doc, cfg.selectors.fallback[j]) == []
    ensures Cascade(extract, doc, cfg) == [] ==>
      Tier(extract, doc, cfg.selectors.primary) == []
      && forall j :: 0 <= j < |cfg.selectors.fallback| ==> Tier(extract, doc, cfg.selectors.fallback[j]) == []
  {
    FirstFallbackIsFirstNonEmpty(extract, doc, cfg.selectors.fallback);
  }

  // ---------------------------------------------------------------------------
  // Labels do not change the count

  /** Two extractions agree on which nodes yield a message and on its content, and all
      their messages have a role. */
  ghost predicate SameCounts(e1: Extraction, e2: Extraction) {
    forall n :: e1(n).Some? == e2(n).Some?
      && (e1(n).Some? ==> e1(n).value.content == e2(n).value.content && e1(n).value.role != "" && e2(n).value.role != "")
  }

  /** Whether a node yields a message, and its content, do not depend on the labels. */
  lemma ExtractionIgnoresLabels(ctx: Context, labels: RoleLabels)
    ensures SameCounts(Extractor(ctx), Extractor(ctx.(labels := labels)))
  {
    forall n ensures Extractor(ctx)(n).Some? == Extractor(ctx.(labels := labels))(n).Some? {
    }
  }

  lemma {:induction false} TierCountIgnoresLabels(e1: Extraction, e2: Extraction, nodes: seq<NodeId>, includeCode: bool, removeCodeBlocks: string -> string)
    requires SameCounts(e1, e2)
    ensures |ExtractAll(e1, nodes)| == |ExtractAll(e2, nodes)|
    ensures ConversationSum(ExtractAll(e1, nodes), includeCode, removeCodeBlocks)
         == ConversationSum(ExtractAll(e2, nodes), includeCode, removeCodeBlocks)
    decreases |nodes|
  {
    if |nodes| > 0 {
      var init := nodes[..|nodes| - 1];
      var n := nodes[|nodes| - 1];
      TierCountIgnoresLabels(e1, e2, init, includeCode, removeCodeBlocks);
      if e1(n).Some? {
        SumAppend(ExtractAll(e1, init), e1(n).value, includeCode, removeCodeBlocks);
        SumAppend(ExtractAll(e2, init), e2(n).value, includeCode, removeCodeBlocks);
      }
    }
  }

  lemma {:induction false} FallbackCountIgnoresLabels(e1: Extraction, e2: Extraction, doc: Document, sels: seq<Selector>, includeCode: bool, removeCodeBlocks: string -> string)
    requires SameCounts(e1, e2)
    ensures ConversationSum(FirstFallback(e1, doc, sels), includeCode, removeCodeBlocks)
         == ConversationSum(FirstFallback(e2, doc, sels), includeCode, removeCodeBlocks)
    decreases |sels|
  {
    if |sels| > 0 {
      TierCountIgnoresLabels(e1, e2, doc.query(sels[0]), includeCode, removeCodeBlocks);
      FallbackCountIgnoresLabels(e1, e2, doc, sels[1..], includeCode, removeCodeBlocks);
    }
  }

  /** The tokens counted for a page are the same whatever labels the role rules hand out. */
  lemma CountIgnoresLabels(ctx: Context, labels: RoleLabels, includeCode: bool, removeCodeBlocks: string -> string)
    ensures ConversationTokens(Some(Cascade(Extractor(ctx), ctx.doc, ctx.cfg)), includeCode, removeCodeBlocks)
         == ConversationTokens(Some(Cascade(Extractor(ctx.(labels := labels)), ctx.doc, ctx.cfg)), includeCode, removeCodeBlocks)
  {
    var e1, e2 := Extractor(ctx), Extractor(ctx.(labels := labels));
    ExtractionIgnoresLabels(ctx, labels);
    TierCountIgnoresLabels(e1, e2, ctx.doc.query(ctx.cfg.selectors.primary), includeCode, removeCodeBlocks);
    FallbackCountIgnoresLabels(e1, e2, ctx.doc, ctx.cfg.selectors.fallback, includeCode, removeCodeBlocks);
  }

  // ---------------------------------------------------------------------------
  // The labels as the source reads them

  /** Reading the labels off the top level of the entry, every message outside ChatGPT is
      labelled `'assistant'`, whatever side the rules found and whatever the entry
      declares. */
  lemma TopLevelLabelsCollapseRoles(cfg: PlatformConfig, detected: Platform, doc: Document, n: NodeId)
    requires detected != ChatGPT
    ensures MessageRole(Context(cfg, TopLevelLabels, detected, doc), n) == "assistant"
  {
  }

  /** With the entry's own labels, a Claude node whose test id names the user is labelled
      with the entry's user label ('human' in the registry). */
  lemma UserTestIdGetsUserLabel(cfg: PlatformConfig, doc: Document, n: NodeId, testId: string)
    requires doc.attribute(n, "data-is-streaming") == None
    requires doc.attribute(n, "data-testid") == Some(testId) && testId != "conversation-turn" && Contains(testId, "user")
    requires cfg.selectors.userRole != "" && cfg.selectors.userRole != "unknown"
    ensures MessageRole(Corrected(cfg, Claude, doc), n) == cfg.selectors.userRole
  {
    assert ClaudeSide(cfg, doc, n, AncestorSide(doc, n, 3)) == UserSide;
  }

  // ---------------------------------------------------------------------------
  // The loops

  /** The ancestor walk: up to three parents, stopping at the root or at a verdict. */
  method AncestorWalk(doc: Document, n: NodeId) returns (v: Option<Side>)
    ensures v == AncestorSide(doc, n, 3)
  {
    var current := n;
    var i := 0;
    while i < 3
      invariant 0 <= i <= 3
      invariant AncestorSide(doc, n, 3) == AncestorSide(doc, current, 3 - i)
    {
      if doc.parent(current).None? {
        break;
      }
      current := doc.parent(current).value;
      var cls := doc.className(current);
      var testId := Attr(doc, current, "data-testid");
      if Contains(cls, "font-user") || Contains(testId, "user") || Contains(testId, "human") {
        return Some(UserSide);
      }
      if Contains(cls, "font-claude") || Contains(testId, "assistant") || Contains(testId, "claude") {
        return Some(AssistantSide);
      }
      i := i + 1;
    }
    return None;
  }

  /** The tree walker loop of strategy 4. */
  method WalkTextNodes(values: seq<string>) returns (texts: seq<string>)
    ensures texts == WalkedText(values)
  {
    texts := [];
    var i := 0;
    while i < |values|
      invariant 0 <= i <= |values|
      invariant texts == WalkedText(values[..i])
    {
      assert values[..i + 1][..i] == values[..i];
      var t := Trim(values[i]);
      if t != "" {
        texts := texts + [t];
      }
      i := i + 1;
    }
    assert values[..i] == values;
  }

  /** The `div` loop of strategy 5, leaving at the first match. */
  method FindSubstantialDiv(doc: Document, divs: seq<NodeId>) returns (r: Option<string>)
    ensures r == FirstSubstantialDiv(doc, divs, 0)
  {
    var i := 0;
    while i < |divs|
      invariant 0 <= i <= |divs|
      invariant FirstSubstantialDiv(doc, divs, 0) == FirstSubstantialDiv(doc, divs, i)
    {
      var divText := doc.text(divs[i]);
      if SubstantialDiv(divText) {
        return Some(Trim(divText));
      }
      i := i + 1;
    }
    return None;
  }

  /** Strategy 3 of `extractMessageFromElement`. */
  method TryNestedContainers(doc: Document, n: NodeId, content: string) returns (c: string)
    ensures c == FromNestedContainers(doc, n, content)
  {
    c := content;
    if |c| < 10 {
      var texts := NonBlankTexts(doc, doc.queryWithin(n, NestedContainers));
      if |texts| > 0 {
        c := Trim(Join(texts, " "));
      }
    }
  }

  /** Strategy 4 of `extractMessageFromElement`. */
  method TryTextWalker(cfg: PlatformConfig, doc: Document, n: NodeId, content: string) returns (c: string)
    ensures c == FromTextWalker(cfg, doc, n, content)
  {
    c := content;
    if |c| < 20 && cfg.name == "Claude" {
      var walked := WalkTextNodes(doc.textNodes(n));
      if |walked| > 0 {
        c := Trim(Join(walked, " "));
      }
    }
  }

  /** Strategy 5 of `extractMessageFromElement`. */
  method TrySubstantialDiv(cfg: PlatformConfig, doc: Document, n: NodeId, content: string) returns (c: string)
    ensures c == FromSubstantialDiv(cfg, doc, n, content)
  {
    c := content;
    if |c| < 10 && cfg.name == "Claude" {
      var div := FindSubstantialDiv(doc, doc.queryWithin(n, "div"));
      if div.Some? {
        c := div.value;
      }
    }
  }

  /** The content strategies of `extractMessageFromElement`, in turn. */
  method CollectContent(cfg: PlatformConfig, doc: Document, n: NodeId) returns (content: string)
    ensures content == ExtractedContent(cfg, doc, n)
  {
    content := FromContentSelector(cfg, doc, n);
    if content == "" {
      content := doc.text(n);
    }
    content := TryNestedContainers(doc, n, content);
    content := TryTextWalker(cfg, doc, n, content);
    content := TrySubstantialDiv(cfg, doc, n, content);
  }

  /** The platform the detector reports, `Unknown` without a detector (the optional call
      yields `undefined`, which no case of the role switch matches). */
  function Detected(detector: Detector?, loc: Location, doc: Document): Platform {
    if detector == null then Unknown else Resolve(detector.configs, loc, doc)
  }

  /** What `initializePlatform` leaves in `currentPlatformConfig`: the detected entry,
      or the previous value when there is no detector. */
  function AfterInit(detector: Detector?, loc: Location, doc: Document, previous: Option<PlatformConfig>): Option<PlatformConfig> {
    if detector == null then previous else CurrentPlatformConfig(detector.configs, loc, doc).config
  }

  /** The estimator object: a detector fixed at construction, the code-block filter, and
      the configuration it initialises lazily. */
  class Estimator {
    const detector: Detector?
    const removeCodeBlocks: string -> string
    var currentPlatformConfig: Option<PlatformConfig>

    constructor (detector: Detector?, removeCodeBlocks: string -> string, loc: Location, doc: Document)
      ensures this.detector == detector && this.removeCodeBlocks == removeCodeBlocks
      ensures currentPlatformConfig == AfterInit(detector, loc, doc, None)
    {
      this.detector := detector;
      this.removeCodeBlocks := removeCodeBlocks;
      currentPlatformConfig := None;
      new;
      InitializePlatform(loc, doc);
    }

    /** `initializePlatform()` */
    method InitializePlatform(loc: Location, doc: Document)
      modifies this
      ensures currentPlatformConfig == AfterInit(detector, loc, doc, old(currentPlatformConfig))
    {
      if detector != null {
        var info := detector.GetCurrentPlatformConfig(loc, doc);
        currentPlatformConfig := info.config;
      }
    }

    /** One pass of that loop's body. */
    static method AddMessage(total: nat, message: Message, includeCode: bool, removeCodeBlocks: string -> string) returns (next: nat)
      ensures next == total + Contribution(message, includeCode, removeCodeBlocks)
    {
      next := total;
      if message.role != "" && message.content != "" {
        next := next + EstimateTokens(Some(message.content), includeCode, removeCodeBlocks);
        next := next + 4;
      }
    }

    /** `estimateConversationTokens(messages, includeCode)`: the accumulating loop. */
    method EstimateConversationTokens(messages: Option<seq<Message>>, includeCode: bool) returns (total: nat)
      ensures total == ConversationTokens(messages, includeCode, removeCodeBlocks)
    {
      if messages.None? {
        return 0;
      }
      var ms := messages.value;
      total := 0;
      var i := 0;
      while i < |ms|
        invariant 0 <= i <= |ms|
        invariant total == SumTo(ms, i, includeCode, removeCodeBlocks)
      {
        var message := ms[i];
        total := AddMessage(total, message, includeCode, removeCodeBlocks);
        i := i + 1;
      }
      SumToIsSum(ms, i, includeCode, removeCodeBlocks);
      assert ms[..i] == ms;
      total := total + 3;
    }

    /** `this.platformDetector?.detectCurrentPlatform()` */
    method DetectedPlatform(loc: Location, doc: Document) returns (p: Platform)
      ensures p == Detected(detector, loc, doc)
    {
      if detector == null {
        return Unknown;
      }
      p := detector.DetectCurrentPlatform(loc, doc);
    }

    /** `determineMessageRole(element)`: `'unknown'` without a configuration, otherwise the
        rules of the detected platform with the entry's labels. */
    method DetermineMessageRole(loc: Location, doc: Document, n: NodeId) returns (role: Option<string>)
      ensures currentPlatformConfig.None? ==> role == Some("unknown")
      ensures currentPlatformConfig.Some? ==>
        role == RoleOf(Corrected(currentPlatformConfig.value, Detected(detector, loc, doc), doc), n) && role.Some?
    {
      if currentPlatformConfig.None? {
        return Some("unknown");
      }
      var config := currentPlatformConfig.value;
      var labels := Labels(config);
      var detected := DetectedPlatform(loc, doc);
      match detected
      case ChatGPT =>
        role := Some(OrElse(doc.attribute(n, "data-message-author-role"), "unknown"));
      case Claude =>
        var anc := AncestorWalk(doc, n);
        role := Label(ClaudeSide(config, doc, n, anc), labels);
      case Gemini =>
        role := SideOrUnknown(GeminiSide(doc, n), labels);
      case Grok =>
        role := SideOrUnknown(GrokSide(config, doc, n), labels);
      case Unknown =>
        role := Some("unknown");
    }

    /** `extractMessageFromElement(element)`: nothing without a configuration; otherwise
        the pre-filter, the role, the content strategies and the final validation. */
    method ExtractMessageFromElement(loc: Location, doc: Document, n: NodeId) returns (m: Option<Message>)
      ensures currentPlatformConfig.None? ==> m.None?
      ensures currentPlatformConfig.Some? ==>
        m == Extractor(Corrected(currentPlatformConfig.value, Detected(detector, loc, doc), doc))(n)
    {
      if currentPlatformConfig.None? {
        return None;
      }
      var config := currentPlatformConfig.value;
      var labels := Labels(config);
      ghost var ctx := Corrected(config, Detected(detector, loc, doc), doc);
      if SkippedAsUi(config, doc, n) {
        return None;
      }
      var role := DetermineMessageRole(loc, doc, n);
      var content := CollectContent(config, doc, n);
      var finalRole := role;
      if (finalRole.None? || finalRole == Some("") || finalRole == Some("unknown")) && |Trim(content)| > 10 {
        finalRole := Some(OrElse(InferDefaultRoleForCounting(config, labels, doc, n), OrElse(labels.assistant, "assistant")));
      }
      assert |Trim(content)| > 10 ==> finalRole == Some(MessageRole(ctx, n));
      if |Trim(content)| > 10 && finalRole.Some? && finalRole.value != "" {
        m := Some(Message(finalRole.value, Trim(content)));
      } else {
        m := None;
      }
    }

    /** One turn of the element loop: the message of `nodes[i]`, when there is one, is
        pushed. */
    method ExtractStep(loc: Location, doc: Document, nodes: seq<NodeId>, i: nat, messages: seq<Message>, ghost acc: seq<Message>)
      returns (next: seq<Message>)
      requires currentPlatformConfig.Some? && i < |nodes|
      requires messages == acc + ExtractAll(Extractor(Corrected(currentPlatformConfig.value, Detected(detector, loc, doc), doc)), nodes[..i])
      ensures next == acc + ExtractAll(Extractor(Corrected(currentPlatformConfig.value, Detected(detector, loc, doc), doc)), nodes[..i + 1])
    {
      var message := ExtractMessageFromElement(loc, doc, nodes[i]);
      PushExtracted(Extractor(Corrected(currentPlatformConfig.value, Detected(detector, loc, doc), doc)), nodes, i, acc, messages, message);
      next := messages;
      if message.Some? {
        next := next + [message.value];
      }
    }

    /** The element loop: each node's message, when there is one, is pushed onto `acc`. */
    method ExtractInto(loc: Location, doc: Document, nodes: seq<NodeId>, acc: seq<Message>) returns (messages: seq<Message>)
      requires currentPlatformConfig.Some?
      ensures messages == acc + ExtractAll(Extractor(Corrected(currentPlatformConfig.value, Detected(detector, loc, doc), doc)), nodes)
    {
      ghost var extract := Extractor(Corrected(currentPlatformConfig.value, Detected(detector, loc, doc), doc));
      messages := acc;
      var i := 0;
      while i < |nodes|
        invariant 0 <= i <= |nodes|
        invariant messages == acc + ExtractAll(extract, nodes[..i])
      {
        messages := ExtractStep(loc, doc, nodes, i, messages, acc);
        i := i + 1;
      }
      assert nodes[..i] == nodes;
    }

    /** The two loops of `estimateFromDOM`: the primary matches, then, when they yield
        nothing, each fallback selector until one yields a message. */
    method CollectMessages(loc: Location, doc: Document) returns (messages: seq<Message>)
      requires currentPlatformConfig.Some?
      ensures messages == Cascade(Extractor(Corrected(currentPlatformConfig.value, Detected(detector, loc, doc), doc)), doc, currentPlatformConfig.value)
    {
      var config := currentPlatformConfig.value;
      ghost var ctx := Corrected(config, Detected(detector, loc, doc), doc);
      messages := ExtractInto(loc, doc, doc.query(config.selectors.primary), []);
      if |messages| == 0 {
        var fallbacks := config.selectors.fallback;
        var i := 0;
        while i < |fallbacks|
          invariant 0 <= i <= |fallbacks|
          invariant messages == []
          invariant FirstFallback(Extractor(ctx), doc, fallbacks) == FirstFallback(Extractor(ctx), doc, fallbacks[i..])
        {
          assert fallbacks[i..][1..] == fallbacks[i + 1..];
          messages := ExtractInto(loc, doc, doc.query(fallbacks[i]), messages);
          if |messages| > 0 {
            break;
          }
          i := i + 1;
        }
      }
    }

    /** `estimateFromDOM(includeCode)`: initialise lazily; 0 when there is still no
        configuration; otherwise the conversation total of the cascade's messages. */
    method EstimateFromDOM(loc: Location, doc: Document, includeCode: bool) returns (tokens: nat)
      modifies this
      ensures currentPlatformConfig == if old(currentPlatformConfig).Some? then old(currentPlatformConfig) else AfterInit(detector, loc, doc, None)
      ensures currentPlatformConfig.None? ==> tokens == 0
      ensures currentPlatformConfig.Some? ==>
        tokens == ConversationTokens(Some(Cascade(Extractor(Corrected(currentPlatformConfig.value, Detected(detector, loc, doc), doc)), doc, currentPlatformConfig.value)), includeCode, removeCodeBlocks)
      ensures tokens == DomTokens(loc, doc, includeCode)
    {
      if currentPlatformConfig.None? {
        InitializePlatform(loc, doc);
        if currentPlatformConfig.None? {
          return 0;
        }
      }
      var messages := CollectMessages(loc, doc);
      tokens := EstimateConversationTokens(Some(messages), includeCode);
    }

    /** The count `estimateFromDOM` reports for the page under the entry the estimator now
        holds: 0 without one, otherwise the cascade's messages priced as a conversation. */
    function DomTokens(loc: Location, doc: Document, includeCode: bool): (tokens: nat)
      reads this
      ensures currentPlatformConfig.None? ==> tokens == 0
      ensures currentPlatformConfig.Some? ==> tokens >= 3
    {
      if currentPlatformConfig.None? then 0
      else ConversationTokens(Some(Cascade(Extractor(Corrected(currentPlatformConfig.value, Detected(detector, loc, doc), doc)), doc, currentPlatformConfig.value)), includeCode, removeCodeBlocks)
    }

    /** `getTokenLimit()`: the entry's ceiling, 8000 without one; never 0. */
    function GetTokenLimit(): (limit: int)
      reads this
      ensures currentPlatformConfig.None? ==> limit == 8000
      ensures currentPlatformConfig.Some? && currentPlatformConfig.value.tokenLimit != 0 ==> limit == currentPlatformConfig.value.tokenLimit
      ensures limit != 0
    {
      TokenLimitOf(currentPlatformConfig)
    }

    /** `getPlatformName()` */
    function GetPlatformName(): (name: string)
      reads this
      ensures currentPlatformConfig.Some? && currentPlatformConfig.value.name != "" ==> name == currentPlatformConfig.value.name
      ensures currentPlatformConfig.None? || currentPlatformConfig.value.name == "" ==> name == "Unknown Platform"
    {
      if currentPlatformConfig.Some? && currentPlatformConfig.value.name != "" then currentPlatformConfig.value.name
      else "Unknown Platform"
    }
  }

  /** An estimator initialised with a detector reports the detector's own answer for the
      page: the name `getPlatformName()` shows is the detector's, `Unknown Platform` on an
      undetected page, and the ceiling is the detected entry's, 8000 on an undetected page. */
  lemma InitializedEstimatorAgreesWithDetector(e: Estimator, loc: Location, doc: Document)
    requires e.detector != null && e.detector.Valid()
    requires e.currentPlatformConfig == AfterInit(e.detector, loc, doc, None)
    ensures e.GetPlatformName() == PlatformName(CurrentPlatformConfig(e.detector.configs, loc, doc))
    ensures Resolve(e.detector.configs, loc, doc) == Unknown ==>
      e.GetPlatformName() == "Unknown Platform" && e.GetTokenLimit() == 8000
    ensures Resolve(e.detector.configs, loc, doc) != Unknown ==>
      e.GetTokenLimit() == Lookup(e.detector.configs, Resolve(e.detector.configs, loc, doc)).value.tokenLimit
  {
    ResolvedHasConfig(e.detector.configs, loc, doc);
  }
}
