/** The content script's `AITokenWatch` object: the floating HUD's position and status,
    the throttled token warning, the reaction to in-page navigation, and the reading of
    the conversation for the hand-over report. */
module Content {
  import opened Wrappers
  import opened Strings
  import opened Dom
  import opened ExtensionSettings
  import opened PlatformDetector
  import opened TokenEstimator

  // ------------------------------------------------------------------ HUD position

  const HudSize := 40
  const Margin := 10

  datatype Position = Position(x: int, y: int)

  /** One axis of `validateHUDPosition`: `Math.max(margin, Math.min(extent - hudSize - margin, v))`. */
  function SafeCoordinate(v: int, extent: int): int {
    Max(Margin, Min(extent - HudSize - Margin, v))
  }

  /** The position keeps the whole ball, and the margin, inside a `width` × `height` viewport. */
  predicate Inside(p: Position, width: int, height: int) {
    Margin <= p.x <= width - HudSize - Margin && Margin <= p.y <= height - HudSize - Margin
  }

  /** `validateHUDPosition(x, y)` against the viewport `width` × `height`
      (`window.innerWidth` × `window.innerHeight`). */
  function ValidateHUDPosition(p: Position, width: int, height: int): (q: Position)
    ensures q.x >= Margin && q.y >= Margin
    ensures width - HudSize - Margin >= Margin ==> q.x <= width - HudSize - Margin
    ensures height - HudSize - Margin >= Margin ==> q.y <= height - HudSize - Margin
    ensures width >= 2 * Margin + HudSize && height >= 2 * Margin + HudSize ==> Inside(q, width, height)
    ensures Inside(p, width, height) ==> q == p
  {
    Position(SafeCoordinate(p.x, width), SafeCoordinate(p.y, height))
  }

  /** Correcting a corrected position changes nothing. */
  lemma ValidateIdempotent(p: Position, width: int, height: int)
    ensures ValidateHUDPosition(ValidateHUDPosition(p, width, height), width, height) == ValidateHUDPosition(p, width, height)
  {
  }

  /** The fallback position `(innerWidth - 60, 20)` is kept as it is on any viewport at least
      70 × 70 pixels. On a narrower viewport its x is pushed to the 10-pixel margin; on a
      lower one its y becomes `innerHeight - 50`, but never less than the margin. */
  lemma DefaultPositionKept(width: int, height: int)
    ensures width >= 70 && height >= 70 ==> ValidateHUDPosition(Position(width - 60, 20), width, height) == Position(width - 60, 20)
    ensures width >= 70 ==> ValidateHUDPosition(Position(width - 60, 20), width, height).x == width - 60
    ensures width < 70 ==> ValidateHUDPosition(Position(width - 60, 20), width, height).x == Margin
    ensures height >= 70 ==> ValidateHUDPosition(Position(width - 60, 20), width, height).y == 20
    ensures height < 70 ==> ValidateHUDPosition(Position(width - 60, 20), width, height).y == Max(Margin, height - HudSize - Margin)
  {
  }

  // ------------------------------------------------------------------ status

  /** `(current / max) * 100 >= t`, decided by cross-multiplication: for a positive limit
      `current * 100 >= t * max`, for a negative one the inequality turns round, and for a
      zero limit the quotient is `Infinity` (`current > 0`, at least any `t`) or `NaN`
      (`0 / 0`, which compares false with everything). */
  predicate AtLeastPercent(current: nat, max: int, t: int) {
    if max > 0 then current * 100 >= t * max
    else if max < 0 then current * 100 <= t * max
    else current > 0
  }

  /** For a non-zero limit the cross-multiplied test is the comparison of the exact quotient. */
  lemma AtLeastPercentIsQuotient(current: nat, max: int, t: int)
    requires max != 0
    ensures AtLeastPercent(current, max, t) <==> (current as real / max as real) * 100.0 >= t as real
  {
    var q := current as real / max as real;
    assert q * max as real == current as real;
    assert q * 100.0 * max as real == (current * 100) as real;
    assert (t * max) as real == t as real * max as real;
    if max > 0 {
      assert q * 100.0 >= t as real <==> q * 100.0 * max as real >= t as real * max as real;
    } else {
      assert q * 100.0 >= t as real <==> q * 100.0 * max as real <= t as real * max as real;
    }
  }

  datatype Status = Critical | Warning | Normal

  /** The colour `updateHUD()` gives the ball: at least 95% of the limit is critical; otherwise
      reaching the warning threshold, or having at most `minRemainingTokens` left, is a
      warning; anything else is normal. */
  function Classify(current: nat, s: Settings): Status {
    if AtLeastPercent(current, s.maxTokens, 95) then Critical
    else if AtLeastPercent(current, s.maxTokens, s.warningThreshold) || s.maxTokens - current <= s.minRemainingTokens then Warning
    else Normal
  }

  /** How serious a status is: normal < warning < critical. */
  function Severity(st: Status): nat {
    match st
    case Normal => 0
    case Warning => 1
    case Critical => 2
  }

  /** Under a positive limit, more tokens never give a milder status. */
  lemma ClassifyMonotone(c1: nat, c2: nat, s: Settings)
    requires s.maxTokens > 0 && c1 <= c2
    ensures Severity(Classify(c1, s)) <= Severity(Classify(c2, s))
  {
  }

  /** Under a positive limit, reaching the limit is always critical. */
  lemma FullIsCritical(current: nat, s: Settings)
    requires s.maxTokens > 0 && current >= s.maxTokens
    ensures Classify(current, s) == Critical
  {
    assert current * 100 >= s.maxTokens * 100;
  }

  /** The bands under the default settings (limit 8000, threshold 80%, 1000 in reserve): the
      ball turns critical at 7600 tokens and yellow at 6400; the reserve rule (from 7000)
      never decides. */
  lemma DefaultBands(current: nat)
    ensures Classify(current, DefaultSettings) == Critical <==> current >= 7600
    ensures Classify(current, DefaultSettings) == Warning <==> 6400 <= current < 7600
    ensures Classify(current, DefaultSettings) == Normal <==> current < 6400
  {
  }

  // ------------------------------------------------------------------ HUD class list

  const BaseClasses: seq<string> := ["ctw-hud", "ctw-ball"]
  const ExpandedClass := "ctw-expanded"

  function StatusClass(st: Status): string {
    match st
    case Critical => "ctw-critical"
    case Warning => "ctw-warning"
    case Normal => "ctw-normal"
  }

  predicate IsStatusClass(c: string) {
    c == "ctw-critical" || c == "ctw-warning" || c == "ctw-normal"
  }

  /** The class list `updateHUD()` writes: reset to `ctw-hud ctw-ball`, `ctw-expanded` when
      the panel is open, then the status class. */
  function HudClasses(expanded: bool, st: Status): seq<string> {
    BaseClasses + (if expanded then [ExpandedClass] else []) + [StatusClass(st)]
  }

  /** The status classes in a class list, in order. */
  function StatusClassesOf(cs: seq<string>): (r: seq<string>)
    ensures forall i :: 0 <= i < |r| ==> IsStatusClass(r[i])
    decreases |cs|
  {
    if |cs| == 0 then []
    else (if IsStatusClass(cs[0]) then [cs[0]] else []) + StatusClassesOf(cs[1..])
  }

  lemma {:induction false} StatusClassesOfAppend(a: seq<string>, b: seq<string>)
    ensures StatusClassesOf(a + b) == StatusClassesOf(a) + StatusClassesOf(b)
    decreases |a|
  {
    if |a| > 0 {
      assert (a + b)[1..] == a[1..] + b;
      StatusClassesOfAppend(a[1..], b);
    } else {
      assert a + b == b;
    }
  }

  /** After `updateHUD()` exactly one status class is on the ball, the one of its status, and
      `ctw-expanded` is there exactly when the panel is open. */
  lemma ExactlyOneStatusClass(expanded: bool, st: Status)
    ensures StatusClassesOf(HudClasses(expanded, st)) == [StatusClass(st)]
    ensures ExpandedClass in HudClasses(expanded, st) <==> expanded
  {
    var extra := if expanded then [ExpandedClass] else [];
    StatusClassesOfAppend(BaseClasses + extra, [StatusClass(st)]);
    StatusClassesOfAppend(BaseClasses, extra);
    assert StatusClassesOf([StatusClass(st)]) == [StatusClass(st)];
  }

  /** `classList.add(c)` on a list without repetitions. */
  function AddClass(cs: seq<string>, c: string): (r: seq<string>)
    ensures c in r
    ensures forall x :: x in r <==> x in cs || x == c
    ensures NoDuplicates(cs) ==> NoDuplicates(r)
  {
    if c in cs then cs else cs + [c]
  }

  /** `classList.remove(c)`. */
  function RemoveClass(cs: seq<string>, c: string): (r: seq<string>)
    ensures c !in r
    ensures forall x :: x in r <==> x in cs && x != c
    ensures NoDuplicates(cs) ==> NoDuplicates(r)
    decreases |cs|
  {
    if |cs| == 0 then []
    else
      var rest := RemoveClass(cs[1..], c);
      assert NoDuplicates(cs) ==> NoDuplicates(cs[1..]) && cs[0] !in rest by {
        if NoDuplicates(cs) {
          assert forall i, j :: 0 <= i < j < |cs[1..]| ==> cs[1..][i] == cs[i + 1] && cs[1..][j] == cs[j + 1];
          assert cs[0] !in cs[1..];
        }
      }
      (if cs[0] == c then [] else [cs[0]]) + rest
  }

  // ------------------------------------------------------------------ the warning throttle

  /** Five minutes, in milliseconds. */
  const WarningInterval := 300000

  /** The `TOKEN_WARNING` message's payload. */
  datatype WarningMessage = WarningMessage(tokens: int, maxTokens: int, remaining: int)

  datatype Sent = Sent(time: int, message: WarningMessage)

  /** `lastWarningTime` (0 while unset: the field is `undefined`, and 0 is falsy too) and the
      warnings sent so far, in order. */
  datatype Notifier = Notifier(lastWarningTime: int, sent: seq<Sent>)

  /** `this.lastWarningTime && Date.now() - this.lastWarningTime < 300000`. */
  predicate Throttled(last: int, now: int) {
    last != 0 && now - last < WarningInterval
  }

  /** `showWarningNotification()` at time `now`. */
  function Notify(n: Notifier, now: int, m: WarningMessage): Notifier {
    if Throttled(n.lastWarningTime, now) then n
    else Notifier(now, n.sent + [Sent(now, m)])
  }

  /** `lastWarningTime` is the time of the last warning sent (0 before the first), and two
      consecutive warnings are at least five minutes apart unless the earlier one went out at
      time 0, which the truthiness test cannot tell from "never". */
  predicate Paced(n: Notifier) {
    (|n.sent| == 0 ==> n.lastWarningTime == 0)
    && (|n.sent| > 0 ==> n.lastWarningTime == n.sent[|n.sent| - 1].time)
    && forall i :: 0 < i < |n.sent| ==> n.sent[i - 1].time == 0 || n.sent[i].time - n.sent[i - 1].time >= WarningInterval
  }

  /** The throttle keeps the pacing, whatever the clock says. */
  lemma NotifyKeepsPace(n: Notifier, now: int, m: WarningMessage)
    requires Paced(n)
    ensures Paced(Notify(n, now, m))
  {
    var r := Notify(n, now, m);
    if !Throttled(n.lastWarningTime, now) {
      forall i | 0 < i < |r.sent|
        ensures r.sent[i - 1].time == 0 || r.sent[i].time - r.sent[i - 1].time >= WarningInterval
      {
        if i < |n.sent| {
          assert r.sent[i - 1] == n.sent[i - 1] && r.sent[i] == n.sent[i];
        }
      }
    }
  }

  /** A call within five minutes after a warning sends nothing; a call later than that, or
      before any warning, sends exactly one. */
  lemma NotifySendsIffDue(n: Notifier, now: int, m: WarningMessage)
    ensures n.lastWarningTime != 0 && n.lastWarningTime <= now < n.lastWarningTime + WarningInterval ==> Notify(n, now, m) == n
    ensures !Throttled(n.lastWarningTime, now) ==> Notify(n, now, m).sent == n.sent + [Sent(now, m)] && Notify(n, now, m).lastWarningTime == now
    ensures Notify(n, now, m).sent == n.sent || |Notify(n, now, m).sent| == |n.sent| + 1
  {
  }

  /** The message `showWarningNotification()` sends. */
  function WarningFor(current: nat, s: Settings): (m: WarningMessage)
    ensures m.tokens + m.remaining == m.maxTokens == s.maxTokens
  {
    WarningMessage(current, s.maxTokens, s.maxTokens - current)
  }

  // ------------------------------------------------------------------ updateHUD

  /** `updateHUD()` does anything at all: there is a HUD and the extension is enabled. */
  predicate Refreshes(hud: Option<seq<string>>, s: Settings) {
    hud.Some? && s.enabled
  }

  /** The HUD class list and the notifier after `updateHUD()` at time `now`. */
  function HudUpdate(hud: Option<seq<string>>, n: Notifier, s: Settings, current: nat, expanded: bool, now: int): (Option<seq<string>>, Notifier) {
    if !Refreshes(hud, s) then (hud, n)
    else
      var st := Classify(current, s);
      (Some(HudClasses(expanded, st)), if st == Warning then Notify(n, now, WarningFor(current, s)) else n)
  }

  /** Without a HUD, or with the extension disabled, `updateHUD()` changes nothing. */
  lemma UpdateHUDIdleWhenOff(hud: Option<seq<string>>, n: Notifier, s: Settings, current: nat, expanded: bool, now: int)
    requires hud.None? || !s.enabled
    ensures HudUpdate(hud, n, s, current, expanded, now) == (hud, n)
  {
  }

  /** Otherwise it leaves exactly one status class, the classified one, and keeps the pacing;
      a warning goes out only in the warning band and only when the throttle allows it,
      never in the critical band. */
  lemma UpdateHUDWhenOn(hud: Option<seq<string>>, n: Notifier, s: Settings, current: nat, expanded: bool, now: int)
    requires Paced(n)
    ensures Paced(HudUpdate(hud, n, s, current, expanded, now).1)
    ensures Refreshes(hud, s) ==> (HudUpdate(hud, n, s, current, expanded, now).0.Some?
      && StatusClassesOf(HudUpdate(hud, n, s, current, expanded, now).0.value) == [StatusClass(Classify(current, s))])
    ensures HudUpdate(hud, n, s, current, expanded, now).1 != n <==>
      Refreshes(hud, s) && Classify(current, s) == Warning && !Throttled(n.lastWarningTime, now)
  {
    ExactlyOneStatusClass(expanded, Classify(current, s));
    NotifyKeepsPace(n, now, WarningFor(current, s));
  }

  // ------------------------------------------------------------------ navigation

  /** `handleRouteChange()` given the current `lastUrl` and `location.href`: the new `lastUrl`
      and whether the delayed reset is scheduled. */
  function RouteChange(lastUrl: string, href: string): (string, bool) {
    if href != lastUrl then (href, true) else (lastUrl, false)
  }

  /** A change is acted on once: afterwards `lastUrl` is the new address, so a repeated call
      (the history hooks, `popstate` and the mutation observer can all fire for one change)
      schedules nothing. */
  lemma RouteChangeOnce(lastUrl: string, href: string)
    ensures RouteChange(lastUrl, href).0 == href
    ensures RouteChange(lastUrl, href).1 <==> href != lastUrl
    ensures RouteChange(RouteChange(lastUrl, href).0, href) == (href, false)
  {
  }

  // ------------------------------------------------------------------ the conversation

  const RoleAttribute := "data-message-author-role"
  const MessageElements := "[data-message-author-role]"
  const MessageBody := ".markdown, .whitespace-pre-wrap, .prose"

  /** What one element contributes to `extractConversationMessages()`: its role attribute and
      the trimmed text of its first content element, when both are there and not empty. */
  function ConversationEntry(doc: Document, n: NodeId): (m: Option<Message>)
    ensures m.Some? ==> m.value.role != "" && m.value.content != "" && IsTrimmed(m.value.content)
  {
    var role := doc.attribute(n, RoleAttribute);
    var bodies := doc.queryWithin(n, MessageBody);
    if |bodies| > 0 && role.Some? && role.value != "" && Trim(doc.text(bodies[0])) != "" then
      TrimIsTrimmed(doc.text(bodies[0]));
      Some(Message(role.value, Trim(doc.text(bodies[0]))))
    else None
  }

  /** The messages of `nodes`, in order. */
  function ConversationOf(doc: Document, nodes: seq<NodeId>): seq<Message> {
    ExtractAll((n: NodeId) => ConversationEntry(doc, n), nodes)
  }

  /** Every message read has a non-empty role and non-empty trimmed content, and the
      selection keeps document order. */
  lemma {:induction false} ConversationOfShape(doc: Document, a: seq<NodeId>, b: seq<NodeId>)
    ensures forall m :: m in ConversationOf(doc, a) ==> m.role != "" && m.content != "" && IsTrimmed(m.content)
    ensures ConversationOf(doc, a + b) == ConversationOf(doc, a) + ConversationOf(doc, b)
    decreases |a|
  {
    ExtractAllAppend((n: NodeId) => ConversationEntry(doc, n), a, b);
    if |a| > 0 {
      ConversationOfShape(doc, a[..|a| - 1], b);
    }
  }

  /** Every element with a role and a non-blank content element yields its message, and the
      others yield nothing. */
  lemma ConversationOfSingle(doc: Document, n: NodeId)
    ensures ConversationOf(doc, [n]) == if ConversationEntry(doc, n).Some? then [ConversationEntry(doc, n).value] else []
  {
    assert [n][..0] == [];
  }

  /** Every message the hand-over reads is one the estimator counts (role and content both
      non-empty). */
  lemma ConversationIsCounted(doc: Document, nodes: seq<NodeId>)
    ensures forall m :: m in ConversationOf(doc, nodes) ==> Counted(m)
  {
    ConversationOfShape(doc, nodes, []);
  }

  // ------------------------------------------------------------------ task elements

  /** The verbs `startsWithActionVerb` recognises. */
  const ActionVerbs: seq<string> := TaskVerbs + ["完成", "執行"]

  /** The verbs `extractTaskElements` looks for: the list above without its last two. */
  const TaskVerbs: seq<string> := ["開發", "建立", "實作", "建構", "創建", "設計", "優化", "改進", "修正", "新增", "整合", "部署", "測試", "除錯"]

  lemma TaskVerbsAreShort()
    ensures forall v :: v in TaskVerbs ==> |v| == 2
  {
  }

  /** `verbs.some(verb => text.startsWith(verb))`, scanning from index `i`. */
  function SomeVerbStarts(text: string, verbs: seq<string>, i: nat): (b: bool)
    requires i <= |verbs|
    ensures b <==> exists k :: i <= k < |verbs| && StartsWith(text, verbs[k])
    decreases |verbs| - i
  {
    if i == |verbs| then false
    else StartsWith(text, verbs[i]) || SomeVerbStarts(text, verbs, i + 1)
  }

  /** `startsWithActionVerb(text)`. */
  function StartsWithActionVerb(text: string): (b: bool)
    ensures b <==> StartsWithAny(text, ActionVerbs)
  {
    SomeVerbStarts(text, ActionVerbs, 0)
  }

  /** The cue `extractTaskElements` accepts for `verb` in a sentence. */
  predicate ObjectiveCue(s: string, verb: string) {
    StartsWith(s, verb) || Contains(s, "要" + verb) || Contains(s, "需要" + verb)
    || Contains(s, "請" + verb) || Contains(s, "協助" + verb)
  }

  /** `verbs.find(verb => cue)`, scanning from index `i`. */
  function FindCue(s: string, verbs: seq<string>, i: nat): (r: Option<string>)
    requires i <= |verbs|
    ensures r.None? <==> forall k :: i <= k < |verbs| ==> !ObjectiveCue(s, verbs[k])
    ensures r.Some? ==> r.value in verbs && ObjectiveCue(s, r.value)
    ensures r.Some? ==> exists k :: (i <= k < |verbs| && verbs[k] == r.value && ObjectiveCue(s, verbs[k])
      && forall j :: i <= j < k ==> !ObjectiveCue(s, verbs[j]))
    decreases |verbs| - i
  {
    if i == |verbs| then None
    else if ObjectiveCue(s, verbs[i]) then Some(verbs[i])
    else FindCue(s, verbs, i + 1)
  }

  /** The objective a sentence of a user message yields: a trimmed sentence longer than 10
      characters with a cue, rewritten to start at the verb, cut to 80 characters. */
  function Objective(sentence: string): Option<string> {
    ObjectiveOfTrimmed(Trim(sentence))
  }

  function ObjectiveOfTrimmed(t: string): Option<string> {
    if |t| <= 10 then None
    else
      match FindCue(t, TaskVerbs, 0)
      case None => None
      case Some(verb) => Some(Take(ActionItem(t, verb), 80))
  }

  /** The sentence rewritten to begin at `verb`: unchanged when it already does, otherwise
      `verb` followed by what comes after its first occurrence. */
  function ActionItem(t: string, verb: string): (item: string)
    ensures ObjectiveCue(t, verb) ==> StartsWith(item, verb)
  {
    if StartsWith(t, verb) then t
    else
      var at := IndexOfPiece(t, verb);
      CueContainsVerb(t, verb);
      if at > -1 then verb + t[at + |verb|..] else t
  }

  /** Each cue but the leading one contains the verb itself. */
  lemma CueContainsVerb(t: string, verb: string)
    ensures ObjectiveCue(t, verb) && !StartsWith(t, verb) ==> Contains(t, verb)
  {
    if Contains(t, "要" + verb) {
      ContainsTail(t, "要", verb);
    } else if Contains(t, "需要" + verb) {
      ContainsTail(t, "需要", verb);
    } else if Contains(t, "請" + verb) {
      ContainsTail(t, "請", verb);
    } else if Contains(t, "協助" + verb) {
      ContainsTail(t, "協助", verb);
    }
  }

  /** An objective is at most 80 characters and begins with one of the task verbs, so
      `startsWithActionVerb` accepts it. */
  lemma ObjectiveShape(sentence: string)
    requires Objective(sentence).Some?
    ensures |Objective(sentence).value| <= 80
    ensures StartsWithAny(Objective(sentence).value, TaskVerbs)
    ensures StartsWithActionVerb(Objective(sentence).value)
  {
    TrimmedObjectiveShape(Trim(sentence));
  }

  lemma TrimmedObjectiveShape(t: string)
    requires ObjectiveOfTrimmed(t).Some?
    ensures |ObjectiveOfTrimmed(t).value| <= 80
    ensures StartsWithAny(ObjectiveOfTrimmed(t).value, TaskVerbs)
    ensures StartsWithActionVerb(ObjectiveOfTrimmed(t).value)
  {
    var verb := FindCue(t, TaskVerbs, 0).value;
    assert verb in TaskVerbs && ObjectiveCue(t, verb);
    var k :| 0 <= k < |TaskVerbs| && TaskVerbs[k] == verb;
    TaskVerbsAreShort();
    var item := ActionItem(t, verb);
    assert ObjectiveOfTrimmed(t) == Some(Take(item, 80));
    TakeKeepsPrefix(item, verb, 80);
    assert ActionVerbs[k] == verb;
  }

  lemma TakeKeepsPrefix(s: string, p: string, n: nat)
    requires StartsWith(s, p) && |p| <= n
    ensures StartsWith(Take(s, n), p)
  {
  }

  const DecisionSubjects: seq<string> := ["使用", "選擇", "採用", "配置", "設定", "架構", "模式", "方案", "策略", "API", "框架", "函式庫", "資料庫", "演算法"]
  const DecisionWords: seq<string> := ["建議", "推薦", "應該", "最好", "選擇", "使用"]
  const GenericAdvice: seq<string> := ["注意", "確保", "記得", "別忘了", "要小心", "需要考慮"]

  /** The decision a sentence of an assistant message yields: a trimmed sentence longer than
      25 characters with technical content and decision language and no generic advice, cut
      to 100 characters. */
  function Decision(sentence: string): Option<string> {
    var t := Trim(sentence);
    if |t| > 25 && AnyContains(t, DecisionSubjects) && AnyContains(t, DecisionWords) && !AnyContains(t, GenericAdvice) then
      Some(Take(t, 100))
    else None
  }

  const QuestionCues: seq<string> := ["?", "？", "如何", "怎麼", "什麼", "哪個"]
  const ProjectKeywords: seq<string> := ["架構", "實作", "功能", "設計", "技術", "方案", "整合", "部署", "測試", "效能"]
  const MetaWords: seq<string> := ["覺得", "想法", "意見", "看法", "評價", "感想"]

  /** The question a clause of one of the last three user messages yields: a trimmed clause
      longer than 15 characters that asks something about the project and is not
      meta-discussion, cut to 70 characters. */
  function Question(part: string): Option<string> {
    var t := Trim(part);
    if |t| > 15 && AnyContains(t, QuestionCues) && AnyContains(t, ProjectKeywords) && !AnyContains(t, MetaWords) then
      Some(Take(t, 70))
    else None
  }

  /** Decisions keep between 26 and 100 characters and questions between 16 and 70. */
  lemma DecisionAndQuestionLengths(s: string)
    ensures Decision(s).Some? ==> 25 < |Decision(s).value| <= 100
    ensures Question(s).Some? ==> 15 < |Question(s).value| <= 70
  {
  }

  /** The sentence splits: `/[.。！!？?\n]/` for objectives, `/[.。！!]/` for the rest. */
  const SentenceBreaks: set<char> := {'.', '。', '！', '!', '？', '?', '\n'}
  const ClauseBreaks: set<char> := {'.', '。', '！', '!'}

  /** The values `pick` yields on `pieces`, in order: one `forEach` with a conditional push. */
  function Collect(pick: string -> Option<string>, pieces: seq<string>): (r: seq<string>)
    ensures forall y :: y in r ==> exists x :: x in pieces && pick(x) == Some(y)
    decreases |pieces|
  {
    if |pieces| == 0 then []
    else
      var init := pieces[..|pieces| - 1];
      var x := pieces[|pieces| - 1];
      var front := Collect(pick, init);
      assert forall y :: y in front ==> exists z :: z in pieces && pick(z) == Some(y) by {
        forall y | y in front ensures exists z :: z in pieces && pick(z) == Some(y) {
          var z :| z in init && pick(z) == Some(y);
          assert z in pieces;
        }
      }
      if pick(x).Some? then front + [pick(x).value] else front
  }

  /** The candidates from all of `msgs`: each message's cleaned content split at `breaks` and
      passed through `pick`, message after message. */
  function Gather(pick: string -> Option<string>, breaks: set<char>, clean: string -> string, msgs: seq<Message>): (r: seq<string>)
    ensures forall y :: y in r ==> exists x :: pick(x) == Some(y)
    decreases |msgs|
  {
    if |msgs| == 0 then []
    else Gather(pick, breaks, clean, msgs[..|msgs| - 1]) + Collect(pick, SplitOn(clean(msgs[|msgs| - 1].content), breaks))
  }

  /** `xs.slice(-3)` and the like: the last `n` elements, or all of them. */
  function Last<T>(xs: seq<T>, n: nat): (r: seq<T>)
    ensures |r| == Min(|xs|, n) && r == xs[|xs| - |r|..]
  {
    if |xs| <= n then xs else xs[|xs| - n..]
  }

  datatype TaskElements = TaskElements(objectives: seq<string>, decisions: seq<string>, questions: seq<string>)

  predicate IsUser(m: Message) { m.role == "user" }
  predicate IsAssistant(m: Message) { m.role == "assistant" }

  /** The three candidate lists of `extractTaskElements(messages)`, before deduplication. */
  function ObjectiveCandidates(clean: string -> string, messages: seq<Message>): seq<string> {
    Gather(Objective, SentenceBreaks, clean, Filter(messages, IsUser))
  }

  function DecisionCandidates(clean: string -> string, messages: seq<Message>): seq<string> {
    Gather(Decision, ClauseBreaks, clean, Filter(messages, IsAssistant))
  }

  function QuestionCandidates(clean: string -> string, messages: seq<Message>): seq<string> {
    Gather(Question, ClauseBreaks, clean, Last(Filter(messages, IsUser), 3))
  }

  /** `extractTaskElements(messages)`, with `cleanContent` as the uninterpreted `clean`: each
      list deduplicated by a `Set` and cut with `slice`. */
  function TaskElementsOf(clean: string -> string, messages: seq<Message>): TaskElements {
    TaskElements(
      Take(Dedup(ObjectiveCandidates(clean, messages)), 3),
      Take(Dedup(DecisionCandidates(clean, messages)), 3),
      Take(Dedup(QuestionCandidates(clean, messages)), 2))
  }

  /** The report's lists hold at most 3, 3 and 2 entries, none twice, and each starts the
      deduplicated candidate list, which keeps first occurrences in their order. */
  lemma TaskElementsShape(clean: string -> string, messages: seq<Message>)
    ensures var t := TaskElementsOf(clean, messages);
      |t.objectives| <= 3 && |t.decisions| <= 3 && |t.questions| <= 2
      && NoDuplicates(t.objectives) && NoDuplicates(t.decisions) && NoDuplicates(t.questions)
      && t.objectives <= Dedup(ObjectiveCandidates(clean, messages))
      && t.decisions <= Dedup(DecisionCandidates(clean, messages))
      && t.questions <= Dedup(QuestionCandidates(clean, messages))
  {
    var t := TaskElementsOf(clean, messages);
    PrefixKeepsDistinct(t.objectives, Dedup(ObjectiveCandidates(clean, messages)));
    PrefixKeepsDistinct(t.decisions, Dedup(DecisionCandidates(clean, messages)));
    PrefixKeepsDistinct(t.questions, Dedup(QuestionCandidates(clean, messages)));
  }

  /** Every entry of a capped, deduplicated candidate list is a value `pick` yields. */
  lemma Picked(pick: string -> Option<string>, breaks: set<char>, clean: string -> string, msgs: seq<Message>, n: nat, y: string)
    requires y in Take(Dedup(Gather(pick, breaks, clean, msgs)), n)
    ensures exists x :: pick(x) == Some(y)
  {
    var d := Dedup(Gather(pick, breaks, clean, msgs));
    var i :| 0 <= i < |Take(d, n)| && Take(d, n)[i] == y;
    assert d[i] == y;
  }

  /** Objectives are at most 80 characters and begin with an action verb. */
  lemma TaskObjectivesShape(clean: string -> string, messages: seq<Message>)
    ensures forall o :: o in TaskElementsOf(clean, messages).objectives ==> |o| <= 80 && StartsWithActionVerb(o)
  {
    forall o | o in TaskElementsOf(clean, messages).objectives ensures |o| <= 80 && StartsWithActionVerb(o) {
      Picked(Objective, SentenceBreaks, clean, Filter(messages, IsUser), 3, o);
      var x :| Objective(x) == Some(o);
      ObjectiveShape(x);
    }
  }

  /** Decisions keep between 26 and 100 characters and questions between 16 and 70. */
  lemma TaskDecisionsAndQuestionsShape(clean: string -> string, messages: seq<Message>)
    ensures forall d :: d in TaskElementsOf(clean, messages).decisions ==> 25 < |d| <= 100
    ensures forall q :: q in TaskElementsOf(clean, messages).questions ==> 15 < |q| <= 70
  {
    forall d | d in TaskElementsOf(clean, messages).decisions ensures 25 < |d| <= 100 {
      Picked(Decision, ClauseBreaks, clean, Filter(messages, IsAssistant), 3, d);
      var x :| Decision(x) == Some(d);
      DecisionAndQuestionLengths(x);
    }
    forall q | q in TaskElementsOf(clean, messages).questions ensures 15 < |q| <= 70 {
      Picked(Question, ClauseBreaks, clean, Last(Filter(messages, IsUser), 3), 2, q);
      var x :| Question(x) == Some(q);
      DecisionAndQuestionLengths(x);
    }
  }

  lemma PrefixKeepsDistinct<T>(p: seq<T>, xs: seq<T>)
    requires p <= xs && NoDuplicates(xs)
    ensures NoDuplicates(p)
  {
    assert forall i :: 0 <= i < |p| ==> p[i] == xs[i];
  }

  // ------------------------------------------------------------------ the object

  class TokenWatch {
    const estimator: Estimator
    var settings: Settings
    var currentTokens: nat
    var lastUrl: string
    var isExpanded: bool
    /** `this.hud`: `None` while it is `null`, otherwise the ball's class list */
    var hud: Option<seq<string>>
    var notifier: Notifier

    /** The warnings are paced, and an existing ball carries `ctw-expanded` exactly while
        the panel is open and no class twice. */
    ghost predicate Valid()
      reads this
    {
      && Paced(notifier)
      && (hud.Some? ==> (ExpandedClass in hud.value <==> isExpanded) && NoDuplicates(hud.value))
    }

    /** The `AITokenWatch` constructor, up to its call of `init()`. */
    constructor (estimator: Estimator, href: string)
      ensures Valid()
      ensures this.estimator == estimator && settings == DefaultSettings && currentTokens == 0 && lastUrl == href
      ensures !isExpanded && hud.None? && notifier == Notifier(0, [])
    {
      this.estimator := estimator;
      settings := DefaultSettings;
      currentTokens := 0;
      lastUrl := href;
      isExpanded := false;
      hud := None;
      notifier := Notifier(0, []);
    }

    /** `createHUD()`, as far as the state is concerned: a second call does nothing. */
    method CreateHUD()
      requires Valid()
      modifies this
      ensures Valid()
      ensures hud == if old(hud).Some? then old(hud) else Some(BaseClasses)
      ensures isExpanded == if old(hud).Some? then old(isExpanded) else false
      ensures settings == old(settings) && currentTokens == old(currentTokens) && lastUrl == old(lastUrl) && notifier == old(notifier)
    {
      if hud.Some? {
        return;
      }
      hud := Some(BaseClasses);
      isExpanded := false;
    }

    /** `toggleHUD()`: the panel opens or closes and `ctw-expanded` follows it. */
    method ToggleHUD()
      requires Valid() && hud.Some?
      modifies this
      ensures Valid()
      ensures isExpanded == !old(isExpanded)
      ensures hud == Some(if isExpanded then AddClass(old(hud).value, ExpandedClass) else RemoveClass(old(hud).value, ExpandedClass))
      ensures hud.Some? && (ExpandedClass in hud.value <==> isExpanded)
      ensures settings == old(settings) && currentTokens == old(currentTokens) && lastUrl == old(lastUrl) && notifier == old(notifier)
    {
      isExpanded := !isExpanded;
      if isExpanded {
        hud := Some(AddClass(hud.value, ExpandedClass));
      } else {
        hud := Some(RemoveClass(hud.value, ExpandedClass));
      }
    }

    /** `showWarningNotification()` at time `now` (`Date.now()`). */
    method ShowWarningNotification(now: int)
      requires Valid()
      modifies this
      ensures Valid()
      ensures notifier == Notify(old(notifier), now, WarningFor(currentTokens, settings))
      ensures settings == old(settings) && currentTokens == old(currentTokens) && lastUrl == old(lastUrl)
      ensures isExpanded == old(isExpanded) && hud == old(hud)
    {
      NotifyKeepsPace(notifier, now, WarningFor(currentTokens, settings));
      if notifier.lastWarningTime != 0 && now - notifier.lastWarningTime < WarningInterval {
        return;
      }
      notifier := Notifier(now, notifier.sent + [Sent(now, WarningFor(currentTokens, settings))]);
    }

    /** `updateHUD()` at time `now`; the ball's text, the panel's numbers and the progress bar
        are display only. */
    method UpdateHUD(now: int)
      requires Valid()
      modifies this
      ensures Valid()
      ensures (hud, notifier) == HudUpdate(old(hud), old(notifier), settings, currentTokens, isExpanded, now)
      ensures settings == old(settings) && currentTokens == old(currentTokens) && lastUrl == old(lastUrl) && isExpanded == old(isExpanded)
    {
      if hud.None? || !settings.enabled {
        return;
      }
      var classes := BaseClasses;
      if isExpanded {
        classes := classes + [ExpandedClass];
      }
      assert classes == BaseClasses + (if isExpanded then [ExpandedClass] else []);
      if AtLeastPercent(currentTokens, settings.maxTokens, 95) {
        hud := Some(classes + ["ctw-critical"]);
      } else if AtLeastPercent(currentTokens, settings.maxTokens, settings.warningThreshold)
        || settings.maxTokens - currentTokens <= settings.minRemainingTokens
      {
        hud := Some(classes + ["ctw-warning"]);
        ShowWarningNotification(now);
      } else {
        hud := Some(classes + ["ctw-normal"]);
      }
    }

    /** `updateTokenCount()`: the estimator's count of the page, then `updateHUD()`. */
    method UpdateTokenCount(loc: Location, doc: Document, now: int)
      requires Valid()
      modifies this, estimator
      ensures Valid()
      ensures estimator.currentPlatformConfig ==
        if old(estimator.currentPlatformConfig).Some? then old(estimator.currentPlatformConfig)
        else AfterInit(estimator.detector, loc, doc, None)
      ensures currentTokens == estimator.DomTokens(loc, doc, settings.includeCode)
      ensures (hud, notifier) == HudUpdate(old(hud), old(notifier), settings, currentTokens, isExpanded, now)
      ensures settings == old(settings) && lastUrl == old(lastUrl) && isExpanded == old(isExpanded)
    {
      currentTokens := estimator.EstimateFromDOM(loc, doc, settings.includeCode);
      UpdateHUD(now);
    }

    /** `handleRouteChange()` with `href` for `window.location.href`; `scheduled` says whether
        the delayed reset (`ResetAfterRouteChange`) was set up. */
    method HandleRouteChange(href: string) returns (scheduled: bool)
      requires Valid()
      modifies this
      ensures Valid()
      ensures (lastUrl, scheduled) == RouteChange(old(lastUrl), href)
      ensures settings == old(settings) && currentTokens == old(currentTokens) && isExpanded == old(isExpanded)
      ensures hud == old(hud) && notifier == old(notifier)
    {
      scheduled := false;
      if href != lastUrl {
        lastUrl := href;
        scheduled := true;
      }
    }

    /** The callback `handleRouteChange()` schedules: the count drops to 0 and is shown, then
        monitoring restarts with an immediate recount (the repeating timer is not modelled). */
    method ResetAfterRouteChange(loc: Location, doc: Document, now: int)
      requires Valid()
      modifies this, estimator
      ensures Valid()
      ensures estimator.currentPlatformConfig ==
        if old(estimator.currentPlatformConfig).Some? then old(estimator.currentPlatformConfig)
        else AfterInit(estimator.detector, loc, doc, None)
      ensures currentTokens == estimator.DomTokens(loc, doc, settings.includeCode)
      ensures var (h, n) := HudUpdate(old(hud), old(notifier), settings, 0, isExpanded, now);
        (hud, notifier) == HudUpdate(h, n, settings, currentTokens, isExpanded, now)
      ensures settings == old(settings) && lastUrl == old(lastUrl) && isExpanded == old(isExpanded)
    {
      currentTokens := 0;
      UpdateHUD(now);
      UpdateTokenCount(loc, doc, now);
    }

    /** `extractConversationMessages()`: the loop over `[data-message-author-role]`. */
    method ExtractConversationMessages(doc: Document) returns (messages: seq<Message>)
      ensures messages == ConversationOf(doc, doc.query(MessageElements))
    {
      var elements := doc.query(MessageElements);
      messages := [];
      var i := 0;
      while i < |elements|
        invariant 0 <= i <= |elements|
        invariant messages == ConversationOf(doc, elements[..i])
      {
        var entry := ConversationEntryOf(doc, elements[i]);
        PushExtracted((n: NodeId) => ConversationEntry(doc, n), elements, i, [], messages, entry);
        if entry.Some? {
          messages := messages + [entry.value];
        }
        i := i + 1;
      }
      assert elements[..i] == elements;
    }

    /** The body of that loop for one element: its role attribute and content element are
        read, and a message is made when both are there and the text is not blank. */
    static method ConversationEntryOf(doc: Document, element: NodeId) returns (entry: Option<Message>)
      ensures entry == ConversationEntry(doc, element)
    {
      var role := doc.attribute(element, RoleAttribute);
      var bodies := doc.queryWithin(element, MessageBody);
      entry := None;
      if |bodies| > 0 && role.Some? && role.value != "" {
        var content := doc.text(bodies[0]);
        if Trim(content) != "" {
          entry := Some(Message(role.value, Trim(content)));
        }
      }
    }

    /** `extractTaskElements(messages)`, with `cleanContent` as `clean`. */
    method ExtractTaskElements(clean: string -> string, messages: seq<Message>) returns (t: TaskElements)
      ensures t == TaskElementsOf(clean, messages)
    {
      var users := Filter(messages, IsUser);
      var assistants := Filter(messages, IsAssistant);
      var objectives := GatherInto(Objective, SentenceBreaks, clean, users);
      var decisions := GatherInto(Decision, ClauseBreaks, clean, assistants);
      var questions := GatherInto(Question, ClauseBreaks, clean, Last(users, 3));
      t := TaskElements(Take(Dedup(objectives), 3), Take(Dedup(decisions), 3), Take(Dedup(questions), 2));
    }
  }

  /** `msgs.forEach(msg => …)` with its inner `forEach` over the pieces: the pushes into one
      candidate list. */
  method GatherInto(pick: string -> Option<string>, breaks: set<char>, clean: string -> string, msgs: seq<Message>) returns (found: seq<string>)
    ensures found == Gather(pick, breaks, clean, msgs)
  {
    found := [];
    var i := 0;
    while i < |msgs|
      invariant 0 <= i <= |msgs|
      invariant found == Gather(pick, breaks, clean, msgs[..i])
    {
      var pieces := SplitOn(clean(msgs[i].content), breaks);
      var j := 0;
      ghost var before := found;
      while j < |pieces|
        invariant 0 <= j <= |pieces|
        invariant found == before + Collect(pick, pieces[..j])
      {
        var p := pick(pieces[j]);
        if p.Some? {
          found := found + [p.value];
        }
        assert pieces[..j + 1][..j] == pieces[..j];
        j := j + 1;
      }
      assert pieces[..j] == pieces;
      assert msgs[..i + 1][..i] == msgs[..i];
      i := i + 1;
    }
    assert msgs[..i] == msgs;
  }
}
