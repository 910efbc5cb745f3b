/** Platform resolution: the registry of the four supported chat sites and the search that
    decides, from the page location first and the page structure second, which one the
    page belongs to. */
module PlatformDetector {
  import opened Wrappers
  import opened Strings
  import opened Dom

  /** The registry keys; `Unknown` is the answer when nothing matches. */
  datatype Platform = ChatGPT | Claude | Gemini | Grok | Unknown {
    function Key(): string {
      match this
      case ChatGPT => "chatgpt"
      case Claude => "claude"
      case Gemini => "gemini"
      case Grok => "grok"
      case Unknown => "unknown"
    }
  }

  datatype Selectors = Selectors(
    primary: Selector,
    fallback: seq<Selector>,
    content: Selector,
    userRole: string,
    assistantRole: string)

  /** One registry entry. `urlPatterns` is `None` where the entry declares none. */
  datatype PlatformConfig = PlatformConfig(
    platform: Platform,
    domains: seq<string>,
    urlPatterns: Option<seq<string>>,
    enabled: bool,
    selectors: Selectors,
    tokenLimit: int,
    name: string)

  /** `window.location`. */
  datatype Location = Location(hostname: string, pathname: string, href: string)

  // The selector lists below are written as concatenations of their comma-separated
  // parts; each is the one string the registry declares.

  const ChatGPTConfig := PlatformConfig(
    ChatGPT, ["chat.openai.com", "chatgpt.com"], None, true,
    Selectors(
      "[data-message-author-role]",
      [".group\\/conversation-turn", "[data-testid*=\"conversation\"]"],
      ".markdown, " + ".whitespace-pre-wrap, " + ".prose",
      "user", "assistant"),
    8000, "ChatGPT")

  /** Kept in the registry but switched off (`enabled: false`). */
  const ClaudeConfig := PlatformConfig(
    Claude, ["claude.ai"], None, false,
    Selectors(
      "div[data-is-streaming=\"true\"], " + "div[data-is-streaming=\"false\"], "
        + "div[data-testid=\"conversation-turn\"], " + "div[class*=\"font-user-message\"], "
        + "div[class*=\"font-claude-message\"], " + "[role=\"article\"][data-testid]",
      ["div[class*=\"font-user\"], " + "div[class*=\"font-claude\"], " + "div[data-testid*=\"user\"], "
         + "div[data-testid*=\"assistant\"], " + "div[data-testid*=\"human\"], " + ".prose",
       "div[class*=\"group\"] > " + "div[class*=\"relative\"]",
       "div[class*=\"flex\"] > " + "div[class*=\"max-w\"]"],
      ".prose, " + ".whitespace-pre-wrap, " + "div[class*=\"font-\"], " + "p, " + "span, " + "pre, "
        + "code, " + "div[class*=\"text-\"], " + "div[dir=\"auto\"], " + "div[class*=\"whitespace-\"]",
      "human", "assistant"),
    200000, "Claude")

  const GeminiConfig := PlatformConfig(
    Gemini, ["gemini.google.com", "bard.google.com"], None, true,
    Selectors(
      "[data-testid*=\"message\"], " + ".conversation-turn, " + ".response-container, " + ".query-input",
      ["[class*=\"message-container\"]", "[role=\"presentation\"]", "[class*=\"conversation\"]", "[class*=\"response\"]"],
      ".markdown, " + ".message-content, " + ".formatted-text, " + ".model-response-text, "
        + "[data-testid*=\"text\"]",
      "user", "model"),
    30000, "Gemini")

  /** Shares `x.com` and `twitter.com` with ordinary pages, hence the URL patterns. */
  const GrokConfig := PlatformConfig(
    Grok, ["grok.com", "x.com", "twitter.com"], Some(["/i/grok", "grok.com"]), true,
    Selectors(
      ".not-prose, " + "[data-testid*=\"cellInnerDiv\"], " + "[data-testid*=\"conversation\"], "
        + "[data-testid*=\"grok\"], " + ".r-1habvwh, " + ".r-16y2uox",
      ["[role=\"article\"]", "[data-testid=\"tweet\"]", ".css-1dbjc4n > div", "[class*=\"r-\"]", "div[dir=\"auto\"]"],
      ".not-prose, " + "[data-testid=\"tweetText\"], " + ".css-901oao, " + "[dir=\"auto\"], "
        + ".r-37j5jr, " + ".r-16dba41, " + ".r-bnwqim, " + ".r-1q142lx",
      "user", "assistant"),
    25000, "Grok")

  /** `Object.entries(platformConfigs)`, in declaration order. */
  const Configs: seq<PlatformConfig> := [ChatGPTConfig, ClaudeConfig, GeminiConfig, GrokConfig]

  /** What every entry provides: a primary selector, both role labels, a positive token
      ceiling and a known platform as its key. */
  predicate WellFormed(c: PlatformConfig) {
    && c.selectors.primary != ""
    && c.selectors.userRole != ""
    && c.selectors.assistantRole != ""
    && c.tokenLimit > 0
    && c.platform != Unknown
  }

  /** The invariant of `platformConfigs`: well-formed entries under distinct keys (an
      object cannot hold a key twice). */
  predicate ValidRegistry(cs: seq<PlatformConfig>) {
    && (forall i :: 0 <= i < |cs| ==> WellFormed(cs[i]))
    && (forall i, j :: 0 <= i < j < |cs| ==> cs[i].platform != cs[j].platform)
  }

  /** The keys of a run of entries. */
  function KeysOf(cs: seq<PlatformConfig>): set<Platform>
    decreases |cs|
  {
    if |cs| == 0 then {} else KeysOf(cs[..|cs| - 1]) + {cs[|cs| - 1].platform}
  }

  lemma {:induction false} KeysOfMembers(cs: seq<PlatformConfig>, p: Platform)
    ensures p in KeysOf(cs) <==> exists i :: 0 <= i < |cs| && cs[i].platform == p
    decreases |cs|
  {
    if |cs| > 0 {
      var init := cs[..|cs| - 1];
      KeysOfMembers(init, p);
      if p in KeysOf(init) {
        var i :| 0 <= i < |init| && init[i].platform == p;
        assert cs[i].platform == p;
      }
      if exists i :: 0 <= i < |cs| && cs[i].platform == p {
        var i :| 0 <= i < |cs| && cs[i].platform == p;
        if i < |cs| - 1 {
          assert init[i].platform == p;
        }
      }
    }
  }

  /** The registry holds well-formed entries under the keys chatgpt, claude, gemini and
      grok, in that order. */
  lemma RegistryIsValid()
    ensures ValidRegistry(Configs)
    ensures |Configs| == 4
    ensures Configs[0].platform == ChatGPT && Configs[1].platform == Claude
    ensures Configs[2].platform == Gemini && Configs[3].platform == Grok
  {
  }

  lemma RegistryKeys()
    ensures KeysOf(Configs) == {ChatGPT, Claude, Gemini, Grok}
  {
    var c := Configs;
    assert c[..1][..0] == [] && c[..2][..1] == c[..1] && c[..3][..2] == c[..2] && c[..4][..3] == c[..3];
    assert KeysOf(c[..1]) == {ChatGPT};
    assert KeysOf(c[..2]) == {ChatGPT, Claude};
    assert KeysOf(c[..3]) == {ChatGPT, Claude, Gemini};
    assert c[..4] == c;
  }

  // ---------------------------------------------------------------------------
  // Resolution by location

  /** `config.domains.some(d => hostname.includes(d) || d.includes(hostname))` */
  predicate DomainMatch(domains: seq<string>, hostname: string) {
    exists i :: 0 <= i < |domains| && (Contains(hostname, domains[i]) || Contains(domains[i], hostname))
  }

  /** `urlPatterns.some(p => pathname.includes(p) || fullUrl.includes(p) || hostname.includes(p))` */
  predicate PatternMatch(patterns: seq<string>, loc: Location) {
    exists i :: 0 <= i < |patterns| &&
      (Contains(loc.pathname, patterns[i]) || Contains(loc.href, patterns[i]) || Contains(loc.hostname, patterns[i]))
  }

  /** A domain candidate is accepted when it declares no URL patterns, or one of them matches. */
  predicate AcceptedByLocation(c: PlatformConfig, loc: Location) {
    DomainMatch(c.domains, loc.hostname) && (c.urlPatterns.None? || PatternMatch(c.urlPatterns.value, loc))
  }

  /** The first accepted entry, searching in order. */
  function FirstByLocation(cs: seq<PlatformConfig>, loc: Location): (r: Option<Platform>)
    ensures r.Some? ==> exists i :: 0 <= i < |cs| && AcceptedByLocation(cs[i], loc) && cs[i].platform == r.value
    decreases |cs|
  {
    if |cs| == 0 then None
    else if AcceptedByLocation(cs[0], loc) then Some(cs[0].platform)
    else
      var r := FirstByLocation(cs[1..], loc);
      assert r.Some? ==> exists i :: 1 <= i < |cs| && AcceptedByLocation(cs[i], loc) && cs[i].platform == r.value by {
        if r.Some? {
          var i :| 0 <= i < |cs[1..]| && AcceptedByLocation(cs[1..][i], loc) && cs[1..][i].platform == r.value;
          assert cs[i + 1] == cs[1..][i];
        }
      }
      r
  }

  /** Entry `i` is accepted and no earlier entry is. */
  predicate IsFirstAccepted(cs: seq<PlatformConfig>, loc: Location, i: int) {
    0 <= i < |cs| && AcceptedByLocation(cs[i], loc) && forall j :: 0 <= j < i ==> !AcceptedByLocation(cs[j], loc)
  }

  /** The location search answers exactly when some entry is accepted, and then with the
      first accepted one: entries are tried in order and the first acceptance wins. */
  lemma {:induction false} FirstByLocationIsFirstMatch(cs: seq<PlatformConfig>, loc: Location)
    ensures FirstByLocation(cs, loc).Some? <==> exists i :: 0 <= i < |cs| && AcceptedByLocation(cs[i], loc)
    ensures forall i :: IsFirstAccepted(cs, loc, i) ==> FirstByLocation(cs, loc) == Some(cs[i].platform)
    decreases |cs|
  {
    if |cs| > 0 {
      FirstByLocationIsFirstMatch(cs[1..], loc);
      if !AcceptedByLocation(cs[0], loc) {
        forall i | IsFirstAccepted(cs, loc, i)
          ensures FirstByLocation(cs, loc) == Some(cs[i].platform)
        {
          assert IsFirstAccepted(cs[1..], loc, i - 1);
        }
        if exists i :: 0 <= i < |cs| && AcceptedByLocation(cs[i], loc) {
          var i :| 0 <= i < |cs| && AcceptedByLocation(cs[i], loc);
          assert AcceptedByLocation(cs[1..][i - 1], loc);
        }
      }
    }
  }

  // ---------------------------------------------------------------------------
  // Resolution by page structure

  /** Some entry in `sels` matches at least one node of the page. */
  predicate AnyExists(doc: Document, sels: seq<Selector>) {
    exists i :: 0 <= i < |sels| && Exists(doc, sels[i])
  }

  /** The primary selector, or failing that one of the fallbacks, finds a node. */
  predicate DomShapeMatch(c: PlatformConfig, doc: Document) {
    Exists(doc, c.selectors.primary) || AnyExists(doc, c.selectors.fallback)
  }

  /** The first entry whose selectors find something, `Unknown` when none does. */
  function FirstByDom(cs: seq<PlatformConfig>, doc: Document): (p: Platform)
    ensures p == Unknown || exists i :: 0 <= i < |cs| && DomShapeMatch(cs[i], doc) && cs[i].platform == p
    decreases |cs|
  {
    if |cs| == 0 then Unknown
    else if DomShapeMatch(cs[0], doc) then cs[0].platform
    else
      var p := FirstByDom(cs[1..], doc);
      assert p == Unknown || exists i :: 1 <= i < |cs| && DomShapeMatch(cs[i], doc) && cs[i].platform == p by {
        if p != Unknown {
          var i :| 0 <= i < |cs[1..]| && DomShapeMatch(cs[1..][i], doc) && cs[1..][i].platform == p;
          assert cs[i + 1] == cs[1..][i];
        }
      }
      p
  }

  /** The structural search answers `Unknown` exactly when no entry's selectors find
      anything (given entries whose keys are known platforms), and otherwise with the
      first entry that finds something. */
  lemma {:induction false} FirstByDomIsFirstMatch(cs: seq<PlatformConfig>, doc: Document, i: int)
    requires forall k :: 0 <= k < |cs| ==> cs[k].platform != Unknown
    ensures FirstByDom(cs, doc) == Unknown <==> forall k :: 0 <= k < |cs| ==> !DomShapeMatch(cs[k], doc)
    ensures 0 <= i < |cs| && DomShapeMatch(cs[i], doc) && (forall k :: 0 <= k < i ==> !DomShapeMatch(cs[k], doc))
            ==> FirstByDom(cs, doc) == cs[i].platform
    decreases |cs|
  {
    if |cs| > 0 {
      FirstByDomIsFirstMatch(cs[1..], doc, i - 1);
      if !DomShapeMatch(cs[0], doc) {
        if forall k :: 0 <= k < |cs[1..]| ==> !DomShapeMatch(cs[1..][k], doc) {
          forall k | 0 <= k < |cs| ensures !DomShapeMatch(cs[k], doc) {
            if k > 0 { assert cs[k] == cs[1..][k - 1]; }
          }
        }
      }
    }
  }

  /** `detectCurrentPlatform`: location first, page structure when no entry is accepted. */
  function Resolve(cs: seq<PlatformConfig>, loc: Location, doc: Document): (p: Platform)
    ensures p != Unknown ==> exists i :: 0 <= i < |cs| && cs[i].platform == p
    ensures FirstByLocation(cs, loc).Some? ==> p == FirstByLocation(cs, loc).value
    ensures FirstByLocation(cs, loc).None? ==> p == FirstByDom(cs, doc)
  {
    match FirstByLocation(cs, loc)
    case Some(p) => p
    case None => FirstByDom(cs, doc)
  }

  /** The inner loop of `detectByDOM`: the fallback selectors in order, stopping at the
      first one that finds a node. */
  method FirstFallbackHit(doc: Document, sels: seq<Selector>) returns (hit: bool)
    ensures hit <==> AnyExists(doc, sels)
  {
    var j := 0;
    while j < |sels|
      invariant 0 <= j <= |sels|
      invariant forall k :: 0 <= k < j ==> !Exists(doc, sels[k])
    {
      if |doc.query(sels[j])| > 0 {
        return true;
      }
      j := j + 1;
    }
    return false;
  }

  // ---------------------------------------------------------------------------
  // Lookup and derived queries

  /** `platformConfigs[platform]`: the entry under a key, `None` for a key with no entry. */
  function Lookup(cs: seq<PlatformConfig>, p: Platform): (c: Option<PlatformConfig>)
    ensures c.None? <==> forall k :: 0 <= k < |cs| ==> cs[k].platform != p
    ensures c.Some? ==> c.value in cs && c.value.platform == p
    decreases |cs|
  {
    if |cs| == 0 then None
    else if cs[0].platform == p then Some(cs[0])
    else
      var c := Lookup(cs[1..], p);
      assert c.None? ==> forall k :: 0 <= k < |cs| ==> cs[k].platform != p by {
        if c.None? {
          forall k | 0 <= k < |cs| ensures cs[k].platform != p {
            if k > 0 { assert cs[k] == cs[1..][k - 1]; }
          }
        }
      }
      c
  }

  /** Under distinct keys every entry is found under its own key. */
  lemma {:induction false} LookupAt(cs: seq<PlatformConfig>, i: int)
    requires ValidRegistry(cs) && 0 <= i < |cs|
    ensures Lookup(cs, cs[i].platform) == Some(cs[i])
    decreases |cs|
  {
    if i > 0 {
      assert ValidRegistry(cs[1..]) by {
        forall a, b | 0 <= a < b < |cs[1..]| ensures cs[1..][a].platform != cs[1..][b].platform {
          assert cs[1..][a] == cs[a + 1] && cs[1..][b] == cs[b + 1];
        }
      }
      LookupAt(cs[1..], i - 1);
    }
  }

  datatype DetectionResult = DetectionResult(
    platform: Platform,
    config: Option<PlatformConfig>,
    isSupported: bool,
    isEnabled: bool)

  /** `getCurrentPlatformConfig`: the detected key, its entry, and whether it is enabled
      and supported. */
  function CurrentPlatformConfig(cs: seq<PlatformConfig>, loc: Location, doc: Document): (r: DetectionResult)
    ensures r.platform == Resolve(cs, loc, doc)
    ensures r.config.Some? ==> r.config.value in cs && r.config.value.platform == r.platform
    ensures r.config.None? <==> forall k :: 0 <= k < |cs| ==> cs[k].platform != r.platform
    ensures r.isEnabled <==> r.config.Some? && r.config.value.enabled
    ensures r.isSupported <==> r.isEnabled && r.platform != Unknown
  {
    var p := Resolve(cs, loc, doc);
    var c := Lookup(cs, p);
    var enabled := if c.Some? then c.value.enabled else false;
    DetectionResult(p, c, p != Unknown && enabled, enabled)
  }

  /** In a valid registry every resolved key has its entry, and an unresolved page has none. */
  lemma ResolvedHasConfig(cs: seq<PlatformConfig>, loc: Location, doc: Document)
    requires ValidRegistry(cs)
    ensures CurrentPlatformConfig(cs, loc, doc).config.Some? <==> Resolve(cs, loc, doc) != Unknown
  {
    var p := Resolve(cs, loc, doc);
    if p == Unknown {
      assert forall k :: 0 <= k < |cs| ==> WellFormed(cs[k]);
    }
  }

  /** `config?.name || 'Unknown Platform'` */
  function PlatformName(r: DetectionResult): (name: string)
    ensures r.config.None? ==> name == "Unknown Platform"
    ensures r.config.Some? && r.config.value.name != "" ==> name == r.config.value.name
    ensures r.config.Some? && r.config.value.name == "" ==> name == "Unknown Platform"
  {
    if r.config.Some? && r.config.value.name != "" then r.config.value.name else "Unknown Platform"
  }

  /** `config?.tokenLimit || 8000` (a zero limit is falsy and also gives 8000). */
  function TokenLimitOf(c: Option<PlatformConfig>): (limit: int)
    ensures c.None? ==> limit == 8000
    ensures c.Some? && c.value.tokenLimit != 0 ==> limit == c.value.tokenLimit
    ensures c.Some? && c.value.tokenLimit == 0 ==> limit == 8000
  {
    if c.Some? && c.value.tokenLimit != 0 then c.value.tokenLimit else 8000
  }

  /** The manifest pattern for every domain of every entry, in registry order, with
      repeats. */
  function DomainPatterns(cs: seq<PlatformConfig>): seq<string>
    decreases |cs|
  {
    if |cs| == 0 then []
    else DomainPatterns(cs[..|cs| - 1]) + PatternsOf(cs[|cs| - 1].domains)
  }

  /** `domains.map(d => https://<d>/ followed by a star)` */
  function PatternsOf(domains: seq<string>): (r: seq<string>)
    ensures |r| == |domains|
    ensures forall k :: 0 <= k < |r| ==> r[k] == "https://" + domains[k] + "/*"
  {
    seq(|domains|, k requires 0 <= k < |domains| => "https://" + domains[k] + "/*")
  }

  /** Every domain of every entry has its pattern in the list. */
  lemma {:induction false} DomainPatternsCover(cs: seq<PlatformConfig>, i: int, d: string)
    requires 0 <= i < |cs| && d in cs[i].domains
    ensures "https://" + d + "/*" in DomainPatterns(cs)
    decreases |cs|
  {
    var k :| 0 <= k < |cs[i].domains| && cs[i].domains[k] == d;
    if i < |cs| - 1 {
      assert cs[..|cs| - 1][i] == cs[i];
      DomainPatternsCover(cs[..|cs| - 1], i, d);
    } else {
      assert PatternsOf(cs[i].domains)[k] == "https://" + d + "/*";
    }
  }

  /** Every pattern in the list comes from some declared domain. */
  lemma {:induction false} DomainPatternsSound(cs: seq<PlatformConfig>, x: string)
    requires x in DomainPatterns(cs)
    ensures exists i, k :: 0 <= i < |cs| && 0 <= k < |cs[i].domains| && x == "https://" + cs[i].domains[k] + "/*"
    decreases |cs|
  {
    var init := cs[..|cs| - 1];
    if x in DomainPatterns(init) {
      DomainPatternsSound(init, x);
      var i, k :| 0 <= i < |init| && 0 <= k < |init[i].domains| && x == "https://" + init[i].domains[k] + "/*";
      assert cs[i] == init[i];
    } else {
      var k :| 0 <= k < |PatternsOf(cs[|cs| - 1].domains)| && PatternsOf(cs[|cs| - 1].domains)[k] == x;
    }
  }

  datatype ElementsFound = ElementsFound(primary: bool, fallbackFound: bool, contentFound: bool)

  /** What the three selectors of one entry find on the page. */
  function ElementsOf(c: PlatformConfig, doc: Document): (e: ElementsFound)
    ensures e.primary <==> |doc.query(c.selectors.primary)| > 0
    ensures e.fallbackFound <==> exists k :: 0 <= k < |c.selectors.fallback| && |doc.query(c.selectors.fallback[k])| > 0
    ensures e.contentFound <==> |doc.query(c.selectors.content)| > 0
  {
    ElementsFound(Exists(doc, c.selectors.primary), AnyExists(doc, c.selectors.fallback), Exists(doc, c.selectors.content))
  }

  datatype DebugInfo = DebugInfo(
    platform: Platform,
    hostname: string,
    pathname: string,
    url: string,
    config: Option<PlatformConfig>,
    domainMatch: map<Platform, bool>,
    elementsFound: map<Platform, ElementsFound>)

  /** The detector object: its registry is set once by the constructor and only read
      afterwards. */
  class Detector {
    const configs: seq<PlatformConfig>

    predicate Valid() {
      ValidRegistry(configs)
    }

    constructor ()
      ensures configs == Configs && Valid()
    {
      configs := Configs;
      RegistryIsValid();
    }

    /** The loop of `detectCurrentPlatform`: entries in order, early return on acceptance,
        then the structural search. */
    method DetectCurrentPlatform(loc: Location, doc: Document) returns (p: Platform)
      ensures p == Resolve(configs, loc, doc)
    {
      var i := 0;
      while i < |configs|
        invariant 0 <= i <= |configs|
        invariant FirstByLocation(configs, loc) == FirstByLocation(configs[i..], loc)
      {
        var config := configs[i];
        assert configs[i..][1..] == configs[i + 1..];
        if DomainMatch(config.domains, loc.hostname) {
          if config.urlPatterns.Some? {
            if PatternMatch(config.urlPatterns.value, loc) {
              return config.platform;
            }
          } else {
            return config.platform;
          }
        }
        i := i + 1;
      }
      p := DetectByDOM(doc);
    }

    /** The nested loops of `detectByDOM`: for each entry the primary selector, then each
        fallback; the first hit returns the entry's key. */
    method DetectByDOM(doc: Document) returns (p: Platform)
      ensures p == FirstByDom(configs, doc)
    {
      var i := 0;
      while i < |configs|
        invariant 0 <= i <= |configs|
        invariant FirstByDom(configs, doc) == FirstByDom(configs[i..], doc)
      {
        var config := configs[i];
        assert configs[i..][1..] == configs[i + 1..];
        if |doc.query(config.selectors.primary)| > 0 {
          return config.platform;
        }
        var hit := FirstFallbackHit(doc, config.selectors.fallback);
        if hit {
          return config.platform;
        }
        i := i + 1;
      }
      return Unknown;
    }

    /** The method form of `getCurrentPlatformConfig`, running the detection loops. */
    method GetCurrentPlatformConfig(loc: Location, doc: Document) returns (r: DetectionResult)
      ensures r == CurrentPlatformConfig(configs, loc, doc)
    {
      var p := DetectCurrentPlatform(loc, doc);
      var c := Lookup(configs, p);
      var enabled := if c.Some? then c.value.enabled else false;
      r := DetectionResult(p, c, p != Unknown && enabled, enabled);
    }

    /** `getPlatformName` */
    method GetPlatformName(loc: Location, doc: Document) returns (name: string)
      ensures name == PlatformName(CurrentPlatformConfig(configs, loc, doc))
      ensures Resolve(configs, loc, doc) == Unknown && Valid() ==> name == "Unknown Platform"
    {
      var info := GetCurrentPlatformConfig(loc, doc);
      if Valid() {
        ResolvedHasConfig(configs, loc, doc);
      }
      name := PlatformName(info);
    }

    /** `getPlatformTokenLimit`: the detected entry's ceiling, 8000 without an entry. */
    method GetPlatformTokenLimit(loc: Location, doc: Document) returns (limit: int)
      requires Valid()
      ensures Resolve(configs, loc, doc) == Unknown ==> limit == 8000
      ensures Resolve(configs, loc, doc) != Unknown ==> limit == Lookup(configs, Resolve(configs, loc, doc)).value.tokenLimit
      ensures limit > 0
    {
      var info := GetCurrentPlatformConfig(loc, doc);
      ResolvedHasConfig(configs, loc, doc);
      limit := TokenLimitOf(info.config);
    }

    /** `isCurrentPlatformSupported` */
    method IsCurrentPlatformSupported(loc: Location, doc: Document) returns (b: bool)
      ensures b <==> exists k :: 0 <= k < |configs| && configs[k].platform == Resolve(configs, loc, doc)
                                  && configs[k].platform != Unknown && Lookup(configs, configs[k].platform).value.enabled
    {
      var info := GetCurrentPlatformConfig(loc, doc);
      b := info.isSupported;
      if b {
        var c := info.config.value;
        var k :| 0 <= k < |configs| && configs[k] == c;
      }
    }

    /** `getAllSupportedDomains`: push every pattern, then deduplicate through a `Set`. */
    method GetAllSupportedDomains() returns (r: seq<string>)
      ensures r == Dedup(DomainPatterns(configs))
      ensures NoDuplicates(r)
      ensures forall i, d :: 0 <= i < |configs| && d in configs[i].domains ==> "https://" + d + "/*" in r
      ensures forall x :: x in r ==> exists i, k :: 0 <= i < |configs| && 0 <= k < |configs[i].domains| && x == "https://" + configs[i].domains[k] + "/*"
    {
      var domains: seq<string> := [];
      var i := 0;
      while i < |configs|
        invariant 0 <= i <= |configs|
        invariant domains == DomainPatterns(configs[..i])
      {
        assert configs[..i + 1][..i] == configs[..i];
        domains := domains + PatternsOf(configs[i].domains);
        i := i + 1;
      }
      assert configs[..i] == configs;
      r := Dedup(domains);
      forall i, d | 0 <= i < |configs| && d in configs[i].domains
        ensures "https://" + d + "/*" in r
      {
        DomainPatternsCover(configs, i, d);
      }
      forall x | x in r
        ensures exists i, k :: 0 <= i < |configs| && 0 <= k < |configs[i].domains| && x == "https://" + configs[i].domains[k] + "/*"
      {
        DomainPatternsSound(configs, x);
      }
    }

    /** `checkDomainMatch`: for each key, whether the hostname contains one of its domains
        (only one direction, unlike the detection search). */
    method CheckDomainMatch(loc: Location) returns (matches: map<Platform, bool>)
      requires Valid()
      ensures matches.Keys == KeysOf(configs)
      ensures forall i :: 0 <= i < |configs| ==>
        (configs[i].platform in matches &&
         (matches[configs[i].platform] <==> exists k :: 0 <= k < |configs[i].domains| && Contains(loc.hostname, configs[i].domains[k])))
    {
      matches := map[];
      var i := 0;
      while i < |configs|
        invariant 0 <= i <= |configs|
        invariant matches.Keys == KeysOf(configs[..i])
        invariant forall k :: 0 <= k < i ==>
          (configs[k].platform in matches &&
           (matches[configs[k].platform] <==> exists d :: 0 <= d < |configs[k].domains| && Contains(loc.hostname, configs[k].domains[d])))
      {
        var config := configs[i];
        assert configs[..i + 1][..i] == configs[..i];
        var found := exists d :: 0 <= d < |config.domains| && Contains(loc.hostname, config.domains[d]);
        matches := matches[config.platform := found];
        i := i + 1;
      }
      assert configs[..i] == configs;
    }

    /** `findPlatformElements`: for each key, whether its primary, any fallback and its
        content selector find something on the page. */
    method FindPlatformElements(doc: Document) returns (found: map<Platform, ElementsFound>)
      requires Valid()
      ensures found.Keys == KeysOf(configs)
      ensures forall i :: 0 <= i < |configs| ==> configs[i].platform in found && found[configs[i].platform] == ElementsOf(configs[i], doc)
    {
      found := map[];
      var i := 0;
      while i < |configs|
        invariant 0 <= i <= |configs|
        invariant found.Keys == KeysOf(configs[..i])
        invariant forall k :: 0 <= k < i ==> configs[k].platform in found && found[configs[k].platform] == ElementsOf(configs[k], doc)
      {
        var config := configs[i];
        assert configs[..i + 1][..i] == configs[..i];
        var s := config.selectors;
        var primary := |doc.query(s.primary)| > 0;
        var fallback := FirstFallbackHit(doc, s.fallback);
        var content := |doc.query(s.content)| > 0;
        found := found[config.platform := ElementsFound(primary, fallback, content)];
        i := i + 1;
      }
      assert configs[..i] == configs;
    }

    /** `getDebugInfo`: the detection answer with the two diagnostic tables. */
    method GetDebugInfo(loc: Location, doc: Document) returns (info: DebugInfo)
      requires Valid()
      ensures info.platform == Resolve(configs, loc, doc) && info.config == Lookup(configs, info.platform)
      ensures info.hostname == loc.hostname && info.pathname == loc.pathname && info.url == loc.href
      ensures info.domainMatch.Keys == info.elementsFound.Keys == KeysOf(configs)
      ensures forall i :: 0 <= i < |configs| ==>
        configs[i].platform in info.domainMatch && configs[i].platform in info.elementsFound &&
        (info.domainMatch[configs[i].platform] <==> exists k :: 0 <= k < |configs[i].domains| && Contains(loc.hostname, configs[i].domains[k])) &&
        info.elementsFound[configs[i].platform] == ElementsOf(configs[i], doc)
    {
      var p := DetectCurrentPlatform(loc, doc);
      var m := CheckDomainMatch(loc);
      var f := FindPlatformElements(doc);
      info := DebugInfo(p, loc.hostname, loc.pathname, loc.href, Lookup(configs, p), m, f);
    }
  }

  // ---------------------------------------------------------------------------
  // The registry as declared

  /** Each key finds the entry declared for it, with its ceiling and its switch. */
  lemma RegistryLookup()
    ensures Lookup(Configs, ChatGPT) == Some(ChatGPTConfig) && ChatGPTConfig.tokenLimit == 8000 && ChatGPTConfig.enabled
    ensures Lookup(Configs, Claude) == Some(ClaudeConfig) && ClaudeConfig.tokenLimit == 200000 && !ClaudeConfig.enabled
    ensures Lookup(Configs, Gemini) == Some(GeminiConfig) && GeminiConfig.tokenLimit == 30000 && GeminiConfig.enabled
    ensures Lookup(Configs, Grok) == Some(GrokConfig) && GrokConfig.tokenLimit == 25000 && GrokConfig.enabled
    ensures Lookup(Configs, Unknown) == None
  {
    RegistryIsValid();
    LookupAt(Configs, 0);
    LookupAt(Configs, 1);
    LookupAt(Configs, 2);
    LookupAt(Configs, 3);
  }

  /** Every domain the registry declares, in registry order. */
  const DeclaredDomains: seq<string> := [
    "chat.openai.com", "chatgpt.com", "claude.ai", "gemini.google.com", "bard.google.com",
    "grok.com", "x.com", "twitter.com"]

  lemma {:induction false} PatternsOfAppend(xs: seq<string>, ys: seq<string>)
    ensures PatternsOf(xs + ys) == PatternsOf(xs) + PatternsOf(ys)
  {
    var l, r := PatternsOf(xs + ys), PatternsOf(xs) + PatternsOf(ys);
    forall k | 0 <= k < |l| ensures l[k] == r[k] {
      if k < |xs| {
        assert (xs + ys)[k] == xs[k];
      } else {
        assert (xs + ys)[k] == ys[k - |xs|];
      }
    }
  }

  /** Different domains give different manifest patterns. */
  lemma PatternInjective(a: string, b: string)
    requires "https://" + a + "/*" == "https://" + b + "/*"
    ensures a == b
  {
    var pa, pb := "https://" + a + "/*", "https://" + b + "/*";
    assert |a| == |b|;
    assert a == pa[8..8 + |a|];
    assert b == pb[8..8 + |b|];
  }

  lemma {:induction false} PatternsOfDistinct(domains: seq<string>)
    requires NoDuplicates(domains)
    ensures NoDuplicates(PatternsOf(domains))
  {
    var r := PatternsOf(domains);
    forall i, j | 0 <= i < j < |r| ensures r[i] != r[j] {
      if r[i] == r[j] {
        PatternInjective(domains[i], domains[j]);
      }
    }
  }

  /** The patterns the registry produces, before deduplication. */
  lemma RegistryDomainPatterns()
    ensures DomainPatterns(Configs) == PatternsOf(DeclaredDomains)
  {
    var c := Configs;
    assert c[..1][..0] == [] && c[..2][..1] == c[..1] && c[..3][..2] == c[..2] && c[..4][..3] == c[..3];
    assert c[..4] == c;
    var d1, d2, d3, d4 := ChatGPTConfig.domains, ClaudeConfig.domains, GeminiConfig.domains, GrokConfig.domains;
    assert DomainPatterns(c[..1]) == PatternsOf(d1);
    assert DomainPatterns(c[..2]) == PatternsOf(d1) + PatternsOf(d2);
    assert DomainPatterns(c[..3]) == PatternsOf(d1) + PatternsOf(d2) + PatternsOf(d3);
    assert DomainPatterns(c) == PatternsOf(d1) + PatternsOf(d2) + PatternsOf(d3) + PatternsOf(d4);
    PatternsOfAppend(d1, d2);
    PatternsOfAppend(d1 + d2, d3);
    PatternsOfAppend(d1 + d2 + d3, d4);
    assert d1 + d2 + d3 + d4 == DeclaredDomains;
  }

  lemma DeclaredDomainsDistinct()
    ensures NoDuplicates(DeclaredDomains)
  {
  }

  /** The registry's domains are all different, so nothing is dropped and the list is
      the pattern of every declared domain, in registry order. */
  lemma SupportedDomainsInOrder()
    ensures Dedup(DomainPatterns(Configs)) == PatternsOf(DeclaredDomains)
    ensures |Dedup(DomainPatterns(Configs))| == 8
  {
    RegistryDomainPatterns();
    DeclaredDomainsDistinct();
    PatternsOfDistinct(DeclaredDomains);
    DedupOfDistinct(PatternsOf(DeclaredDomains));
  }

  // ---------------------------------------------------------------------------
  // Consequences for particular pages

  /** An empty hostname is contained in every domain, so the first entry, ChatGPT, is a
      domain candidate and, declaring no URL patterns, wins. */
  lemma EmptyHostnameIsChatGPT(loc: Location, doc: Document)
    requires loc.hostname == ""
    ensures Resolve(Configs, loc, doc) == ChatGPT
  {
    ContainsEmpty(ChatGPTConfig.domains[0]);
    assert AcceptedByLocation(ChatGPTConfig, loc);
  }

  /** A location whose hostname is one of an entry's domains, that meets the entry's URL
      patterns, and that no earlier entry accepts, is resolved to that entry. */
  lemma DeclaredDomainIsResolved(cs: seq<PlatformConfig>, loc: Location, doc: Document, i: int, d: int)
    requires 0 <= i < |cs| && 0 <= d < |cs[i].domains| && loc.hostname == cs[i].domains[d]
    requires cs[i].urlPatterns.Some? ==> PatternMatch(cs[i].urlPatterns.value, loc)
    requires forall j :: 0 <= j < i ==> !AcceptedByLocation(cs[j], loc)
    ensures Resolve(cs, loc, doc) == cs[i].platform
  {
    ContainsSelf(loc.hostname);
    assert IsFirstAccepted(cs, loc, i);
    FirstByLocationIsFirstMatch(cs, loc);
  }

  /** No domain in the list contains the hostname or is contained in it. */
  lemma NoDomainMatch(domains: seq<string>, host: string)
    requires forall i :: 0 <= i < |domains| ==> !Contains(host, domains[i]) && !Contains(domains[i], host)
    ensures !DomainMatch(domains, host)
  {
  }

  /** No pattern occurs in the path, the URL or the hostname. */
  lemma NoPatternMatch(patterns: seq<string>, loc: Location)
    requires forall i :: 0 <= i < |patterns| ==>
      !Contains(loc.pathname, patterns[i]) && !Contains(loc.href, patterns[i]) && !Contains(loc.hostname, patterns[i])
    ensures !PatternMatch(patterns, loc)
  {
  }

  /** Neither of `domain` and `host` contains the other, shown by a character of each
      that the other lacks. */
  lemma DomainMiss(domain: string, host: string, a: char, b: char)
    requires a in domain && a !in host && b in host && b !in domain
    ensures !Contains(host, domain) && !Contains(domain, host)
  {
    NotContains(host, domain, a);
    NotContains(domain, host, b);
  }

  /** A hostname that lacks a character both ChatGPT domains have, and has one neither of
      them has, is not a domain candidate for ChatGPT. */
  lemma HostMissesChatGPT(host: string, a: char, b: char)
    requires a in "chat.openai.com" && a in "chatgpt.com" && a !in host
    requires b in host && b !in "chat.openai.com" && b !in "chatgpt.com"
    ensures !DomainMatch(ChatGPTConfig.domains, host)
  {
    DomainMiss("chat.openai.com", host, a, b);
    DomainMiss("chatgpt.com", host, a, b);
    NoDomainMatch(["chat.openai.com", "chatgpt.com"], host);
  }

  /** `x.com` is not a domain candidate for Claude or Gemini either. */

  lemma XComMissesClaude()
    ensures !DomainMatch(ClaudeConfig.domains, "x.com")
  {
    DomainMiss("claude.ai", "x.com", 'l', 'x');
    NoDomainMatch(["claude.ai"], "x.com");
  }

  lemma XComMissesGemini()
    ensures !DomainMatch(GeminiConfig.domains, "x.com")
  {
    DomainMiss("gemini.google.com", "x.com", 'g', 'x');
    DomainMiss("bard.google.com", "x.com", 'b', 'x');
    NoDomainMatch(["gemini.google.com", "bard.google.com"], "x.com");
  }

  /** On `x.com` the location search reaches the Grok entry: it is the first domain
      candidate. */
  lemma XComReachesGrok(loc: Location)
    requires loc.hostname == "x.com"
    ensures FirstByLocation(Configs, loc) == FirstByLocation([GrokConfig], loc)
  {
    HostMissesChatGPT("x.com", 'h', 'x');
    XComMissesClaude();
    XComMissesGemini();
    var c := Configs;
    assert c[1..] == [ClaudeConfig, GeminiConfig, GrokConfig];
    assert c[1..][1..] == [GeminiConfig, GrokConfig];
    assert c[1..][1..][1..] == [GrokConfig];
    assert FirstByLocation(c, loc) == FirstByLocation(c[1..], loc);
    assert FirstByLocation(c[1..], loc) == FirstByLocation(c[1..][1..], loc);
  }

  /** On `x.com/home` the Grok entry is a domain candidate but no pattern matches, so no
      entry is accepted by location and the structural search decides. */
  lemma XHomeIsNotGrokByLocation(doc: Document)
    ensures var loc := Location("x.com", "/home", "https://x.com/home");
      DomainMatch(GrokConfig.domains, loc.hostname) && !AcceptedByLocation(GrokConfig, loc)
      && Resolve(Configs, loc, doc) == FirstByDom(Configs, doc)
  {
    var loc := Location("x.com", "/home", "https://x.com/home");
    ContainsSelf("x.com");
    assert GrokConfig.domains[1] == "x.com";
    XHomeMissesPatterns(loc);
    XComReachesGrok(loc);
    assert [GrokConfig][1..] == [];
  }

  lemma XHomeMissesPatterns(loc: Location)
    requires loc == Location("x.com", "/home", "https://x.com/home")
    ensures !PatternMatch(GrokConfig.urlPatterns.value, loc)
  {
    NotContains("/home", "/i/grok", 'g');
    NotContains("https://x.com/home", "/i/grok", 'g');
    NotContains("x.com", "/i/grok", 'g');
    NotContains("/home", "grok.com", 'g');
    NotContains("https://x.com/home", "grok.com", 'g');
    NotContains("x.com", "grok.com", 'g');
    NoPatternMatch(["/i/grok", "grok.com"], loc);
  }

  /** With its URL patterns met, `x.com/i/grok` resolves to Grok. */
  lemma XGrokPageIsGrok(doc: Document)
    ensures Resolve(Configs, Location("x.com", "/i/grok", "https://x.com/i/grok"), doc) == Grok
  {
    var loc := Location("x.com", "/i/grok", "https://x.com/i/grok");
    ContainsSelf("x.com");
    ContainsSelf("/i/grok");
    assert GrokConfig.domains[1] == "x.com";
    assert GrokConfig.urlPatterns.value[0] == "/i/grok";
    assert AcceptedByLocation(GrokConfig, loc);
    XComReachesGrok(loc);
  }

  /** `claude.ai` resolves to the Claude entry, which is switched off: detected but
      unsupported. */
  lemma ClaudeIsDetectedButUnsupported(loc: Location, doc: Document)
    requires loc.hostname == "claude.ai"
    ensures Resolve(Configs, loc, doc) == Claude
    ensures !CurrentPlatformConfig(Configs, loc, doc).isSupported
    ensures CurrentPlatformConfig(Configs, loc, doc).config == Some(ClaudeConfig)
  {
    HostMissesChatGPT("claude.ai", 'o', 'l');
    ContainsSelf("claude.ai");
    assert ClaudeConfig.domains[0] == "claude.ai";
    assert AcceptedByLocation(ClaudeConfig, loc);
    var c := Configs;
    assert c[1..] == [ClaudeConfig, GeminiConfig, GrokConfig];
    assert FirstByLocation(c, loc) == Some(Claude);
    RegistryLookup();
  }
}
