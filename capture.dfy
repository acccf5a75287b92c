/**
 * The pure parts of the capture pipeline (src/core/capture.js): the error
 * classifier, the context cache key, the page-stabilisation plan with its
 * effective delay, the cookie-accept label match, the hide-selector list and
 * the fixed/sticky-element threshold of consistency mode.
 */
module Capture {
  import opened Wrappers
  import opened Text
  import opened Validation

  // ------------------------------------------------------- error classifier

  /** A thrown value: an `Error` (with its name and message) or anything else. */
  datatype Thrown = ErrorObj(name: string, message: string) | NonError(text: string)

  /**
   * `String(error)`: 'Name: message' for an Error, or only the part that is
   * not empty; the value's own text otherwise.
   */
  function ThrownText(e: Thrown): string {
    match e
    case ErrorObj(name, message) =>
      if name == "" then message else if message == "" then name else name + ": " + message
    case NonError(text) => text
  }

  const UnknownMsg := "Unknown capture error."
  const TimeoutMsg := "Navigation timed out. Try a longer timeout or a different wait strategy."
  const DnsMsg := "Could not resolve the URL host. Check the address and your connection."
  const RefusedMsg := "Connection was refused by the destination server."
  const CrashMsg := "The browser page crashed during capture."

  /** `formatError`. */
  function FormatError(e: Thrown): (r: string)
    ensures e.NonError? ==> r == UnknownMsg
    ensures e.ErrorObj? ==> r in {TimeoutMsg, DnsMsg, RefusedMsg, CrashMsg, e.message}
  {
    match e
    case NonError(_) => UnknownMsg
    case ErrorObj(_, message) =>
      var lowered := Lower(message);
      if Contains(lowered, "timeout") then TimeoutMsg
      else if Contains(lowered, "net::err_name_not_resolved") || Contains(lowered, "failed to resolve") then DnsMsg
      else if Contains(lowered, "net::err_connection_refused") then RefusedMsg
      else if Contains(lowered, "crash") then CrashMsg
      else message
  }

  /** One classification rule: any of its needles selects its message. */
  datatype Rule = Rule(needles: seq<string>, message: string)

  /** The classifier as a table, tried from the top. */
  const Rules: seq<Rule> := [
    Rule(["timeout"], TimeoutMsg),
    Rule(["net::err_name_not_resolved", "failed to resolve"], DnsMsg),
    Rule(["net::err_connection_refused"], RefusedMsg),
    Rule(["crash"], CrashMsg)
  ]

  predicate AnyNeedle(text: string, needles: seq<string>) {
    exists i :: 0 <= i < |needles| && Contains(text, needles[i])
  }

  /** The message of the first rule with a needle in `text`, else `fallback`. */
  function FirstRule(rules: seq<Rule>, text: string, fallback: string): (r: string)
    ensures r == fallback || exists i :: 0 <= i < |rules| && r == rules[i].message
    ensures (forall i :: 0 <= i < |rules| ==> !AnyNeedle(text, rules[i].needles)) ==> r == fallback
    ensures forall i ::
              (0 <= i < |rules| && AnyNeedle(text, rules[i].needles)
               && forall j :: 0 <= j < i ==> !AnyNeedle(text, rules[j].needles))
              ==> r == rules[i].message
  {
    if rules == [] then fallback
    else if AnyNeedle(text, rules[0].needles) then rules[0].message
    else
      var r := FirstRule(rules[1..], text, fallback);
      assert forall i :: 1 <= i < |rules| ==> rules[1..][i - 1] == rules[i];
      r
  }

  /** `formatError` is exactly the first-match rule table on the lowered message. */
  lemma FormatErrorIsFirstRule(e: Thrown)
    requires e.ErrorObj?
    ensures FormatError(e) == FirstRule(Rules, Lower(e.message), e.message)
  {
    var t := Lower(e.message);
    assert AnyNeedle(t, ["timeout"]) <==> Contains(t, "timeout") by {
      if Contains(t, "timeout") { assert ["timeout"][0] == "timeout"; }
    }
    var dns := ["net::err_name_not_resolved", "failed to resolve"];
    assert AnyNeedle(t, dns) <==>
           Contains(t, "net::err_name_not_resolved") || Contains(t, "failed to resolve") by {
      if Contains(t, "net::err_name_not_resolved") { assert dns[0] == "net::err_name_not_resolved"; }
      if Contains(t, "failed to resolve") { assert dns[1] == "failed to resolve"; }
    }
    assert AnyNeedle(t, ["net::err_connection_refused"]) <==> Contains(t, "net::err_connection_refused") by {
      if Contains(t, "net::err_connection_refused") {
        assert ["net::err_connection_refused"][0] == "net::err_connection_refused";
      }
    }
    assert AnyNeedle(t, ["crash"]) <==> Contains(t, "crash") by {
      if Contains(t, "crash") { assert ["crash"][0] == "crash"; }
    }
    var m := e.message;
    var r1 := Rules[1..];
    var r2 := r1[1..];
    var r3 := r2[1..];
    assert r3[1..] == [];
    assert FirstRule(r3[1..], t, m) == m;
    assert FirstRule(r3, t, m) == if Contains(t, "crash") then CrashMsg else m;
    assert FirstRule(r2, t, m) == if Contains(t, "net::err_connection_refused") then RefusedMsg else FirstRule(r3, t, m);
    assert FirstRule(r1, t, m) == if AnyNeedle(t, dns) then DnsMsg else FirstRule(r2, t, m);
    assert FirstRule(Rules, t, m) == if Contains(t, "timeout") then TimeoutMsg else FirstRule(r1, t, m);
  }

  /** Timeouts win over every other category. */
  lemma TimeoutFirst(name: string, message: string)
    requires Contains(Lower(message), "timeout")
    ensures FormatError(ErrorObj(name, message)) == TimeoutMsg
  {
  }

  /** An error matching no category keeps its own message. */
  lemma UnmatchedKeepsMessage(name: string, message: string)
    requires !Contains(Lower(message), "timeout") && !Contains(Lower(message), "net::err_name_not_resolved")
    requires !Contains(Lower(message), "failed to resolve") && !Contains(Lower(message), "net::err_connection_refused")
    requires !Contains(Lower(message), "crash")
    ensures FormatError(ErrorObj(name, message)) == message
  {
  }

  // ------------------------------------------------------------ context key

  /** The fields of `contextKeyForInput`, before they are joined with '|'. */
  function KeyFields(profile: string, width: int, height: int, scale: int, reduceMotion: bool): seq<string> {
    ["profile:" + profile, "w:" + IntToString(width), "h:" + IntToString(height),
     "s:" + IntToString(scale), "rm:" + (if reduceMotion then "1" else "0")]
  }

  /** `contextKeyForInput`: only profile, viewport, scale and animation suppression count. */
  function ContextKey(input: CaptureInput): string {
    Join(KeyFields(input.profile, input.width, input.height, input.scale, input.suppressAnimations), '|')
  }

  predicate SameContextFields(a: CaptureInput, b: CaptureInput) {
    a.profile == b.profile && a.width == b.width && a.height == b.height
    && a.scale == b.scale && a.suppressAnimations == b.suppressAnimations
  }

  lemma KeyFieldsInjective(p1: string, w1: int, h1: int, s1: int, r1: bool,
                           p2: string, w2: int, h2: int, s2: int, r2: bool)
    requires '|' !in p1 && '|' !in p2
    requires Join(KeyFields(p1, w1, h1, s1, r1), '|') == Join(KeyFields(p2, w2, h2, s2, r2), '|')
    ensures p1 == p2 && w1 == w2 && h1 == h2 && s1 == s2 && r1 == r2
  {
    var f1 := KeyFields(p1, w1, h1, s1, r1);
    var f2 := KeyFields(p2, w2, h2, s2, r2);
    KeyFieldsHaveNoBar(p1, w1, h1, s1, r1);
    KeyFieldsHaveNoBar(p2, w2, h2, s2, r2);
    JoinInjective(f1, f2, '|');
    assert f1[0] == f2[0] && f1[1] == f2[1] && f1[2] == f2[2] && f1[3] == f2[3] && f1[4] == f2[4];
    assert p1 == p2 by { PrefixCancel("profile:", p1, p2); }
    assert w1 == w2 by { TaggedIntInjective("w:", w1, w2); }
    assert h1 == h2 by { TaggedIntInjective("h:", h1, h2); }
    assert s1 == s2 by { TaggedIntInjective("s:", s1, s2); }
    assert ("rm:" + (if r1 then "1" else "0"))[3] == (if r1 then '1' else '0');
  }

  lemma KeyFieldsHaveNoBar(p: string, w: int, h: int, s: int, r: bool)
    requires '|' !in p
    ensures forall i :: 0 <= i < |KeyFields(p, w, h, s, r)| ==> '|' !in KeyFields(p, w, h, s, r)[i]
  {
    IntToStringNoChar(w, '|');
    IntToStringNoChar(h, '|');
    IntToStringNoChar(s, '|');
  }

  lemma TaggedIntInjective(tag: string, a: int, b: int)
    requires tag + IntToString(a) == tag + IntToString(b)
    ensures a == b
  {
    PrefixCancel(tag, IntToString(a), IntToString(b));
    IntToStringInjective(a, b);
  }

  /**
   * Two inputs share a context key exactly when they agree on profile, width,
   * height, scale and animation suppression (profiles never contain '|').
   */
  lemma ContextKeyIff(a: CaptureInput, b: CaptureInput)
    requires '|' !in a.profile && '|' !in b.profile
    ensures ContextKey(a) == ContextKey(b) <==> SameContextFields(a, b)
  {
    if ContextKey(a) == ContextKey(b) {
      KeyFieldsInjective(a.profile, a.width, a.height, a.scale, a.suppressAnimations,
                         b.profile, b.width, b.height, b.scale, b.suppressAnimations);
    }
  }

  /** A normalised input's profile is one of the three names, none of which holds '|'. */
  lemma NormalisedProfileHasNoBar(c: CaptureInput)
    requires WellFormedInput(c)
    ensures '|' !in c.profile
  {
    assert c.profile == "fast" || c.profile == "balanced" || c.profile == "ultra";
  }

  // -------------------------------------------------------- stabilisation

  /** `Math.max(delayMs, consistencyMode ? consistencyDelayMs : 0)`. */
  function EffectiveDelay(delayMs: int, consistencyMode: bool, consistencyDelayMs: int): (r: int)
    ensures r >= delayMs && r >= (if consistencyMode then consistencyDelayMs else 0)
    ensures r == delayMs || r == (if consistencyMode then consistencyDelayMs else 0)
  {
    Max(delayMs, if consistencyMode then consistencyDelayMs else 0)
  }

  /** The page operations between navigation and screenshot. */
  datatype Step =
    | SuppressAnimations
    | ClickAccept
    | Wait(ms: int)
    | HideBanners(custom: seq<string>)
    | ConsistencyMode
    | WaitForFonts

  /** The cookie step: accept clicks, waits 300 ms and hides; hide only hides; off does nothing. */
  function CookieSteps(cookieHandling: string, selectors: seq<string>): seq<Step> {
    if cookieHandling == "accept" then [ClickAccept, Wait(300), HideBanners(selectors)]
    else if cookieHandling == "hide" then [HideBanners(selectors)]
    else []
  }

  /** The stabilisation sequence of `capturePage`, in order. */
  function StabilisationPlan(input: CaptureInput): (r: seq<Step>)
    ensures WaitForFonts in r
  {
    var delay := EffectiveDelay(input.delayMs, input.consistencyMode, input.consistencyDelayMs);
    (if input.suppressAnimations then [SuppressAnimations] else [])
    + CookieSteps(input.cookieHandling, input.cookieSelectors)
    + (if input.consistencyMode then [ConsistencyMode] else [])
    + [WaitForFonts]
    + (if delay > 0 then [Wait(delay)] else [])
  }

  /**
   * The plan: animation suppression first when on, then the cookie step,
   * consistency mode, the fonts wait, and a final wait of the effective delay
   * exactly when it is positive.
   */
  lemma PlanOrder(input: CaptureInput)
    ensures var plan := StabilisationPlan(input);
      var delay := EffectiveDelay(input.delayMs, input.consistencyMode, input.consistencyDelayMs);
      var pre := if input.suppressAnimations then 1 else 0;
      var cookie := CookieSteps(input.cookieHandling, input.cookieSelectors);
      var cm := if input.consistencyMode then 1 else 0;
      && |plan| == pre + |cookie| + cm + 1 + (if delay > 0 then 1 else 0)
      && (input.suppressAnimations <==> plan[0] == SuppressAnimations)
      && plan[pre..pre + |cookie|] == cookie
      && (input.consistencyMode <==> plan[pre + |cookie|] == ConsistencyMode)
      && plan[pre + |cookie| + cm] == WaitForFonts
      && (delay > 0 <==> |plan| == pre + |cookie| + cm + 2)
      && (delay > 0 ==> plan[|plan| - 1] == Wait(delay))
  {
  }

  /** Which cookie operations run, by the cookie handling mode. */
  lemma CookieStepsByMode(cookieHandling: string, selectors: seq<string>)
    ensures cookieHandling == "accept" ==>
              CookieSteps(cookieHandling, selectors) == [ClickAccept, Wait(300), HideBanners(selectors)]
    ensures cookieHandling == "hide" ==> CookieSteps(cookieHandling, selectors) == [HideBanners(selectors)]
    ensures cookieHandling != "accept" ==> ClickAccept !in CookieSteps(cookieHandling, selectors)
    ensures cookieHandling == "off" ==> CookieSteps(cookieHandling, selectors) == []
  {
  }

  // ----------------------------------------------------- cookie accept

  const AcceptLabels: seq<string> := ["accept", "accept all", "allow all", "agree", "i agree", "ok", "got it"]

  /** `textMatch` inside `clickCookieAccept`, over the labels handed to the page. */
  predicate TextMatch(value: string, labels: seq<string>) {
    SomeLabel(Lower(Trim(value)), labels)
  }

  /** `labels.some(label => normalized === label || normalized.includes(label))`. */
  predicate SomeLabel(normalized: string, labels: seq<string>) {
    exists i :: 0 <= i < |labels| && (normalized == labels[i] || Contains(normalized, labels[i]))
  }

  /** The text an element is matched on: its text content, trimmed and lowercased. */
  function ElementText(textContent: string): string {
    Lower(Trim(textContent))
  }

  /** Equality with a label adds nothing to containing it. */
  lemma TextMatchIsContains(value: string, labels: seq<string>)
    ensures TextMatch(value, labels) <==>
            exists i :: 0 <= i < |labels| && Contains(Lower(Trim(value)), labels[i])
  {
    var n := Lower(Trim(value));
    forall i | 0 <= i < |labels| && n == labels[i] ensures Contains(n, labels[i]) {
      ContainsSelf(n);
    }
  }

  /**
   * `maybeClick`: the index of the candidate that is clicked, the first whose
   * text matches, or None when no candidate matches. The source trims and
   * lowercases the text content before `textMatch` does so again; the second
   * pass changes nothing (`ElementTextStable`), so the model tests the text
   * content once.
   */
  method MaybeClick(texts: seq<string>, labels: seq<string>) returns (clicked: Option<nat>)
    ensures clicked.Some? ==> clicked.value < |texts| && TextMatch(texts[clicked.value], labels)
    ensures clicked.Some? ==> forall j :: 0 <= j < clicked.value ==> !TextMatch(texts[j], labels)
    ensures clicked.None? <==> forall j :: 0 <= j < |texts| ==> !TextMatch(texts[j], labels)
  {
    var i := 0;
    while i < |texts|
      invariant 0 <= i <= |texts|
      invariant forall j :: 0 <= j < i ==> !TextMatch(texts[j], labels)
    {
      if TextMatch(texts[i], labels) {
        return Some(i);
      }
      i := i + 1;
    }
    return None;
  }

  /** `clickCookieAccept`: buttons, then `a[role="button"]`, then `[role="button"]`. */
  method ClickCookieAccept(buttons: seq<string>, anchorButtons: seq<string>, roleButtons: seq<string>)
    returns (clicked: Option<nat>)
    ensures var all := buttons + anchorButtons + roleButtons;
      && (clicked.Some? ==> clicked.value < |all| && TextMatch(all[clicked.value], AcceptLabels)
                            && forall j :: 0 <= j < clicked.value ==> !TextMatch(all[j], AcceptLabels))
      && (clicked.None? <==> forall j :: 0 <= j < |all| ==> !TextMatch(all[j], AcceptLabels))
  {
    clicked := MaybeClick(buttons + anchorButtons + roleButtons, AcceptLabels);
  }

  /** Trimming and lowercasing twice is the same as once, so `textMatch` sees the element text as is. */
  lemma ElementTextStable(textContent: string, labels: seq<string>)
    ensures TextMatch(ElementText(textContent), labels) <==> TextMatch(textContent, labels)
  {
    var t := Trim(textContent);
    var n := Lower(t);
    assert Lower(Trim(n)) == n by {
      LowerTrim(t);
      TrimIdempotent(textContent);
      LowerIdempotent(t);
    }
    SameTextMatch(n, textContent, labels);
  }

  /** Two values with the same element text match the same labels. */
  lemma SameTextMatch(a: string, b: string, labels: seq<string>)
    requires Lower(Trim(a)) == Lower(Trim(b))
    ensures TextMatch(a, labels) <==> TextMatch(b, labels)
  {
  }

  lemma LowerIdempotent(s: string)
    ensures Lower(Lower(s)) == Lower(s)
  {
  }

  /** Lowercasing only touches letters, so trimming commutes with it. */
  lemma LowerTrim(s: string)
    ensures Trim(Lower(s)) == Lower(Trim(s))
  {
    LowerTrimStart(s);
    LowerTrimEnd(TrimStart(s));
  }

  lemma {:induction false} LowerTrimStart(s: string)
    ensures TrimStart(Lower(s)) == Lower(TrimStart(s))
    decreases |s|
  {
    if s != [] {
      var l := Lower(s);
      assert l[1..] == Lower(s[1..]) && l[0] == LowerChar(s[0]);
      LowerCharSpace(s[0]);
      LowerTrimStart(s[1..]);
    }
  }

  lemma {:induction false} LowerTrimEnd(s: string)
    ensures TrimEnd(Lower(s)) == Lower(TrimEnd(s))
    decreases |s|
  {
    if s != [] {
      var l := Lower(s);
      assert l[..|s| - 1] == Lower(s[..|s| - 1]) && l[|s| - 1] == LowerChar(s[|s| - 1]);
      LowerCharSpace(s[|s| - 1]);
      LowerTrimEnd(s[..|s| - 1]);
    }
  }

  // ------------------------------------------------------ hide selectors

  const DefaultCookieSelectors: seq<string> := [
    "#onetrust-banner-sdk",
    "#onetrust-consent-sdk",
    ".ot-sdk-container",
    ".ot-sdk-row",
    "[id*=\"cookie\" i][id*=\"banner\" i]",
    "[class*=\"cookie\" i][class*=\"banner\" i]",
    "[class*=\"consent\" i][class*=\"banner\" i]",
    "[data-testid*=\"cookie\" i]",
    "[aria-label*=\"cookie\" i]",
    "[role=\"dialog\"][aria-label*=\"cookie\" i]"
  ]

  predicate NoDuplicates<T(==)>(xs: seq<T>) {
    forall i, j :: 0 <= i < j < |xs| ==> xs[i] != xs[j]
  }

  /** `[...new Set(xs)]`: each element once, at the place it first occurs. */
  function Dedup(xs: seq<string>): (r: seq<string>)
    ensures NoDuplicates(r)
    ensures forall x :: x in r <==> x in xs
    decreases |xs|
  {
    if xs == [] then []
    else
      var init := Dedup(xs[..|xs| - 1]);
      var last := xs[|xs| - 1];
      assert forall x :: x in xs <==> x in xs[..|xs| - 1] || x == last;
      if last in init then init else init + [last]
  }

  /** The list `hideCookieBanners` hides, in order. */
  function HideSelectors(custom: seq<string>): seq<string> {
    Dedup(DefaultCookieSelectors + custom)
  }

  /** Appending to a list only appends to its de-duplication. */
  lemma {:induction false} DedupAppend(xs: seq<string>, ys: seq<string>)
    ensures |Dedup(xs)| <= |Dedup(xs + ys)| && Dedup(xs + ys)[..|Dedup(xs)|] == Dedup(xs)
    ensures forall i :: |Dedup(xs)| <= i < |Dedup(xs + ys)| ==> Dedup(xs + ys)[i] in ys && Dedup(xs + ys)[i] !in xs
    decreases |ys|
  {
    if ys == [] {
      assert xs + ys == xs;
    } else {
      var zs := ys[..|ys| - 1];
      DedupAppend(xs, zs);
      assert (xs + ys)[..|xs + ys| - 1] == xs + zs;
      assert (xs + ys)[|xs + ys| - 1] == ys[|ys| - 1];
      forall i | |Dedup(xs)| <= i < |Dedup(xs + ys)|
        ensures Dedup(xs + ys)[i] in ys && Dedup(xs + ys)[i] !in xs
      {
        if i < |Dedup(xs + zs)| {
          assert Dedup(xs + ys)[i] == Dedup(xs + zs)[i];
          assert Dedup(xs + zs)[i] in zs;
        } else {
          assert Dedup(xs + ys)[i] == ys[|ys| - 1];
          assert ys[|ys| - 1] !in Dedup(xs + zs);
        }
      }
    }
  }

  /** A list without repeats is its own de-duplication. */
  lemma {:induction false} DedupDistinct(xs: seq<string>)
    requires NoDuplicates(xs)
    ensures Dedup(xs) == xs
    decreases |xs|
  {
    if xs != [] {
      var init := xs[..|xs| - 1];
      DedupDistinct(init);
      assert xs[|xs| - 1] !in init;
      assert init + [xs[|xs| - 1]] == xs;
    }
  }

  /**
   * The hidden selectors are the distinct defaults and custom selectors;
   * the de-duplicated defaults come first and every later entry is a custom
   * selector that is not a default.
   */
  lemma HideSelectorsShape(custom: seq<string>)
    ensures NoDuplicates(HideSelectors(custom))
    ensures forall s :: s in HideSelectors(custom) <==> s in DefaultCookieSelectors || s in custom
    ensures var d := Dedup(DefaultCookieSelectors);
      |d| <= |HideSelectors(custom)| && HideSelectors(custom)[..|d|] == d
      && forall i :: |d| <= i < |HideSelectors(custom)| ==>
           HideSelectors(custom)[i] in custom && HideSelectors(custom)[i] !in DefaultCookieSelectors
  {
    DedupAppend(DefaultCookieSelectors, custom);
  }

  // ------------------------------------------------------ consistency mode

  const EdgeBand: real := 140.0
  const MaxBarHeight: real := 240.0

  /** The bounding box and position of an element, as `applyConsistencyMode` reads them. */
  datatype ElementBox = ElementBox(position: string, top: real, bottom: real, height: real)

  /**
   * Whether consistency mode hides an element: a fixed or sticky element at
   * most 240 px tall, within 140 px of the top or of the bottom of the viewport.
   */
  predicate ShouldHide(el: ElementBox, innerHeight: real) {
    (el.position == "fixed" || el.position == "sticky")
    && (el.top <= EdgeBand || innerHeight - el.bottom <= EdgeBand)
    && el.height <= MaxBarHeight
  }

  /**
   * An element in normal flow is never hidden, and a hidden element stays
   * hidden when it moves closer to an edge or gets shorter.
   */
  lemma ShouldHideMonotone(el: ElementBox, innerHeight: real, top: real, bottom: real, height: real)
    requires ShouldHide(el, innerHeight)
    requires top <= el.top && bottom >= el.bottom && height <= el.height
    ensures ShouldHide(ElementBox(el.position, top, bottom, height), innerHeight)
  {
  }

  lemma StaticNeverHidden(el: ElementBox, innerHeight: real)
    requires el.position != "fixed" && el.position != "sticky"
    ensures !ShouldHide(el, innerHeight)
  {
  }
}
