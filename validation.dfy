/**
 * Normalisation of a capture request (src/core/validation.js): the URL rule,
 * the enum fallbacks, the integer defaults and clamps, the cookie selector
 * list and the order in which the errors are raised.
 *
 * The request arrives untyped. Each field is given here in the form the
 * source reads it: `Number.parseInt(String(v), 10)` becomes a `NumField`,
 * `Number(v)` an optional integer, `Boolean(v)` a bool, and the WHATWG URL
 * parser a function parameter.
 */
module Validation {
  import opened Wrappers
  import opened Text

  // ------------------------------------------------------------------ URLs

  /** What the URL parser reports about a string it accepts. */
  datatype ParsedUrl = ParsedUrl(protocol: string, href: string, hostname: string, pathname: string)

  /** `/^https?:\/\//i`: the string starts with http:// or https://, in any case. */
  predicate HasHttpScheme(s: string) {
    IsPrefix("http://", Lower(s)) || IsPrefix("https://", Lower(s))
  }

  /** The string handed to the parser: the input itself, or with 'https://' in front. */
  function WithScheme(input: string): (r: string)
    ensures HasHttpScheme(r)
    ensures HasHttpScheme(input) ==> r == input
    ensures !HasHttpScheme(input) ==> r == "https://" + input
  {
    if HasHttpScheme(input) then input
    else
      LowerAppend("https://", input);
      assert Lower("https://") == "https://";
      "https://" + input
  }

  /** Adding the scheme twice changes nothing. */
  lemma WithSchemeIdempotent(input: string)
    ensures WithScheme(WithScheme(input)) == WithScheme(input)
  {
  }

  const UrlMissing := "Please enter a URL."
  const UrlInvalid := "The URL is invalid. Example: https://example.com"
  const UrlNotHttp := "Only HTTP and HTTPS URLs are supported."

  predicate IsHttpProtocol(p: string) {
    p == "http:" || p == "https:"
  }

  /**
   * `normalizeUrl`. `rawUrl` is None when the value is not a string; `parse`
   * is the URL parser, None where it throws.
   */
  function NormalizeUrl(rawUrl: Option<string>, parse: string -> Option<ParsedUrl>): (r: Result<string, string>)
    ensures r.Err? && r.error == UrlMissing <==> rawUrl.None? || AllSpace(rawUrl.value)
    ensures rawUrl.Some? && !AllSpace(rawUrl.value) ==>
              var candidate := WithScheme(Trim(rawUrl.value));
              match parse(candidate)
              case None => r == Err(UrlInvalid)
              case Some(u) => r == (if IsHttpProtocol(u.protocol) then Ok(u.href) else Err(UrlNotHttp))
  {
    match rawUrl
    case None => Err(UrlMissing)
    case Some(raw) =>
      TrimEmptyIff(raw);
      if Trim(raw) == [] then Err(UrlMissing)
      else
        match parse(WithScheme(Trim(raw)))
        case None => Err(UrlInvalid)
        case Some(u) => if IsHttpProtocol(u.protocol) then Ok(u.href) else Err(UrlNotHttp)
  }

  /**
   * A parser that reports the scheme the string starts with never makes
   * `NormalizeUrl` reject the protocol: the prefix rule guarantees http(s).
   */
  lemma ProtocolErrorUnreachable(rawUrl: Option<string>, parse: string -> Option<ParsedUrl>)
    requires forall s :: parse(s).Some? && HasHttpScheme(s) ==>
               parse(s).value.protocol == (if IsPrefix("https://", Lower(s)) then "https:" else "http:")
    ensures NormalizeUrl(rawUrl, parse) != Err(UrlNotHttp)
  {
  }

  // -------------------------------------------------------- numeric fields

  /**
   * A field read with `Number.parseInt(String(v), 10)`: `Missing` when `v` is
   * null or undefined (where `??` supplies the default), otherwise the parse
   * result, None for NaN.
   */
  datatype NumField = Missing | Given(parsed: Option<int>)

  /** The value parsed after `v ?? fallback`. */
  function WithDefault(f: NumField, fallback: int): (r: Option<int>)
    ensures f.Missing? ==> r == Some(fallback)
    ensures f.Given? ==> r == f.parsed
  {
    match f
    case Missing => Some(fallback)
    case Given(p) => p
  }

  /** The value parsed from `v` itself: a missing field reads as the string 'undefined', which is NaN. */
  function Parsed(f: NumField): (r: Option<int>)
    ensures f.Missing? ==> r.None?
    ensures f.Given? ==> r == f.parsed
  {
    if f.Missing? then None else f.parsed
  }

  /** `parsed || fallback`: NaN and 0 are falsy. */
  function OrElse(p: Option<int>, fallback: int): (r: int)
    ensures p.Some? && p.value != 0 ==> r == p.value
    ensures p.None? || p.value == 0 ==> r == fallback
  {
    if p.Some? && p.value != 0 then p.value else fallback
  }

  function Max(a: int, b: int): (r: int)
    ensures r >= a && r >= b && (r == a || r == b)
  {
    if a >= b then a else b
  }

  function Min(a: int, b: int): (r: int)
    ensures r <= a && r <= b && (r == a || r == b)
  {
    if a <= b then a else b
  }

  /** `Math.min(hi, Math.max(lo, v))`. */
  function Clamp(v: int, lo: int, hi: int): (r: int)
    requires lo <= hi
    ensures lo <= r <= hi
    ensures lo <= v <= hi ==> r == v
    ensures v < lo ==> r == lo
    ensures v > hi ==> r == hi
  {
    Min(hi, Max(lo, v))
  }

  function PositiveMessage(field: string): string {
    field + " must be a positive number."
  }

  /** `toPositiveInt(value, field)` of the validation module. */
  function ToPositiveInt(value: Option<int>, field: string): (r: Result<int, string>)
    ensures r.Ok? <==> value.Some? && value.value > 0
    ensures r.Ok? ==> r.value == value.value
    ensures r.Err? ==> r.error == PositiveMessage(field)
  {
    if value.Some? && value.value > 0 then Ok(value.value) else Err(PositiveMessage(field))
  }

  /** `quality`: 90 when absent, unparsable or zero, otherwise clamped to [60, 100]. */
  function Quality(f: NumField): (r: int)
    ensures 60 <= r <= 100
    ensures f.Missing? || f.parsed.None? || f.parsed == Some(0) ==> r == 90
    ensures f.Given? && f.parsed.Some? && f.parsed.value != 0 ==> r == Clamp(f.parsed.value, 60, 100)
  {
    Clamp(OrElse(WithDefault(f, 90), 90), 60, 100)
  }

  /** `delayMs`: never negative, 0 by default. */
  function DelayMs(f: NumField): (r: int)
    ensures r >= 0
    ensures f.Missing? || f.parsed.None? ==> r == 0
    ensures f.Given? && f.parsed.Some? ==> r == Max(0, f.parsed.value)
  {
    Max(0, OrElse(WithDefault(f, 0), 0))
  }

  /** `consistencyDelayMs`: 800 when absent, but 0 when given and unparsable. */
  function ConsistencyDelayMs(f: NumField): (r: int)
    ensures r >= 0
    ensures f.Missing? ==> r == 800
    ensures f.Given? && f.parsed.None? ==> r == 0
    ensures f.Given? && f.parsed.Some? ==> r == Max(0, f.parsed.value)
  {
    Max(0, OrElse(WithDefault(f, 800), 0))
  }

  /** `queueConcurrency`: in [1, 3], 2 when absent, unparsable or zero. */
  function QueueConcurrency(f: NumField): (r: int)
    ensures 1 <= r <= 3
    ensures f.Missing? || f.parsed.None? || f.parsed == Some(0) ==> r == 2
    ensures f.Given? && f.parsed.Some? && f.parsed.value != 0 ==> r == Clamp(f.parsed.value, 1, 3)
  {
    Clamp(OrElse(WithDefault(f, 2), 2), 1, 3)
  }

  // ---------------------------------------------------------- enum fields

  function Mode(v: Option<string>): (r: string)
    ensures r == "full" || r == "fold"
    ensures r == "full" <==> v == Some("full")
  {
    if v == Some("full") then "full" else "fold"
  }

  function Format(v: Option<string>): (r: string)
    ensures r == "webp" || r == "jpg"
    ensures r == "webp" <==> v == Some("webp")
  {
    if v == Some("webp") then "webp" else "jpg"
  }

  function WaitUntil(v: Option<string>): (r: string)
    ensures r == "networkidle" || r == "domcontentloaded"
    ensures r == "networkidle" <==> v == Some("networkidle")
  {
    if v == Some("networkidle") then "networkidle" else "domcontentloaded"
  }

  /** `Number(payload.scale)` as an integer when it is one. */
  function Scale(v: Option<int>): (r: int)
    ensures r in {1, 2, 3}
    ensures v.Some? && v.value in {1, 2, 3} ==> r == v.value
    ensures !(v.Some? && v.value in {1, 2, 3}) ==> r == 2
  {
    if v.Some? && v.value in {1, 2, 3} then v.value else 2
  }

  predicate IsCookieHandling(s: string) {
    s == "off" || s == "hide" || s == "accept"
  }

  function CookieHandling(v: Option<string>): (r: string)
    ensures IsCookieHandling(r)
    ensures v.Some? && IsCookieHandling(v.value) ==> r == v.value
    ensures !(v.Some? && IsCookieHandling(v.value)) ==> r == "hide"
  {
    if v.Some? && IsCookieHandling(v.value) then v.value else "hide"
  }

  predicate IsProfile(s: string) {
    s == "fast" || s == "balanced" || s == "ultra"
  }

  function Profile(v: Option<string>): (r: string)
    ensures IsProfile(r)
    ensures v.Some? && IsProfile(v.value) ==> r == v.value
    ensures !(v.Some? && IsProfile(v.value)) ==> r == "balanced"
  {
    if v.Some? && IsProfile(v.value) then v.value else "balanced"
  }

  // ------------------------------------------------------ cookie selectors

  /** `cookieSelectors` as the source inspects it. */
  datatype SelectorsField =
    | SelList(items: seq<string>)   // an array, each element already passed through String()
    | SelText(text: string)         // a string
    | SelOther                      // anything else

  /** Trim every element. */
  function TrimAll(xs: seq<string>): (r: seq<string>)
    ensures |r| == |xs| && forall i :: 0 <= i < |xs| ==> r[i] == Trim(xs[i])
  {
    seq(|xs|, i requires 0 <= i < |xs| => Trim(xs[i]))
  }

  /** `filter(Boolean)` on strings: drop the empty ones, keep the order. */
  function NonEmpty(xs: seq<string>): (r: seq<string>)
    ensures forall i :: 0 <= i < |r| ==> r[i] != ""
    ensures forall x :: x in r <==> x in xs && x != ""
    ensures |r| <= |xs|
  {
    if xs == [] then []
    else if xs[0] == "" then NonEmpty(xs[1..])
    else
      var rest := NonEmpty(xs[1..]);
      assert forall x :: x in xs <==> x == xs[0] || x in xs[1..];
      [xs[0]] + rest
  }

  /** `filter(Boolean)` distributes over concatenation: it keeps the order of what it keeps. */
  lemma {:induction false} NonEmptyAppend(a: seq<string>, b: seq<string>)
    ensures NonEmpty(a + b) == NonEmpty(a) + NonEmpty(b)
    decreases |a|
  {
    if a != [] {
      assert (a + b)[0] == a[0];
      assert (a + b)[1..] == a[1..] + b;
      NonEmptyAppend(a[1..], b);
    } else {
      assert a + b == b;
    }
  }

  /** On one string, `filter(Boolean)` keeps it exactly when it is non-empty. */
  lemma NonEmptySingle(x: string)
    ensures NonEmpty([x]) == (if x == "" then [] else [x])
  {
    assert [x][1..] == [];
  }

  /** A list without empty strings passes `filter(Boolean)` unchanged. */
  lemma {:induction false} NonEmptyKeeps(xs: seq<string>)
    requires forall i :: 0 <= i < |xs| ==> xs[i] != ""
    ensures NonEmpty(xs) == xs
    decreases |xs|
  {
    if xs != [] {
      NonEmptyKeeps(xs[1..]);
    }
  }

  /** Drop one trailing carriage return. */
  function DropCr(s: string): string {
    if s != [] && s[|s| - 1] == '\r' then s[..|s| - 1] else s
  }

  /** The lines of a text split at `\r?\n`: a '\r' before a line break belongs to the break. */
  function Lines(s: string): (r: seq<string>)
    ensures |r| >= 1
    ensures forall i :: 0 <= i < |r| ==> '\n' !in r[i]
  {
    var parts := Split(s, '\n');
    seq(|parts|, i requires 0 <= i < |parts| => if i < |parts| - 1 then DropCr(parts[i]) else parts[i])
  }

  /** A text without a line break is one line. */
  lemma LinesNoBreak(s: string)
    requires '\n' !in s
    ensures Lines(s) == [s]
  {
  }

  /** The first line break ends the first line; a '\r' just before it belongs to the break. */
  lemma LinesBreak(p: string, rest: string)
    requires '\n' !in p
    ensures Lines(p + "\n" + rest) == [DropCr(p)] + Lines(rest)
  {
    SplitCons(p, rest, '\n');
    var parts := Split(rest, '\n');
    var l := Lines(p + "\n" + rest);
    assert |l| == 1 + |parts|;
    forall i | 1 <= i < |l| ensures l[i] == Lines(rest)[i - 1] {
      assert ([p] + parts)[i] == parts[i - 1];
    }
  }

  /** A lone '\n' and a "\r\n" both separate two lines. */
  lemma LinesCrLf(p: string, rest: string)
    requires '\n' !in p
    ensures p == [] || p[|p| - 1] != '\r' ==> Lines(p + "\n" + rest) == [p] + Lines(rest)
    ensures Lines(p + "\r\n" + rest) == [p] + Lines(rest)
  {
    LinesBreak(p, rest);
    assert p + "\r\n" + rest == (p + "\r") + "\n" + rest;
    assert '\n' !in p + "\r";
    LinesBreak(p + "\r", rest);
    assert DropCr(p + "\r") == p;
  }

  /** Split every piece at ','. */
  function SplitEach(xs: seq<string>, sep: char): (r: seq<string>)
    ensures |r| >= |xs|
    ensures forall i :: 0 <= i < |r| ==> sep !in r[i]
  {
    if xs == [] then [] else Split(xs[0], sep) + SplitEach(xs[1..], sep)
  }

  /** Splitting every piece of a concatenation concatenates the splits, in order. */
  lemma {:induction false} SplitEachAppend(a: seq<string>, b: seq<string>, sep: char)
    ensures SplitEach(a + b, sep) == SplitEach(a, sep) + SplitEach(b, sep)
    decreases |a|
  {
    if a != [] {
      assert (a + b)[0] == a[0];
      assert (a + b)[1..] == a[1..] + b;
      SplitEachAppend(a[1..], b, sep);
    } else {
      assert a + b == b;
    }
  }

  /** On one piece, `SplitEach` is `split`. */
  lemma SplitEachSingle(x: string, sep: char)
    ensures SplitEach([x], sep) == Split(x, sep)
  {
    assert [x][1..] == [];
  }

  /** `text.split(/\r?\n|,/)`. */
  function SelectorPieces(text: string): (r: seq<string>)
    ensures |r| >= 1
    ensures forall i :: 0 <= i < |r| ==> ',' !in r[i]
  {
    SplitEach(Lines(text), ',')
  }

  /** Text without a line break splits at its commas only. */
  lemma SelectorPiecesLine(s: string)
    requires '\n' !in s
    ensures SelectorPieces(s) == Split(s, ',')
  {
    LinesNoBreak(s);
    SplitEachSingle(s, ',');
  }

  /** A line break, with a '\r' before it, separates the comma pieces of the line before it from the rest. */
  lemma SelectorPiecesBreak(p: string, rest: string)
    requires '\n' !in p
    ensures SelectorPieces(p + "\n" + rest) == Split(DropCr(p), ',') + SelectorPieces(rest)
  {
    LinesBreak(p, rest);
    SplitEachAppend([DropCr(p)], Lines(rest), ',');
    SplitEachSingle(DropCr(p), ',');
  }

  /** Pieces without a comma or a line break, joined with commas, split back into themselves. */
  lemma SelectorPiecesJoin(ps: seq<string>)
    requires |ps| >= 1
    requires forall i :: 0 <= i < |ps| ==> ',' !in ps[i] && '\n' !in ps[i]
    ensures SelectorPieces(Join(ps, ',')) == ps
  {
    JoinAvoids(ps, ',', '\n');
    SelectorPiecesLine(Join(ps, ','));
    SplitJoin(ps, ',');
  }

  /** A line's pieces joined with commas give the line back. */
  lemma JoinSelectorPieces(s: string)
    requires '\n' !in s
    ensures Join(SelectorPieces(s), ',') == s
  {
    SelectorPiecesLine(s);
    JoinSplit(s, ',');
  }

  /** The `cookieSelectors` of the normalised input. */
  function CookieSelectors(f: SelectorsField): (r: seq<string>)
    ensures forall i :: 0 <= i < |r| ==> r[i] != "" && Trim(r[i]) == r[i]
    ensures f.SelOther? ==> r == []
    ensures f.SelList? ==> forall x :: x in r <==> x != "" && x in TrimAll(f.items)
    ensures f.SelText? ==> forall x :: x in r <==> x != "" && x in TrimAll(SelectorPieces(f.text))
  {
    var r := match f
      case SelList(items) => NonEmpty(TrimAll(items))
      case SelText(text) => NonEmpty(TrimAll(SelectorPieces(text)))
      case SelOther => [];
    assert forall i :: 0 <= i < |r| ==> exists s :: r[i] == Trim(s) by {
      forall i | 0 <= i < |r| ensures exists s :: r[i] == Trim(s) {
        var xs := if f.SelList? then TrimAll(f.items) else TrimAll(SelectorPieces(f.text));
        assert r[i] in xs;
        var k :| 0 <= k < |xs| && xs[k] == r[i];
      }
    }
    forall i | 0 <= i < |r| ensures Trim(r[i]) == r[i] {
      var s :| r[i] == Trim(s);
      TrimIdempotent(s);
    }
    r
  }

  /** Selector text reads as the list of its pieces. */
  lemma CookieSelectorsText(text: string)
    ensures CookieSelectors(SelText(text)) == CookieSelectors(SelList(SelectorPieces(text)))
  {
  }

  /** The selectors of a list are read element by element, in order, repetitions kept. */
  lemma CookieSelectorsAppend(a: seq<string>, b: seq<string>)
    ensures CookieSelectors(SelList(a + b)) == CookieSelectors(SelList(a)) + CookieSelectors(SelList(b))
  {
    ListSelectors(a + b);
    ListSelectors(a);
    ListSelectors(b);
    TrimAllAppend(a, b);
    NonEmptyAppend(TrimAll(a), TrimAll(b));
  }

  lemma ListSelectors(xs: seq<string>)
    ensures CookieSelectors(SelList(xs)) == NonEmpty(TrimAll(xs))
  {
  }

  lemma TrimAllAppend(a: seq<string>, b: seq<string>)
    ensures TrimAll(a + b) == TrimAll(a) + TrimAll(b)
  {
  }

  /** One element gives its trimmed text, or nothing when that is empty. */
  lemma CookieSelectorsSingle(x: string)
    ensures CookieSelectors(SelList([x])) == (if Trim(x) == "" then [] else [Trim(x)])
  {
    assert TrimAll([x]) == [Trim(x)];
    NonEmptySingle(Trim(x));
  }

  /**
   * Non-empty trimmed selectors without a comma or a line break, written
   * comma-separated, are read back as they were.
   */
  lemma CookieSelectorsJoin(ps: seq<string>)
    requires |ps| >= 1
    requires forall i :: 0 <= i < |ps| ==> ps[i] != "" && Trim(ps[i]) == ps[i] && ',' !in ps[i] && '\n' !in ps[i]
    ensures CookieSelectors(SelText(Join(ps, ','))) == ps
  {
    SelectorPiecesJoin(ps);
    assert TrimAll(ps) == ps;
    NonEmptyKeeps(ps);
  }

  /** Selectors given as text never contain the separators ',' or a line break. */
  lemma {:induction false} SelectorTextHasNoSeparators(text: string)
    ensures forall x :: x in CookieSelectors(SelText(text)) ==> ',' !in x
  {
    var pieces := TrimAll(SelectorPieces(text));
    forall i | 0 <= i < |pieces| ensures ',' !in pieces[i] {
      TrimKeepsOut(SelectorPieces(text)[i], ',');
    }
  }

  lemma TrimKeepsOut(s: string, c: char)
    requires c !in s
    ensures c !in Trim(s)
  {
    var t := TrimStart(s);
    assert t == s[|s| - |t|..];
    assert Trim(s) == t[..|Trim(s)|];
  }

  // ------------------------------------------------------------- the request

  /** The untyped request of a capture, field by field as read. */
  datatype Payload = Payload(
    url: Option<string>,
    mode: Option<string>,
    format: Option<string>,
    waitUntil: Option<string>,
    scale: Option<int>,
    cookieHandling: Option<string>,
    profile: Option<string>,
    width: NumField,
    height: NumField,
    timeoutMs: NumField,
    delayMs: NumField,
    quality: NumField,
    queueConcurrency: NumField,
    consistencyDelayMs: NumField,
    suppressAnimations: bool,
    consistencyMode: bool,
    appendTimestamp: bool,
    cookieSelectors: SelectorsField,
    outputDir: Option<string>)   // None when falsy, otherwise String(outputDir)

  /** The normalised capture input. */
  datatype CaptureInput = CaptureInput(
    url: string,
    mode: string,
    format: string,
    waitUntil: string,
    profile: string,
    scale: int,
    width: int,
    height: int,
    quality: int,
    timeoutMs: int,
    delayMs: int,
    cookieHandling: string,
    cookieSelectors: seq<string>,
    suppressAnimations: bool,
    consistencyMode: bool,
    consistencyDelayMs: int,
    queueConcurrency: int,
    appendTimestamp: bool,
    outputDir: string)

  const OutputDirMissing := "Please select an output folder."

  predicate OutputDirGiven(outputDir: Option<string>) {
    outputDir.Some? && !AllSpace(outputDir.value)
  }

  /** Everything a normalised input guarantees, whatever the request held. */
  predicate WellFormedInput(c: CaptureInput) {
    && (c.mode == "full" || c.mode == "fold")
    && (c.format == "webp" || c.format == "jpg")
    && (c.waitUntil == "networkidle" || c.waitUntil == "domcontentloaded")
    && IsProfile(c.profile)
    && c.scale in {1, 2, 3}
    && c.width > 0 && c.height > 0 && c.timeoutMs > 0
    && 60 <= c.quality <= 100
    && c.delayMs >= 0
    && IsCookieHandling(c.cookieHandling)
    && (forall i :: 0 <= i < |c.cookieSelectors| ==> c.cookieSelectors[i] != "")
    && c.consistencyDelayMs >= 0
    && 1 <= c.queueConcurrency <= 3
    && !AllSpace(c.outputDir)
  }

  /** `normalizeCaptureInput`, raising its first error as `Err`. */
  function NormalizeCaptureInput(p: Payload, parse: string -> Option<ParsedUrl>): (r: Result<CaptureInput, string>)
    ensures r.Ok? ==> WellFormedInput(r.value)
    ensures r.Ok? ==> NormalizeUrl(p.url, parse) == Ok(r.value.url)
  {
    var width := ToPositiveInt(Parsed(p.width), "Width");
    var height := ToPositiveInt(Parsed(p.height), "Height");
    var timeout := ToPositiveInt(WithDefault(p.timeoutMs, 30000), "Timeout");
    if width.Err? then Err(width.error)
    else if height.Err? then Err(height.error)
    else if timeout.Err? then Err(timeout.error)
    else if !OutputDirGiven(p.outputDir) then Err(OutputDirMissing)
    else
      match NormalizeUrl(p.url, parse)
      case Err(e) => Err(e)
      case Ok(url) =>
        Ok(CaptureInput(
          url := url,
          mode := Mode(p.mode),
          format := Format(p.format),
          waitUntil := WaitUntil(p.waitUntil),
          profile := Profile(p.profile),
          scale := Scale(p.scale),
          width := width.value,
          height := height.value,
          quality := Quality(p.quality),
          timeoutMs := timeout.value,
          delayMs := DelayMs(p.delayMs),
          cookieHandling := CookieHandling(p.cookieHandling),
          cookieSelectors := CookieSelectors(p.cookieSelectors),
          suppressAnimations := p.suppressAnimations,
          consistencyMode := p.consistencyMode,
          consistencyDelayMs := ConsistencyDelayMs(p.consistencyDelayMs),
          queueConcurrency := QueueConcurrency(p.queueConcurrency),
          appendTimestamp := p.appendTimestamp,
          outputDir := p.outputDir.value))
  }

  /** A missing field reads as `String(undefined)`, which does not parse. */
  predicate PositiveField(f: NumField) {
    f.Given? && f.parsed.Some? && f.parsed.value > 0
  }

  predicate TimeoutValid(f: NumField) {
    f.Missing? || PositiveField(f)
  }

  predicate NumbersValid(p: Payload) {
    PositiveField(p.width) && PositiveField(p.height) && TimeoutValid(p.timeoutMs)
  }

  /**
   * The errors come in a fixed order: width, height, timeout, output folder,
   * then the URL; the request is accepted exactly when none applies.
   */
  lemma ErrorPrecedence(p: Payload, parse: string -> Option<ParsedUrl>)
    ensures !PositiveField(p.width) ==>
              NormalizeCaptureInput(p, parse) == Err(PositiveMessage("Width"))
    ensures PositiveField(p.width) && !PositiveField(p.height) ==>
              NormalizeCaptureInput(p, parse) == Err(PositiveMessage("Height"))
    ensures PositiveField(p.width) && PositiveField(p.height) && !TimeoutValid(p.timeoutMs) ==>
              NormalizeCaptureInput(p, parse) == Err(PositiveMessage("Timeout"))
    ensures NumbersValid(p) && !OutputDirGiven(p.outputDir) ==>
              NormalizeCaptureInput(p, parse) == Err(OutputDirMissing)
    ensures NumbersValid(p) && OutputDirGiven(p.outputDir) && NormalizeUrl(p.url, parse).Err? ==>
              NormalizeCaptureInput(p, parse) == Err(NormalizeUrl(p.url, parse).error)
    ensures NormalizeCaptureInput(p, parse).Ok? <==>
              NumbersValid(p) && OutputDirGiven(p.outputDir) && NormalizeUrl(p.url, parse).Ok?
  {
  }

  /** An accepted request keeps its width, height and flags, and a missing timeout becomes 30000. */
  lemma AcceptedFields(p: Payload, parse: string -> Option<ParsedUrl>)
    requires NormalizeCaptureInput(p, parse).Ok?
    ensures var c := NormalizeCaptureInput(p, parse).value;
      && c.width == p.width.parsed.value && c.height == p.height.parsed.value
      && (p.timeoutMs.Missing? ==> c.timeoutMs == 30000)
      && (p.timeoutMs.Given? ==> c.timeoutMs == p.timeoutMs.parsed.value)
      && c.suppressAnimations == p.suppressAnimations && c.consistencyMode == p.consistencyMode
      && c.appendTimestamp == p.appendTimestamp && c.outputDir == p.outputDir.value
  {
  }
}
