/**
 * The module-level browser and context cache of src/core/capture.js and the
 * control flow of `capturePage` around it.
 *
 * Playwright, sharp and the file system are not modelled: a launch, a context
 * creation and each page operation either succeed or throw, as an
 * environment given to `CapturePage` says. Promises are resolved at once: a
 * cache entry is the context itself, and the check-then-set of `getContext`
 * is one atomic step.
 */
module CaptureCache {
  import opened Wrappers
  import opened Text
  import opened Validation
  import opened Capture
  import Filename

  /** An opaque handle to a browser or a browser context. */
  type Handle = nat

  /**
   * `browserPromise` and `contextPromises`. The ghost counters record the
   * `newContext` calls since the map was last emptied, how many of them
   * failed, and the keys requested in that time.
   */
  class BrowserCache {
    var browser: Option<Handle>
    var contexts: map<string, Handle>
    ghost var creations: nat
    ghost var failures: nat
    ghost var requested: set<string>

    /**
     * Every cached context came from one successful creation; without
     * failures, the cached keys are exactly the keys requested.
     */
    ghost predicate Valid()
      reads this
    {
      && creations == |contexts.Keys| + failures
      && contexts.Keys <= requested
      && (failures == 0 ==> contexts.Keys == requested)
    }

    constructor()
      ensures Valid() && browser.None? && contexts == map[]
      ensures creations == 0 && failures == 0 && requested == {}
    {
      browser := None;
      contexts := map[];
      creations := 0;
      failures := 0;
      requested := {};
    }

    /** `resetBrowserState`: no browser and no cached context. */
    method ResetBrowserState()
      modifies this
      ensures Valid() && browser.None? && contexts == map[]
      ensures creations == 0 && failures == 0 && requested == {}
    {
      browser := None;
      contexts := map[];
      creations := 0;
      failures := 0;
      requested := {};
    }

    /**
     * `getBrowser`: the cached browser, or a launch when there is none. A
     * failed launch (None) resets the whole cache and throws (None result).
     */
    method GetBrowser(launch: Option<Handle>) returns (r: Option<Handle>)
      requires Valid()
      modifies this
      ensures Valid()
      ensures old(browser).Some? ==>
                r == old(browser) && browser == old(browser) && contexts == old(contexts)
                && creations == old(creations) && failures == old(failures) && requested == old(requested)
      ensures old(browser).None? && launch.Some? ==>
                r == launch && browser == launch && contexts == old(contexts)
                && creations == old(creations) && failures == old(failures) && requested == old(requested)
      ensures old(browser).None? && launch.None? ==>
                r.None? && browser.None? && contexts == map[] && creations == 0 && requested == {}
    {
      if browser.Some? {
        return browser;
      }
      browser := launch;
      if launch.None? {
        ResetBrowserState();
        return None;
      }
      return launch;
    }

    /**
     * `getContext` for the key `contextKeyForInput(input)`, which the caller
     * passes in: the cached context of the key, or a new one when the key is
     * absent. A failed creation (None) leaves the key absent, so a later
     * request tries again, and throws (None result).
     */
    method GetContext(key: string, created: Option<Handle>) returns (r: Option<Handle>)
      requires Valid()
      modifies this
      ensures Valid() && browser == old(browser)
      ensures
        && (key in old(contexts) ==>
              r == Some(old(contexts)[key]) && contexts == old(contexts)
              && creations == old(creations) && failures == old(failures) && requested == old(requested))
        && (key !in old(contexts) ==> creations == old(creations) + 1 && requested == old(requested) + {key})
        && (key !in old(contexts) && created.Some? ==>
              r == created && contexts == old(contexts)[key := created.value] && failures == old(failures))
        && (key !in old(contexts) && created.None? ==>
              r.None? && contexts == old(contexts) && failures == old(failures) + 1)
    {
      if key in contexts {
        return Some(contexts[key]);
      }
      creations := creations + 1;
      requested := requested + {key};
      if created.Some? {
        contexts := contexts[key := created.value];
        return created;
      }
      failures := failures + 1;
      return None;
    }

    /**
     * `closeCaptureBrowser`: the context map is emptied first, whatever the
     * individual closes do; the browser is then closed and the state reset.
     * When `browser.close` throws (`closeOk` false) the call throws (result
     * true) and the browser handle stays.
     */
    method CloseCaptureBrowser(closeOk: bool) returns (threw: bool)
      requires Valid()
      modifies this
      ensures Valid() && contexts == map[] && creations == 0 && requested == {}
      ensures threw <==> old(browser).Some? && !closeOk
      ensures browser == (if threw then old(browser) else None)
    {
      contexts := map[];
      creations := 0;
      failures := 0;
      requested := {};
      if browser.None? {
        return false;
      }
      if closeOk {
        ResetBrowserState();
        return false;
      }
      return true;
    }

    /**
     * `capturePage`. Errors of the input normalisation, of the output folder
     * creation and of the URL parse for the file name propagate as thrown;
     * the capture itself is `RunCapture`.
     */
    method CapturePage(payload: Payload, parse: string -> Option<ParsedUrl>, env: Env)
      returns (r: Result<Saved, Thrown>, ops: seq<PageOp>, caught: Option<Thrown>)
      requires Valid()
      modifies this
      ensures Valid()
      ensures caught.Some? ==> r == Err(ErrorObj("Error", FormatError(caught.value)))
      ensures caught.Some? && BrowserClosed(caught.value) ==> browser.None? && contexts == map[]
      ensures NewPage in ops <==> ClosePage in ops
      ensures NormalizeCaptureInput(payload, parse).Err? ==>
                r == Err(ErrorObj("Error", NormalizeCaptureInput(payload, parse).error)) && ops == []
                && caught.None? && browser == old(browser) && contexts == old(contexts)
      ensures NormalizeCaptureInput(payload, parse).Ok? && env.mkdirError.Some? ==>
                r == Err(env.mkdirError.value) && ops == []
                && caught.None? && browser == old(browser) && contexts == old(contexts)
      ensures r.Ok? ==>
                var input := NormalizeCaptureInput(payload, parse).value;
                caught.None?
                && r.value.outputPath == OutputPath(input, parse, env.isoTime)
                && ops == PageOps(input, r.value.outputPath) + [ClosePage]
                && r.value.contextKey == ContextKey(input)
                && r.value.message == "Saved " + FileName(input, parse, env.isoTime)
      ensures NormalizeCaptureInput(payload, parse).Ok? && env.mkdirError.None?
              && parse(NormalizeCaptureInput(payload, parse).value.url).None? ==>
                r == Err(ErrorObj("TypeError", "Invalid URL")) && ops == [] && caught.None?
      ensures NormalizeCaptureInput(payload, parse).Ok? && env.mkdirError.None?
              && parse(NormalizeCaptureInput(payload, parse).value.url).Some? ==>
                var input := NormalizeCaptureInput(payload, parse).value;
                var planned := PageOps(input, OutputPath(input, parse, env.isoTime));
                var k := FirstFailure(|planned|, env.fails);
                var launched := Launched(old(browser), env);
                var hasContext := Opened(old(contexts), ContextKey(input), env);
                && (!launched ==> caught == Some(env.launchError) && ops == [])
                && (launched && !hasContext ==> caught == Some(env.contextError) && ops == [])
                && (launched && hasContext && k < |planned| ==>
                      caught == Some(env.fails[k])
                      && ops == planned[..k] + (if k >= 2 then [ClosePage] else []))
                && (r.Ok? <==> launched && hasContext && k == |planned|)
      ensures r.Ok? ==>
                var input := NormalizeCaptureInput(payload, parse).value;
                browser == (if old(browser).Some? then old(browser) else env.launch)
                && ContextKey(input) in contexts
      ensures caught.Some? && !BrowserClosed(caught.value) && Launched(old(browser), env) ==>
                var input := NormalizeCaptureInput(payload, parse).value;
                browser == BrowserAfter(old(browser), env) && contexts == ContextsAfter(old(contexts), ContextKey(input), env)
    {
      var norm := NormalizeCaptureInput(payload, parse);
      if norm.Err? {
        return Err(ErrorObj("Error", norm.error)), [], None;
      }
      var input := norm.value;
      var planned := PageOps(input, OutputPath(input, parse, env.isoTime));
      assert planned[..0] == [];
      if env.mkdirError.Some? {
        return Err(env.mkdirError.value), [], None;
      }
      if parse(input.url).None? {
        return Err(ErrorObj("TypeError", "Invalid URL")), [], None;
      }
      var fileName := FileName(input, parse, env.isoTime);
      r, ops, caught := RunCapture(input, ContextKey(input), OutputPath(input, parse, env.isoTime),
                                   "Saved " + fileName, env);
    }

    /**
     * The `try`/`catch`/`finally` of `capturePage`: every error is rethrown
     * as an `Error` with `formatError`'s message, after a cache reset when it
     * reports a closed browser, and an opened page is closed on every path.
     */
    method RunCapture(input: CaptureInput, key: string, outputPath: string, message: string, env: Env)
      returns (r: Result<Saved, Thrown>, ops: seq<PageOp>, caught: Option<Thrown>)
      requires Valid()
      modifies this
      ensures Valid()
      ensures caught.Some? <==> r.Err?
      ensures caught.Some? ==> r == Err(ErrorObj("Error", FormatError(caught.value)))
      ensures caught.Some? && BrowserClosed(caught.value) ==> browser.None? && contexts == map[]
      ensures NewPage in ops <==> ClosePage in ops
      ensures r.Ok? ==>
                r.value == Saved(outputPath, env.pixelWidth, env.pixelHeight, message, key)
                && ops == PageOps(input, outputPath) + [ClosePage]
      ensures var planned := PageOps(input, outputPath);
              var k := FirstFailure(|planned|, env.fails);
              var launched := Launched(old(browser), env);
              var hasContext := Opened(old(contexts), key, env);
              && (!launched ==> caught == Some(env.launchError) && ops == [] && browser.None? && contexts == map[])
              && (launched && !hasContext ==> caught == Some(env.contextError) && ops == [] && key !in contexts)
              && (launched && hasContext && k < |planned| ==>
                    caught == Some(env.fails[k])
                    && ops == planned[..k] + (if k >= 2 then [ClosePage] else []))
              && (r.Ok? <==> launched && hasContext && k == |planned|)
      ensures r.Ok? ==>
                browser == (if old(browser).Some? then old(browser) else env.launch)
                && key in contexts
                && contexts[key] == (if key in old(contexts) then old(contexts)[key] else env.newContext.value)
      ensures Launched(old(browser), env) && (caught.None? || !BrowserClosed(caught.value)) ==>
                browser == BrowserAfter(old(browser), env) && contexts == ContextsAfter(old(contexts), key, env)
    {
      var planned := PageOps(input, outputPath);
      NoCloseInPlan(input, outputPath);
      var reached := FirstFailure(|planned|, env.fails);
      ops, caught := Attempt(input, key, outputPath, env);
      if caught.Some? {
        Recover(caught.value);
        r := Err(ErrorObj("Error", FormatError(caught.value)));
      } else {
        r := Ok(Saved(outputPath, env.pixelWidth, env.pixelHeight, message, key));
      }
      // finally
      if NewPage in ops {
        ops := ops + [ClosePage];
      }
    }

    /** The `catch` of `capturePage`: a closed-browser error, and only one, resets the cache. */
    method Recover(e: Thrown)
      requires Valid()
      modifies this
      ensures Valid()
      ensures BrowserClosed(e) ==> browser.None? && contexts == map[]
      ensures !BrowserClosed(e) ==> browser == old(browser) && contexts == old(contexts)
    {
      if BrowserClosed(e) {
        ResetBrowserState();
      }
    }

    /**
     * The body of the `try` of `capturePage`: the browser, the context for
     * the key, then the page operations up to the first one that throws.
     */
    method Attempt(input: CaptureInput, key: string, outputPath: string, env: Env)
      returns (ops: seq<PageOp>, caught: Option<Thrown>)
      requires Valid()
      modifies this
      ensures Valid()
      ensures var planned := PageOps(input, outputPath);
              var k := FirstFailure(|planned|, env.fails);
              var launched := Launched(old(browser), env);
              var hasContext := Opened(old(contexts), key, env);
              && (!launched ==> caught == Some(env.launchError) && ops == [] && browser.None? && contexts == map[])
              && (launched && !hasContext ==> caught == Some(env.contextError) && ops == [] && key !in contexts)
              && (launched ==>
                    browser == BrowserAfter(old(browser), env) && contexts == ContextsAfter(old(contexts), key, env))
              && (launched && hasContext ==>
                    ops == planned[..k]
                    && (k < |planned| ==> caught == Some(env.fails[k]))
                    && (k == |planned| ==> caught.None?)
                    && browser == (if old(browser).Some? then old(browser) else env.launch)
                    && key in contexts
                    && contexts[key] == (if key in old(contexts) then old(contexts)[key] else env.newContext.value))
    {
      var planned := PageOps(input, outputPath);
      ops := [];
      caught := None;
      var b := GetBrowser(env.launch);
      if b.None? {
        caught := Some(env.launchError);
        return;
      }
      var c := GetContext(key, env.newContext);
      if c.None? {
        caught := Some(env.contextError);
        return;
      }
      var reached := FirstFailure(|planned|, env.fails);
      ops := planned[..reached];
      if reached < |planned| {
        caught := Some(env.fails[reached]);
      }
    }
  }

  /** What the environment of one capture does. */
  datatype Env = Env(
    mkdirError: Option<Thrown>,     // `fs.mkdir` of the output folder
    launch: Option<Handle>,         // `chromium.launch`, None when it throws
    launchError: Thrown,
    newContext: Option<Handle>,     // `browser.newContext`, None when it throws
    contextError: Thrown,
    fails: map<nat, Thrown>,        // positions in the plan whose operation throws, and what
    pixelWidth: int,                // the image size sharp reports
    pixelHeight: int,
    isoTime: string)                // `new Date().toISOString()`

  /** The result of a successful capture (timings left out). */
  datatype Saved = Saved(outputPath: string, pixelWidth: int, pixelHeight: int, message: string, contextKey: string)

  /** The page operations inside the `try` of `capturePage`, and the closing one. */
  datatype PageOp =
    | ClearCookies
    | NewPage
    | Goto(url: string, waitUntil: string, timeoutMs: int)
    | Stabilise(step: Step)
    | ScreenshotJpeg(quality: int, fullPage: bool)
    | WriteFile(path: string)
    | ReadMetadata
    | ScreenshotPng(fullPage: bool)
    | EncodeWebp(quality: int, path: string)
    | ClosePage

  /** The extension of the output file. */
  function Extension(input: CaptureInput): string {
    if input.format == "webp" then "webp" else "jpg"
  }

  /** The output file name, from the host and path of the normalised URL. */
  function FileName(input: CaptureInput, parse: string -> Option<ParsedUrl>, isoTime: string): string {
    match parse(input.url)
    case None => ""
    case Some(u) =>
      Filename.BuildOutputFilename(u.hostname, u.pathname, input.width, input.scale, input.mode,
                                   Extension(input), input.appendTimestamp, isoTime)
  }

  /** `path.join(outputDir, outputFilename)`, without path normalisation. */
  function OutputPath(input: CaptureInput, parse: string -> Option<ParsedUrl>, isoTime: string): string {
    input.outputDir + "/" + FileName(input, parse, isoTime)
  }

  function StepOps(steps: seq<Step>): (r: seq<PageOp>)
    ensures |r| == |steps| && forall i :: 0 <= i < |steps| ==> r[i] == Stabilise(steps[i])
  {
    seq(|steps|, i requires 0 <= i < |steps| => Stabilise(steps[i]))
  }

  /** The screenshot and encoding: JPEG written as is, or PNG re-encoded as WebP. */
  function ShotOps(input: CaptureInput, outputPath: string): seq<PageOp> {
    var fullPage := input.mode == "full";
    if input.format == "jpg" then
      [ScreenshotJpeg(input.quality, fullPage), WriteFile(outputPath), ReadMetadata]
    else
      [ScreenshotPng(fullPage), EncodeWebp(input.quality, outputPath)]
  }

  /** The page operations of a capture, in the order `capturePage` awaits them. */
  function PageOps(input: CaptureInput, outputPath: string): (r: seq<PageOp>)
    ensures |r| >= 4 && r[0] == ClearCookies && r[1] == NewPage
  {
    [ClearCookies, NewPage, Goto(input.url, input.waitUntil, input.timeoutMs)]
    + StepOps(StabilisationPlan(input)) + ShotOps(input, outputPath)
  }

  /** The position of the first of `count` planned operations that throws, or `count` when none does. */
  function FirstFailure(count: nat, fails: map<nat, Thrown>): (k: nat)
    ensures k <= count
    ensures forall j :: 0 <= j < k ==> j !in fails
    ensures k < count ==> k in fails
  {
    FirstFailureFrom(0, count, fails)
  }

  /** The first failing position from `from` on, or `count` when none fails. */
  function FirstFailureFrom(from: nat, count: nat, fails: map<nat, Thrown>): (k: nat)
    requires from <= count
    ensures from <= k <= count
    ensures forall j :: from <= j < k ==> j !in fails
    ensures k < count ==> k in fails
    decreases count - from
  {
    if from == count || from in fails then from
    else FirstFailureFrom(from + 1, count, fails)
  }

  /** The error text a closed browser produces, which triggers the reset. */
  predicate BrowserClosed(e: Thrown) {
    var lowered := Lower(ThrownText(e));
    Contains(lowered, "browser has been closed")
    || Contains(lowered, "target page, context or browser has been closed")
  }

  /** `getBrowser` gives a browser: the cached one, or a launch that succeeds. */
  predicate Launched(cached: Option<Handle>, env: Env) {
    cached.Some? || env.launch.Some?
  }

  /** `getContext` gives a context for the key: the cached one, or a creation that succeeds. */
  predicate Opened(cached: map<string, Handle>, key: string, env: Env) {
    key in cached || env.newContext.Some?
  }

  /** The browser `getBrowser` leaves cached when it gives one. */
  function BrowserAfter(cached: Option<Handle>, env: Env): Option<Handle> {
    if cached.Some? then cached else env.launch
  }

  /** The context map `getContext` leaves behind once a browser is at hand. */
  function ContextsAfter(cached: map<string, Handle>, key: string, env: Env): map<string, Handle> {
    if key in cached || env.newContext.None? then cached else cached[key := env.newContext.value]
  }

  // ------------------------------------------------------------- lemmas

  /** Screenshots cover the full page exactly in full mode; JPEG uses the quality directly. */
  lemma ShotOpsByFormat(input: CaptureInput, outputPath: string)
    requires input.format == "jpg" || input.format == "webp"
    ensures var ops := ShotOps(input, outputPath);
      && (input.format == "jpg" ==>
            ops[0] == ScreenshotJpeg(input.quality, input.mode == "full") && ops[1] == WriteFile(outputPath))
      && (input.format == "webp" ==>
            ops[0] == ScreenshotPng(input.mode == "full") && ops[1] == EncodeWebp(input.quality, outputPath))
  {
  }

  /**
   * The page is navigated before the stabilisation plan runs, and the plan
   * runs in full before the screenshot.
   */
  lemma PageOpsOrder(input: CaptureInput, outputPath: string)
    ensures var ops := PageOps(input, outputPath);
      var plan := StabilisationPlan(input);
      && ops[2] == Goto(input.url, input.waitUntil, input.timeoutMs)
      && ops[3..3 + |plan|] == StepOps(plan)
      && ops[3 + |plan|..] == ShotOps(input, outputPath)
  {
  }

  /** Closing is planned nowhere: it only comes from the `finally`. */
  lemma NoCloseInPlan(input: CaptureInput, outputPath: string)
    ensures ClosePage !in PageOps(input, outputPath)
  {
    var ops := PageOps(input, outputPath);
    var plan := StabilisationPlan(input);
    forall i | 0 <= i < |ops| ensures ops[i] != ClosePage {
      if 3 <= i < 3 + |plan| {
        assert ops[i] == StepOps(plan)[i - 3];
      }
    }
  }

  /** The file name a capture reports never contains '/' when the URL parsed. */
  lemma SavedNameHasNoSlash(input: CaptureInput, parse: string -> Option<ParsedUrl>, isoTime: string)
    requires WellFormedInput(input) && parse(input.url).Some? && '/' !in isoTime
    ensures '/' !in FileName(input, parse, isoTime)
  {
    var u := parse(input.url).value;
    Filename.NoPathSeparator(u.hostname, u.pathname, input.width, input.scale, input.mode,
                             Extension(input), input.appendTimestamp, isoTime);
  }
}
