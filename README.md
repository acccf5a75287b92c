# PixelPort, modelled in Dafny

PixelPort is a desktop screenshot tool built on Electron. It captures a web
page, or a queue of pages at one or several sizes, as a JPEG or WebP file.
It can also cut a capture into a tile bundle that a companion Figma plugin
imports as a frame of image rectangles. This project models the core of
PixelPort as Dafny functions, methods and classes, and proves what the code
promises about them.

The code is JavaScript, so a few conventions run through the whole model:

- A missing or untyped value is an `Option` or a `Js.Value`: undefined,
  null, boolean, integer number, string, array or object.
- An exception is the `Err` of a `Result`.
- External services are parameters: the URL parser, `Number`, `parseInt`,
  `JSON.parse`, Playwright, sharp, the file system and Figma.

Each file models one source file or one part of it:

| file | models |
|---|---|
| `wrappers.dfy`, `text.dfy`, `js.dfy` | support modules: `Option`/`Result`; trimming of ASCII white space plus U+00A0 and U+FEFF, ASCII lowercasing, splitting and joining; JavaScript values, property reads, `String(v)` and truthiness |
| `validation.dfy` | `src/core/validation.js`: URL normalisation, the enum and integer defaults, the clamps, the cookie selector list, and the order in which errors are raised |
| `filename.dfy` | `src/core/filename.js`: the path slug, the safe domain, the ISO timestamp part and the output file name |
| `capture.dfy` | the pure parts of `src/core/capture.js`: error classification, the context key, the order of the stabilisation steps, the cookie-accept click scan, de-duplication of banner selectors, and the consistency-mode hiding rule |
| `capture_pool.dfy` | the browser and context cache of `src/core/capture.js`, as a class, and the control flow of `capturePage`: normalise, create the folder, acquire, run the page operations, catch, close the page |
| `batch.dfy` | the `capture-batch-request` handler of `src/main/index.js`: the worker pool that claims indices, records results by index and reports progress after each completion |
| `figma_bundle.dfy` | `src/core/figmaBundle.js`: the tile grid, the export loops and the manifest |
| `preferences.dfy` | `src/main/preferences.js`: the defaults, merging stored values over them, saving and reading back |
| `renderer.dfy` | `src/renderer/renderer.js`: presets, profiles, URL and queue parsing, multi-size jobs, the progress clamp, form validation, writing profiles and stored preferences into the form (a class for the renderer's state) |
| `plugin_ui.dfy` | `figma-plugin/pixelport-importer/ui.js`: reading a selected bundle folder |
| `plugin_code.dfy` | `figma-plugin/pixelport-importer/code.js`: the tile map and the import into a frame on the current page (classes for the frame and the page) |

The scheduling in the batch handler is modelled as atomic steps. Each step
completes one in-flight job, chosen arbitrarily, so every proved property
holds for every completion order. The ghost counters of the context cache
record how many contexts were created. They give the "one creation per key"
property: with no failed creation, the cached keys are exactly the keys
requested, and each creation produced one entry.

Three behaviours of the code that are easy to misread:

- Batch captures run `min(queueConcurrency, max(1, total))` workers
  (src/main/index.js:198). This is not `min(concurrency, jobCount)`: an
  empty batch still starts one worker, which claims nothing.
- The accept click scans `a[role="button"]` elements as well as buttons and
  `[role="button"]` elements (src/core/capture.js:121-125).
- The browser and the contexts are cached as promises. The code stores the
  promise before awaiting it, so a cache lookup and the store after it form
  one atomic step, and the model treats them as one.

## Model

| member | source | states |
|---|---|---|
| Validation.WithScheme | src/core/validation.js:6-7 | the string handed to the URL parser always starts with http:// or https:// in any case; an input that already does is kept, any other gets "https://" in front |
| Validation.WithSchemeIdempotent | src/core/validation.js:7 | adding the scheme to a string that already has one changes nothing |
| Validation.NormalizeUrl | src/core/validation.js:1-21 | "Please enter a URL." exactly when the value is not a string or is blank; otherwise the parser decides: a throw gives the invalid-URL error, a non-http(s) protocol the protocol error, and anything else the parser's href |
| Validation.ProtocolErrorUnreachable | src/core/validation.js:7-18 | with a parser that reports the scheme a string starts with, the protocol error can never be raised, because the prefix rule already guarantees http(s) |
| Validation.Clamp | src/core/validation.js:44-48 | the result lies in [lo, hi]: the value itself when inside, lo below, hi above |
| Validation.ToPositiveInt | src/core/validation.js:23-30 | accepted exactly when the parse is a positive integer, which is returned unchanged; otherwise the error "<field> must be a positive number." |
| Validation.Quality | src/core/validation.js:44 | always between 60 and 100; a missing, NaN or zero quality gives 90, and any other parsed value is clamped to 60..100 |
| Validation.DelayMs | src/core/validation.js:43 | never negative; missing or NaN gives 0, any other value is floored at 0 |
| Validation.ConsistencyDelayMs | src/core/validation.js:48 | never negative; missing gives 800, NaN gives 0, any other value is floored at 0 |
| Validation.QueueConcurrency | src/core/validation.js:46 | always 1 to 3; missing, NaN or zero gives 2, any other value is clamped to [1, 3] |
| Validation.Mode | src/core/validation.js:33 | "full" exactly when the request says "full", otherwise "fold" |
| Validation.Format | src/core/validation.js:34 | "webp" exactly when the request says "webp", otherwise "jpg" |
| Validation.WaitUntil | src/core/validation.js:35 | "networkidle" exactly when requested, otherwise "domcontentloaded" |
| Validation.Scale | src/core/validation.js:36 | a scale of 1, 2 or 3 is kept; anything else becomes 2 |
| Validation.CookieHandling | src/core/validation.js:37 | one of off/hide/accept is kept; anything else becomes "hide" |
| Validation.Profile | src/core/validation.js:38 | one of the three profiles (fast, balanced, ultra) is kept; anything else becomes "balanced" |
| Validation.NonEmpty | src/core/validation.js:53-57 | `filter(Boolean)`: keeps exactly the non-empty strings and never grows the list |
| Validation.NonEmptyAppend | src/core/validation.js:53-57 | filtering a concatenation is concatenating the filtered parts, so the kept strings stay in order and repeated ones stay repeated |
| Validation.NonEmptySingle | src/core/validation.js:53-57 | one string is kept exactly when it is non-empty |
| Validation.NonEmptyKeeps | src/core/validation.js:53-57 | a list without empty strings passes unchanged |
| Validation.Lines | src/core/validation.js:55 | splits on newlines: at least one piece, and no piece holds a newline |
| Validation.LinesNoBreak | src/core/validation.js:55 | a text without a line break is one line, itself |
| Validation.LinesBreak | src/core/validation.js:55 | the first line break ends the first line, minus one '\r' just before the break, and the rest of the text gives the remaining lines |
| Validation.LinesCrLf | src/core/validation.js:55 | both "\n" and "\r\n" separate a line from the next, as the pattern `\r?\n` does |
| Validation.SplitEach | src/core/validation.js:55 | splits every line on the separator; at least one piece per line, and no piece holds the separator |
| Validation.SplitEachAppend | src/core/validation.js:55 | the pieces of a concatenation of lines are the pieces of each part, in order |
| Validation.SplitEachSingle | src/core/validation.js:55 | the pieces of one line are that line's `split` |
| Validation.SelectorPieces | src/core/validation.js:55 | splitting the selector text on newlines and commas leaves at least one piece, none with a comma |
| Validation.SelectorPiecesLine | src/core/validation.js:55 | a text without a line break splits at its commas only |
| Validation.SelectorPiecesBreak | src/core/validation.js:55 | a line break, with any '\r' before it, separates the comma pieces of the first line from the pieces of the rest, in order |
| Validation.SelectorPiecesJoin | src/core/validation.js:55 | pieces without a comma or a line break, joined with commas, split back into exactly those pieces |
| Validation.JoinSelectorPieces | src/core/validation.js:55 | the pieces of a line, joined with commas, give the line back |
| Validation.CookieSelectors | src/core/validation.js:50-58 | every selector is non-empty and already trimmed; an array gives exactly its non-empty trimmed items, a string exactly its non-empty trimmed pieces, anything else no selectors |
| Validation.CookieSelectorsText | src/core/validation.js:50-58 | a string gives the selectors of the list of its pieces |
| Validation.CookieSelectorsAppend | src/core/validation.js:51-52 | an array is read element by element: the selectors of a concatenation are the concatenated selectors, order and repetitions kept |
| Validation.CookieSelectorsSingle | src/core/validation.js:51-52 | one element gives its trimmed text, or nothing when that is empty |
| Validation.CookieSelectorsJoin | src/core/validation.js:53-57 | non-empty trimmed selectors without a comma or a line break, written comma-separated, are read back exactly |
| Validation.SelectorTextHasNoSeparators | src/core/validation.js:55 | no selector read from text contains a comma |
| Validation.TrimKeepsOut | src/core/validation.js:56 | trimming never introduces a character the string did not hold |
| Validation.NormalizeCaptureInput | src/core/validation.js:32-85 | an accepted request yields a well-formed input: every enum in range, positive sizes and timeout, quality 60 to 100, non-negative delays, concurrency 1 to 3, non-empty selectors, a non-blank folder, and the URL `normalizeUrl` returns |
| Validation.ErrorPrecedence | src/core/validation.js:40-65 | errors come in a fixed order (width, height, timeout, output folder, URL), each with its own message; the request is accepted exactly when none applies |
| Validation.AcceptedFields | src/core/validation.js:40-84 | an accepted request keeps its width, height, flags and folder; a missing timeout becomes 30000 ms |
| Filename.DropLeading | src/core/filename.js:7-9 | removes the whole leading run of the character: the result is a suffix of the input that does not start with it, and every dropped character is it |
| Filename.DropTrailing | src/core/filename.js:7-9 | removes the whole trailing run of the character: the result is a prefix of the input that does not end with it, and every dropped character is it |
| Filename.StripEdges | src/core/filename.js:9 | the result is a slice of the input with the character at neither end, and everything cut off on either side is that character |
| Filename.DropNonAlnum | src/core/filename.js:8 | a leading run of non-alphanumerics is removed; the letters and digits are all kept |
| Filename.CollapseRuns | src/core/filename.js:8 | the result holds only letters, digits and single dashes; a non-empty input gives a non-empty result, and an input that starts alphanumeric gives a result that does too |
| Filename.SlugWellFormed | src/core/filename.js:1-11 | a slug is "home", or lowercase letters and digits joined by single dashes with no dash at either end |
| Filename.CollapseRunsFixed | src/core/filename.js:8 | collapsing a string that is already dash-separated alphanumerics changes nothing |
| Filename.SlugIdempotent | src/core/filename.js:1-11 | slugifying a slug gives it back unchanged |
| Filename.CollapseKeepsAlnums | src/core/filename.js:8 | collapsing keeps every letter and digit in order |
| Filename.StripEdgesKeepsAlnums | src/core/filename.js:7-9 | stripping '/' or '-' from the edges loses no letter or digit |
| Filename.SlugContent | src/core/filename.js:1-11 | a path with no letter or digit gives "home"; otherwise the slug holds exactly the path's letters and digits, lowercased and in order |
| Filename.CollapseSeparator | src/core/filename.js:8 | a run of other characters between a word of letters and digits and what follows becomes exactly one '-' |
| Filename.SlugTwoSegments | src/core/filename.js:1-11 | a path "/<word>/<word>/" of two alphanumeric words gives both words lowercased and joined by one '-' (so "/Pricing/Enterprise/" gives "pricing-enterprise") |
| Filename.SafeDomainShape | src/core/filename.js:13-15 | the safe domain is lowercase letters, digits and single dashes, and keeps the host's letters and digits in order, lowercased |
| Filename.TimestampPart | src/core/filename.js:17-19 | same length as the ISO time, every ':' and '.' becomes '-' and every other character is kept |
| Filename.BuildOutputFilename | src/core/filename.js:21-36 | the name is domain_slug_<width>px_<scale>x_<mode>.<extension>, with "_" and the timestamp before the dot exactly when a timestamp is asked for |
| Filename.TimestampInsertedBeforeExtension | src/core/filename.js:33-35 | the timestamped name is the plain name with "_<timestamp>" inserted just before the dot of the extension |
| Filename.StemSplits | src/core/filename.js:33 | splitting the stem on '_' gives back its five parts: domain, slug, width, scale and mode |
| Filename.StemInjective | src/core/filename.js:33 | two captures with the same stem have the same domain, slug, width, scale and mode |
| Filename.NoPathSeparator | src/core/filename.js:21-36 | the file name never contains '/', so it cannot leave the output folder |
| Capture.FormatError | src/core/capture.js:39-63 | a thrown non-Error gives "Unknown capture error."; an Error gives one of the four category messages or its own message |
| Capture.FirstRule | src/core/capture.js:39-63 | a rule that matches while no earlier rule does gives its message; when no rule matches, the fallback |
| Capture.FormatErrorIsFirstRule | src/core/capture.js:44-62 | classification tries the rules in order (timeout, DNS, connection refused, crash) on the lowercased message, and falls back to the original message |
| Capture.TimeoutFirst | src/core/capture.js:44-47 | any message that mentions "timeout", in any case, is reported as a navigation timeout |
| Capture.UnmatchedKeepsMessage | src/core/capture.js:62 | a message that no rule matches is reported unchanged |
| Capture.KeyFieldsInjective | src/core/capture.js:65-73 | two joined context keys are equal only when profile, width, height, scale and reduced motion all agree |
| Capture.ContextKeyIff | src/core/capture.js:65-73 | two captures share a browser context exactly when their profile, width, height, scale and reduced-motion flag agree |
| Capture.NormalisedProfileHasNoBar | src/core/validation.js:38 | a normalised profile never contains the vertical bar that separates the key's fields |
| Capture.EffectiveDelay | src/core/capture.js:308-315 | the wait is the larger of the delay and, in consistency mode, the consistency delay |
| Capture.StabilisationPlan | src/core/capture.js:290-315 | waiting for fonts is always part of the stabilisation |
| Capture.PlanOrder | src/core/capture.js:290-315 | the steps run in order: suppress animations if asked, the cookie steps, consistency mode if on, wait for fonts, then a wait exactly when the effective delay is positive |
| Capture.CookieStepsByMode | src/core/capture.js:294-300 | accept clicks, waits 300 ms, then hides; hide only hides; off does nothing; only accept ever clicks |
| Capture.TextMatchIsContains | src/core/capture.js:105-108 | a label matches exactly when the trimmed, lowercased text contains it; the equality test adds nothing |
| Capture.MaybeClick | src/core/capture.js:110-119 | the clicked candidate is the first whose text matches; nothing is clicked exactly when no candidate matches |
| Capture.ClickCookieAccept | src/core/capture.js:103-129 | scans buttons, then `a[role="button"]`, then `[role="button"]` elements, and clicks the first that carries an accept label |
| Capture.ElementTextStable | src/core/capture.js:105-114 | trimming and lowercasing the element text before `textMatch` does so again changes no match |
| Capture.SameTextMatch | src/core/capture.js:105-108 | two texts that agree once trimmed and lowercased match the same labels |
| Capture.LowerTrim | src/core/capture.js:106 | lowercasing and trimming commute |
| Capture.Dedup | src/core/capture.js:135 | `new Set` keeps each element once and loses none |
| Capture.DedupAppend | src/core/capture.js:132-135 | de-duplicating a longer list only appends new elements from the appended part |
| Capture.DedupDistinct | src/core/capture.js:135 | a list without duplicates is kept as is |
| Capture.HideSelectorsShape | src/core/capture.js:131-146 | the hidden selectors are the defaults first, then the custom ones not already present, each once |
| Capture.ShouldHideMonotone | src/core/capture.js:163-173 | an element that is hidden stays hidden when it moves nearer an edge or gets shorter |
| Capture.StaticNeverHidden | src/core/capture.js:163-166 | an element that is neither fixed nor sticky is never hidden |
| CaptureCache.BrowserCache.constructor | src/core/capture.js:9-10 | a cache starts with no browser and no contexts |
| CaptureCache.BrowserCache.ResetBrowserState | src/core/capture.js:75-78 | forgets the browser and every context |
| CaptureCache.BrowserCache.GetBrowser | src/core/capture.js:182-193 | returns the cached browser when there is one; otherwise launches once and caches the result; a failed launch clears the cache so a later call retries |
| CaptureCache.BrowserCache.GetContext | src/core/capture.js:195-216 | a cached key returns its context without a new creation; an unseen key makes exactly one creation, cached on success and removed again on failure |
| CaptureCache.BrowserCache.CloseCaptureBrowser | src/core/capture.js:222-242 | always empties the contexts; drops the browser unless closing it threw |
| CaptureCache.BrowserCache.CapturePage | src/core/capture.js:244-388 | a rejected request, a failed mkdir or a URL that does not parse raises before any page operation; otherwise the launch error (no cached browser and a failed launch), the context error (an uncached key and a failed creation) or the error of the first planned operation that throws is classified and raised, after the operations before it and a page close once the page was opened; the capture succeeds exactly when none of these fails, after every planned operation and the close, with the output path, "Saved <name>" and the context key, and leaves a browser and the key cached; an error that does not report a closed browser, once a browser was at hand, leaves the cached or launched browser and the old contexts plus any newly created one |
| CaptureCache.BrowserCache.Attempt | src/core/capture.js:270-357 | the try body up to the first throw: with no cached browser and a failed launch it throws the launch error with nothing done and the cache reset; with an uncached key and a failed creation it throws the context error with nothing done and the key uncached; once a browser is at hand it leaves the cached or launched browser and the old contexts plus any newly created one; otherwise it performs the planned operations before the first that throws and throws that one's error, or performs them all and throws nothing, leaving the browser and the key's context cached |
| CaptureCache.BrowserCache.RunCapture | src/core/capture.js:271-387 | the try/catch/finally body: a failed launch raises the launch error and resets the cache; a failed context creation raises the context error and leaves the key uncached; otherwise the first throwing operation's error is raised after the operations before it, with the page closed once it was opened; success comes exactly when nothing throws and caches the browser and the key's context; every raised error carries formatError's message, after a cache reset when it reports a closed browser; on success and on every other error after a browser was at hand, the browser and the contexts stay as the try body left them |
| CaptureCache.BrowserCache.Recover | src/core/capture.js:376-380 | the cache is reset exactly when the lowered error text reports a closed browser; any other error leaves the browser and the contexts as they were |
| CaptureCache.PageOps | src/core/capture.js:272-357 | every capture first clears cookies and then opens a page |
| CaptureCache.FirstFailure | src/core/capture.js:271-375 | the position in the plan of the first operation that throws: every earlier one succeeds |
| CaptureCache.ShotOpsByFormat | src/core/capture.js:324-357 | jpg takes a JPEG screenshot at the quality and writes it; webp takes a PNG screenshot and encodes it to WebP at the quality |
| CaptureCache.PageOpsOrder | src/core/capture.js:282-357 | goto with the wait mode and timeout, then the stabilisation operations, then the screenshot operations |
| CaptureCache.NoCloseInPlan | src/core/capture.js:383-387 | the page is closed only by the finally block, never inside the planned operations |
| CaptureCache.SavedNameHasNoSlash | src/core/capture.js:251-260 | the saved file name never contains '/' |
| Batch.NormalizeQueueConcurrency | src/main/index.js:33-40 | always 1 to 3: NaN gives 2, values below 1 give 1, values above 3 give 3, and 1 to 3 are kept |
| Batch.QueueConcurrencyAgreement | src/main/index.js:33-40 | the main process and the capture validation agree on the concurrency for every parse except 0, which the main process reads as 1 and the validation as the default 2 |
| Batch.WorkItems | src/main/index.js:109-119 | a non-empty jobs array is used as it is; otherwise there is one `{url}` item per URL, in order |
| Batch.JobPayloadFields | src/main/index.js:112-152 | the capture payload has the item's URL, the item's own fields over the batch settings, and appendTimestamp true unless the item says otherwise |
| Batch.SpreadUrl | src/main/index.js:148-152 | writing `url` last overrides only `url` |
| Batch.EntryFor | src/main/index.js:162-183 | a result entry carries the item's URL, its size label and the duration; it succeeds exactly when the capture did, with the capture's output path and pixel size, and a failed one carries the caught message |
| Batch.RoundDivNearest | src/main/index.js:192 | `Math.round(a / b)` is the integer nearest a/b, with ties rounded up |
| Batch.CompleteKeepsClaims | src/main/index.js:134-141 | a worker that finishes claims the next index; claimed indices stay distinct, and the finished ones are exactly those below the claim counter that no worker holds |
| Batch.CompleteKeepsRecords | src/main/index.js:157-194 | one completion puts its entry at its own index, keeps the maximum duration, extends the completion order, and sends a progress message that counts it |
| Batch.RunningTotalsStep | src/main/index.js:157-192 | after each completion, the success count and the average in the progress message are those of the jobs completed so far |
| Batch.ShapeStep | src/main/index.js:134-141 | a completion keeps the pool's shape: one slot per worker, a claim counter equal to workers plus completions, in-flight jobs equal to the claimed indices below the total minus the completed ones, and distinct claims |
| Batch.RecordStep | src/main/index.js:157-194 | a completion updates the counters and the maximum by its own outcome and duration, and appends one progress message that counts it |
| Batch.RecordRunning | src/main/index.js:157-192 | after a completion, the pool's success count and total duration are the sums over the completion order, and so are those of its progress message |
| Batch.StartWorkers | src/main/index.js:134-198 | the first claims give worker k the index k while k is below the total; min(workers, total) workers have a job |
| Batch.CountFirstClaims | src/main/index.js:198 | the first claims keep min(workers, total) jobs in flight |
| Batch.CompleteOne | src/main/index.js:134-194 | completing any in-flight job keeps the pool invariant and counts one more completion |
| Batch.InitialPool | src/main/index.js:125-132 | the pool invariant holds at the start, with zero counters and no results |
| Batch.FinalPool | src/main/index.js:198 | when no job is in flight, every job is done, each entry sits at its own index, and the count and total duration are those of all jobs |
| Batch.InFlightBound | src/main/index.js:134-198 | at most `workers` jobs, and at most the number of items, are ever in flight |
| Batch.RunWorkers | src/main/index.js:134-198 | whatever the completion order: results in submission order, counts and durations summed, the maximum duration over all jobs, each job completed once, one progress message per completion with the running totals |
| Batch.RunBatch | src/main/index.js:108-215 | `min(queueConcurrency, max(1, total))` workers, between 1 and 3 and exactly 1 for an empty batch; the batch summary: every job's entry at its own index, success and failure counts that add up to the total, the rounded average and the maximum duration, the batch id or "default", the normalised concurrency, and one progress message per job in completion order |
| Batch.HandleBatch | src/main/index.js:143-145 | the request rejects exactly when a work item is null or undefined, because its url is read outside the capture's catch; otherwise it resolves with every job's entry and the counts |
| Batch.UrlBatchHasNoNullItem | src/main/index.js:117-119 | a batch given as plain URLs has no null work item, so it never rejects that way |
| FigmaBundle.ToPositiveInt | src/core/figmaBundle.js:7-14 | a positive parse is kept; anything else gives the fallback, so a positive fallback always gives a positive result |
| FigmaBundle.TileFilePathInjective | src/core/figmaBundle.js:16-18 | two tiles have the same file path only when row and column agree |
| FigmaBundle.CeilDivBounds | src/core/figmaBundle.js:53-54 | `Math.ceil(a / b)` tiles of size b cover a, and one fewer would not |
| FigmaBundle.TileInside | src/core/figmaBundle.js:59-62 | every tile of the grid lies inside the image and is at most one tile size in each direction |
| FigmaBundle.PixelOwner | src/core/figmaBundle.js:57-62 | every pixel of the image is covered by the tile at (y / size, x / size) and by no other tile |
| FigmaBundle.RowPositions | src/core/figmaBundle.js:58 | one position per column |
| FigmaBundle.PositionsIndex | src/core/figmaBundle.js:57-58 | the tiles come in row-major order: position j is (j / columns, j % columns) |
| FigmaBundle.GridCount | src/core/figmaBundle.js:53-58 | the grid has rows times columns tiles |
| FigmaBundle.GridRowMajor | src/core/figmaBundle.js:57-62 | tile j of the grid is the tile of row j / columns and column j % columns |
| FigmaBundle.GridInside | src/core/figmaBundle.js:59-62 | every tile of the grid lies inside the image |
| FigmaBundle.GridCellCovers | src/core/figmaBundle.js:57-62 | a pixel is covered by grid tile j exactly when j is the tile of the pixel's row and column |
| FigmaBundle.GridPartition | src/core/figmaBundle.js:57-62 | every pixel is covered by exactly one tile, the one at index (y / size) * columns + x / size |
| FigmaBundle.SpanSumCeil | src/core/figmaBundle.js:53-62 | the tile widths of a row, the last one clipped, add up to the image width |
| FigmaBundle.GridArea | src/core/figmaBundle.js:53-82 | the tile areas add up to width times height, so the tiles cover the image with no overlap |
| FigmaBundle.NamedEntriesDistinct | src/core/figmaBundle.js:63-80 | tiles at different positions have different file names |
| FigmaBundle.CutRow | src/core/figmaBundle.js:58-81 | one row is cut column by column; it stops at the first column whose write throws, with no failing column before it, and reports that error |
| FigmaBundle.CutTiles | src/core/figmaBundle.js:57-82 | without write errors, the manifest lists exactly the grid in row-major order; otherwise it raises the error of a failing tile such that no tile before it in row-major order fails, after all the tiles before it |
| FigmaBundle.ExportFigmaBundle | src/core/figmaBundle.js:20-121 | a missing image, a failed access and a missing output folder each raise their error; past them, ExportInto's outcome holds for the image path, the output root and the parsed tile size |
| FigmaBundle.ExportInto | src/core/figmaBundle.js:34-121 | the output folder creation, the metadata read, the zero-or-missing dimensions check, the bundle folder reset, the first failing tile write in row-major order and the manifest write each raise their own error in that order; the export succeeds exactly when none fails, with the bundle described under WriteBundle |
| FigmaBundle.WriteBundle | src/core/figmaBundle.js:53-120 | the first failing tile or the manifest write raises; on success the bundle has the tile size, the image size, rows and columns by ceiling division, rows times columns tiles, a manifest of version 1 with the source file name, size and lowercased format (png by default), the frame "<name> (PixelPort)" and its size, the tile size, rows, columns, every grid tile named by its position, the export time, and the bundle and manifest paths |
| Preferences.Normalize | src/main/preferences.js:36-45 | a non-object gives the defaults; an object gives the defaults with its own properties written over them, and no other key |
| Preferences.NormalizeIdempotent | src/main/preferences.js:36-45 | normalising normalised preferences gives them back unchanged |
| Preferences.NormalizeDefaults | src/main/preferences.js:5-45 | the defaults normalise to themselves |
| Preferences.GetPreferences | src/main/preferences.js:47-54 | a file that cannot be read or parsed gives the defaults; otherwise the normalised file contents, which hold every default key |
| Preferences.SavePreferences | src/main/preferences.js:56-60 | writes the normalised object, and returns it unless the write threw |
| Preferences.Serialized | src/main/preferences.js:58 | `JSON.stringify` drops exactly the properties whose value is undefined |
| Preferences.SaveThenGet | src/main/preferences.js:47-60 | reading back what was saved gives every saved field that had a value; a field saved as undefined reads back as its default |
| Preferences.SaveThenGetExact | src/main/preferences.js:47-60 | when nothing saved is undefined, reading back gives exactly what was saved |
| Renderer.SizedIff | src/renderer/renderer.js:1-8 | every preset except the custom one, at index 0, has a width and a height |
| Renderer.ProfileOf | src/renderer/renderer.js:10-41 | exactly the three profile ids have settings, and every one fits the form's controls |
| Renderer.NormalizeUrlInput | src/renderer/renderer.js:162-169 | blank input gives ''; otherwise the trimmed input, kept when it has an http(s) scheme and given "https://" otherwise |
| Renderer.NormalizeUrlInputIdempotent | src/renderer/renderer.js:162-169 | normalising a normalised URL changes nothing |
| Renderer.QueueLinesShape | src/renderer/renderer.js:176-181 | every queue line is non-empty, trimmed and holds no line break |
| Renderer.NormalizeLine | src/renderer/renderer.js:176-182 | a queue line only gets the scheme added, and becomes a queue URL |
| Renderer.ParseQueueUrls | src/renderer/renderer.js:176-182 | one URL per non-blank line, in order: the trimmed line with an http(s) scheme |
| Renderer.ParseQueueUrlsJoin | src/renderer/renderer.js:176-182 | parsing queue URLs joined by newlines gives them back |
| Renderer.ParseQueueUrlsStable | src/renderer/renderer.js:176-182 | parsing the joined result of a parse changes nothing |
| Renderer.SelectedPresetIds | src/renderer/renderer.js:184-189 | exactly the ids of the checked inputs whose value parses to a preset index above 0 |
| Renderer.SelectedPresetIdsAppend | src/renderer/renderer.js:184-189 | the ids of a concatenation of boxes are the concatenated ids, in box order and with repetitions |
| Renderer.SelectedPresetIdsSingle | src/renderer/renderer.js:184-189 | one box gives its id when it picks one, and nothing otherwise |
| Renderer.CheckChosen | src/renderer/renderer.js:503-513 | an input is checked exactly when its value parses to one of the chosen ids; values are untouched |
| Renderer.ChosenIdsJoin | src/renderer/renderer.js:503-513 | the ids saved as a comma-separated list read back as the same set |
| Renderer.PresetSelectionRestored | src/renderer/renderer.js:399-513 | saving the selected size presets and loading them again checks exactly the inputs whose id was selected |
| Renderer.CheckChosenIdempotent | src/renderer/renderer.js:503-513 | checking the same ids twice is the same as once |
| Renderer.BuildMultiSizeJobs | src/renderer/renderer.js:445-469 | computes `MultiSizeJobs`: one plain job per URL when no preset is chosen, otherwise the URL-by-preset product |
| Renderer.BuildJobsFor | src/renderer/renderer.js:452-467 | the jobs of one URL, one per sized preset, in preset order |
| Renderer.JobsForSized | src/renderer/renderer.js:452-467 | with every preset sized, a URL gets exactly one job per preset, in order |
| Renderer.CrossJobsIndex | src/renderer/renderer.js:445-469 | the job list is URL-major: the job of URL u and preset p sits at index u * presets + p |
| Renderer.MultiSizeJobsPlain | src/renderer/renderer.js:446-448 | with no preset selected each URL is one job without a size |
| Renderer.SelectedJobs | src/renderer/renderer.js:445-469 | with selected presets there are URLs times presets jobs, the one at u * presets + p being URL u at preset p |
| Renderer.SizedJobLabel | src/renderer/renderer.js:455-465 | a sized job has the preset's width and height and the label "<width>x<height>" |
| Renderer.Round | src/renderer/renderer.js:119 | `Math.round` gives the integer nearest its argument, with ties rounded up |
| Renderer.SetProgress | src/renderer/renderer.js:118-122 | the progress shown is always between 0 and 100 |
| Renderer.SetProgressNearest | src/renderer/renderer.js:118-122 | inside the range the value is rounded to nearest; below it gives 0, above it 100 |
| Renderer.SetProgressMonotone | src/renderer/renderer.js:118-122 | a larger value never shows less progress |
| Renderer.MessageText | src/renderer/renderer.js:283-343 | every validation message has visible text |
| Renderer.BlankIff | src/renderer/renderer.js:151-156 | an error node is blank once trimmed exactly when no message was set on it |
| Renderer.FirstRejected | src/renderer/renderer.js:306-316 | the first queued URL the parser rejects, or none exactly when all are accepted |
| Renderer.SingleUrlErrorIff | src/renderer/renderer.js:283-297 | the single URL check sets no message exactly when the normalised URL is non-empty and an accepted http(s) URL |
| Renderer.QueueErrorIff | src/renderer/renderer.js:299-317 | the queue check sets no message exactly when at least one URL is queued and every one is accepted |
| Renderer.ValidateStateRules | src/renderer/renderer.js:278-345 | the form is valid exactly when the URL rule holds, a size is chosen in multi-size mode, width is at least 320, height at least 320 in fold mode, timeout at least 1000 ms, and a folder is chosen |
| Renderer.ValidateStateBlank | src/renderer/renderer.js:278-345 | `validateState` passes exactly when no error was set |
| Renderer.NoErrorsRules | src/renderer/renderer.js:283-343 | no error is set exactly when all six rules hold |
| Renderer.ActiveProfileFor | src/renderer/renderer.js:367-372 | a known profile id is kept; anything else becomes "balanced" |
| Renderer.ProfileFormValid | src/renderer/renderer.js:374-391 | applying a profile to a valid form leaves it valid |
| Renderer.ProfileReadBack | src/renderer/renderer.js:374-391 | the controls written from a profile read back as the profile's numbers, and its timeout passes the 1000 ms rule |
| Renderer.StrPref | src/renderer/renderer.js:491-497 | only stored strings are written into text controls |
| Renderer.BoolPref | src/renderer/renderer.js:499-500 | only stored booleans are written into the multi-size and consistency check boxes |
| Renderer.OneOf | src/renderer/renderer.js:531-536 | a stored string is written into a select control only when it is one of its options |
| Renderer.NumIn | src/renderer/renderer.js:515-541 | a stored number is written only when it lies in the control's range |
| Renderer.NumFrom | src/renderer/renderer.js:519-553 | a stored number is written only when it meets the control's minimum |
| Renderer.CoercedIn | src/renderer/renderer.js:560-565 | a stored value that converts to one of the allowed numbers is written as `String(v)` |
| Renderer.ReadSettings | src/renderer/renderer.js:478-481 | a stored value that is not an object has no fields |
| Renderer.PreferredProfile | src/renderer/renderer.js:483-485 | a stored profile string is applied as an active profile; without one the current profile stays |
| Renderer.PreferredOutputDir | src/renderer/renderer.js:578-582 | a stored non-blank folder is taken; otherwise the current folder stays |
| Renderer.TargetWhitelisted | src/renderer/renderer.js:487-516 | a stored capture type of "single" or "queue" and a stored preset index in range are written to their controls; any other stored value leaves the control as it was |
| Renderer.SizeDimensions | src/renderer/renderer.js:519-525 | a stored number is written to width and height as its decimal text; anything else leaves them as they were |
| Renderer.SizeGuarded | src/renderer/renderer.js:527-542 | a scale in 1..3 and a quality in 60..100 (with its label) are written as their text, and a stored mode or format on its list is written; any other stored value leaves the control as it was |
| Renderer.SizeWhitelisted | src/renderer/renderer.js:527-542 | after the size step the scale, quality, mode and format controls each either keep their value or show one of their own options, and the quality label then shows the quality |
| Renderer.TimingWhitelisted | src/renderer/renderer.js:544-566 | a wait mode on its list, a stored number for the timeout, a non-negative number for the delay, and a consistency delay or concurrency whose Number() is allowed (written as its String()) are applied; any other stored value leaves the control as it was |
| Renderer.PreferencesWhitelisted | src/renderer/renderer.js:478-584 | after every step of the preferences, each guarded control shows the stored value when it passes that control's guard and keeps its own value otherwise, so every select stays on one of its options |
| Renderer.PreferredFormValid | src/renderer/renderer.js:478-584 | loading preferences into a valid form leaves it valid |
| Renderer.PreferencesAbsentKept | src/renderer/renderer.js:478-584 | a control whose preference is absent keeps its value; `Boolean(undefined)` clears the animation and timestamp check boxes |
| Renderer.PreferredFormIdempotent | src/renderer/renderer.js:478-584 | loading the same preferences twice is the same as loading them once |
| Renderer.RendererState.constructor | src/renderer/renderer.js:887-889 | start-up selects preset 1, makes "balanced" the active profile, and has no folder |
| Renderer.RendererState.SetActiveProfile | src/renderer/renderer.js:367-372 | the active profile becomes the id when it is known and "balanced" otherwise; nothing else changes |
| Renderer.RendererState.ApplyProfile | src/renderer/renderer.js:374-391 | an unknown id changes nothing; a known one becomes the active profile and writes its settings into the form, which stays valid |
| Renderer.RendererState.ApplyPreferences | src/renderer/renderer.js:478-584 | a non-object changes nothing; an object sets the profile, the folder and the form as the whitelists say |
| PluginUi.NormalizeRelativePath | figma-plugin/pixelport-importer/ui.js:12-18 | a path without a folder becomes '' |
| PluginUi.NormalizeDropsFolder | figma-plugin/pixelport-importer/ui.js:12-18 | the relative path is the selected path after its first folder |
| PluginUi.Entries | figma-plugin/pixelport-importer/ui.js:21-25 | one entry per selected file, in order, with its relative path |
| PluginUi.FindManifest | figma-plugin/pixelport-importer/ui.js:27-30 | the first entry named manifest.json, or none exactly when there is no such entry |
| PluginUi.PathMapLookup | figma-plugin/pixelport-importer/ui.js:41-44 | a path is in the map exactly when some entry has it, and it maps to the last such entry's file |
| PluginUi.TileNames | figma-plugin/pixelport-importer/ui.js:46-50 | the names of the tile entries that have a string file name |
| PluginUi.FilesOf | figma-plugin/pixelport-importer/ui.js:52-61 | each required tile paired with the bytes of its file, in order |
| PluginUi.CollectTilesSpec | figma-plugin/pixelport-importer/ui.js:46-62 | collection succeeds exactly when every named tile file was selected, and gives their bytes in order; otherwise "Missing tile file: <name>" for the first one missing |
| PluginUi.BundleSelectionSpec | figma-plugin/pixelport-importer/ui.js:20-68 | no manifest, a parse failure and no tile entries each raise their error; a success holds the parsed manifest and every required tile file in order |
| PluginUi.ReadBundleSelection | figma-plugin/pixelport-importer/ui.js:20-68 | computes `BundleSelection` with its loops |
| PluginUi.BuildPathMap | figma-plugin/pixelport-importer/ui.js:41-44 | computes the path map, later entries overriding earlier ones |
| PluginUi.CollectTileFiles | figma-plugin/pixelport-importer/ui.js:46-62 | computes the tile collection, stopping at the first missing file |
| PluginCode.TileMapLookup | figma-plugin/pixelport-importer/code.js:3-12 | a file name is in the tile map exactly when some usable item has it, and maps to the last such item's bytes |
| PluginCode.BuildTileMap | figma-plugin/pixelport-importer/code.js:3-12 | computes the tile map, skipping items without a string name or bytes |
| PluginCode.ManifestError | figma-plugin/pixelport-importer/code.js:18-32 | a non-object manifest is missing; a missing frame, or one whose width or height is not a finite number, has an invalid size; past those, the manifest is rejected for no tile entries exactly when its tile list is empty, and accepted otherwise |
| PluginCode.PlaceTilesSpec | figma-plugin/pixelport-importer/code.js:41-64 | placing succeeds exactly when every tile succeeds, one rectangle per tile in order; otherwise the first failing tile's error |
| PluginCode.ImportPlanSpec | figma-plugin/pixelport-importer/code.js:14-64 | the three manifest errors in order, the frame-size error for a missing frame and for a width or height that is not a number; on success the frame gets the manifest's name or "PixelPort Capture", its size, and one rectangle per tile |
| PluginCode.PlaceTileSpec | figma-plugin/pixelport-importer/code.js:42-63 | a tile is placed exactly when its file is in the map; the rectangle has its image, position, size and the name "Tile <row>-<col>"; a null tile throws a TypeError |
| PluginCode.Posted | figma-plugin/pixelport-importer/ui.js:57-61 | every collected tile is a usable item with its name and bytes |
| PluginCode.SelectionImports | figma-plugin/pixelport-importer/ui.js:20-68 | a bundle the UI reads without error, with a valid frame and tile entries, imports with one rectangle per tile showing the selected file's bytes |
| PluginCode.TileNamesAll | figma-plugin/pixelport-importer/ui.js:46-50 | when every entry names its file, no tile is skipped |
| PluginCode.PostedLookup | figma-plugin/pixelport-importer/code.js:3-12 | the tile map of the posted files finds each required tile's bytes |
| PluginCode.TileMapConsistent | figma-plugin/pixelport-importer/code.js:3-12 | when every usable item with a name has the same bytes, the map holds those bytes |
| PluginCode.Frame.constructor | figma-plugin/pixelport-importer/code.js:36 | a new frame has no children |
| PluginCode.Frame.Resize | figma-plugin/pixelport-importer/code.js:38 | sets width and height and nothing else |
| PluginCode.Frame.AppendChild | figma-plugin/pixelport-importer/code.js:63 | appends one rectangle and changes nothing else |
| PluginCode.Page.constructor | figma-plugin/pixelport-importer/code.js:66-67 | a new page is empty with nothing selected |
| PluginCode.Page.AddAndSelect | figma-plugin/pixelport-importer/code.js:66-67 | appends the frame to the page and selects only it |
| PluginCode.AppendTiles | figma-plugin/pixelport-importer/code.js:41-64 | on success appends exactly the planned rectangles in order; on failure returns the first tile's error |
| PluginCode.ImportBundle | figma-plugin/pixelport-importer/code.js:14-69 | an invalid plan raises its error and leaves the page untouched; otherwise a new frame with the plan's name and size, clipping, holding the planned rectangles, is appended to the page and becomes the selection |

## Left out

- Playwright, sharp and the file system are not modelled. A browser launch, a context creation and each page operation either succeed or throw, as a given environment says. The image size that sharp reports is a parameter.
- Clocks are parameters: the ISO time of the file name, and every job's duration. The telemetry timings of a capture (navigation, prepare, screenshot, encode, total) are not modelled.
- Concurrency: promises resolve at once. A batch's concurrent workers are atomic completion steps in any order. The capture pipeline does not interleave with other captures inside one step.
- `JSON.parse` and `JSON.stringify` are parameters or field filters. JavaScript numbers are integers in the model, and `Number(s)` on form text is a parameter that gives a real.
- Preferences.Serialized: only the top-level undefined fields are dropped. `JSON.stringify` also drops undefined properties inside nested objects and writes undefined array elements as null, so Preferences.SaveThenGet does not cover a saved value such as `[undefined]`.
- Trimming removes the ASCII white space plus U+00A0 and U+FEFF, and lowercasing maps ASCII letters only. The other Unicode white space and case mapping of JavaScript are not modelled.
- The WHATWG URL parser is a parameter that gives the protocol, host name, path and href, or fails.
- Capture.StabilisationPlan: the style injected to stop animations, the click itself, the styles set on hidden banners and the pausing of media are page effects, so the model records each as a step without its effect on the page.
- The DOM wiring of the renderer and of the plugin UI is not modelled: event handlers, button enabling (`updateActionButtons`), status text, the progress animation of `startCaptureFeedback` and `finishCaptureFeedback` (src/renderer/renderer.js:124-149), and the labels of the preset options.
- The message handler of the plugin (figma-plugin/pixelport-importer/code.js:71-93) and the IPC handlers other than the batch request are not modelled.
- `warmupCaptureBrowser` (src/core/capture.js:218-220) only calls `getBrowser`, which is modelled.
- `buildPreferencePayload` and `buildCaptureSettings` of the renderer are not modelled. They only copy the controls into an object, except for the preset id list (src/renderer/renderer.js:399), which `Renderer.PresetSelectionRestored` covers.
- Renderer.CoercedIn: a select control given a value outside its options shows an empty selection in a browser. The model writes the value through.
- Renderer.ActiveProfileFor: profile ids that name members of `Object.prototype` (such as "toString") count as known in the source, because the lookup goes through the prototype. The model, and `Renderer.ProfileOf`, treat them as unknown.
- PluginCode.ImportBundle: the `Array.isArray` check on the posted `files` (figma-plugin/pixelport-importer/code.js:16) is not modelled; the files always arrive as a list.
- PluginCode.PlaceTileSpec: Figma's coercion of a non-string name or a non-number size is not modelled. The rectangle keeps the manifest's values as they are.
- PluginCode.ImportBundle: in Figma, `createFrame` already puts the new frame on the current page. After a missing tile, a partly filled frame is left behind. The model adds the frame to the page only once every tile is placed. The scroll into view at the end is not modelled.
- CaptureCache.BrowserCache.CloseCaptureBrowser: failures to close each context are ignored by the source and are not modelled.
- The concrete examples of test/filename.test.js are not proved on their literal strings, because the verifier unfolds the string functions on literals past its resource limit. SlugTwoSegments proves the two-word case that '/Pricing/Enterprise/' is an instance of, and SlugContent proves which letters and digits every slug holds. For paths of three or more words, the position of each dash is proved only through CollapseSeparator, one separator at a time.
- CaptureCache.OutputPath: `path.join` (src/core/capture.js:260) is modelled as `dir + "/" + name`, without its normalisation. An output folder written with a trailing '/' or with '.' and '..' segments gives a different string than Node does, although the same file.
- FigmaBundle.JoinPath: the same simplification of `path.join` for the bundle folder, the tile paths and the manifest path (src/core/figmaBundle.js:47-48, 64, 107).
- Batch.HandleBatch: when a null or undefined job rejects the request, the captures and progress messages of the jobs before it, and of the workers still running, are not modelled; the model gives only the rejection. Its error is the engine's TypeError, of which the model keeps only the name.
- src/main/updater.js, scripts/release.js and src/preload/index.js are outside the modelled core: auto-update, release scripting, and the bridge between renderer and main process.
