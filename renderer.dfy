/**
 * The capture form of the renderer (src/renderer/renderer.js): the size
 * presets and capture profiles, URL and queue parsing, the multi-size job
 * list, the progress clamp, the form validation rules, and the way stored
 * preferences and profiles are written into the form controls.
 *
 * The form controls are the fields of a `Form` value, each holding the
 * string (or checked state) the control shows. `Number(s)` on a control's
 * text, the URL parser and `Number.parseInt(s, 10)` are function parameters.
 */
module Renderer {
  import opened Wrappers
  import opened Text
  import opened Js
  import Validation

  // --------------------------------------------------- presets and profiles

  /** A size preset; its display label is not modelled. */
  datatype Preset = Preset(width: Option<nat>, height: Option<nat>)

  /** `presets`: entry 0 is the custom size, which has none. */
  const Presets: seq<Preset> := [
    Preset(None, None),
    Preset(Some(1280), Some(800)),
    Preset(Some(1512), Some(900)),
    Preset(Some(1366), Some(800)),
    Preset(Some(1920), Some(1080)),
    Preset(Some(1080), Some(1350))
  ]

  /** `preset && preset.width && preset.height` for `presets[id]`. */
  predicate IsSized(id: int) {
    0 <= id < |Presets| && Presets[id].width.Some? && Presets[id].width.value != 0
    && Presets[id].height.Some? && Presets[id].height.value != 0
  }

  /** Every preset but the custom one has a size. */
  lemma SizedIff(id: int)
    ensures IsSized(id) <==> 0 < id < |Presets|
  {
  }

  datatype Profile = Profile(
    scale: int, quality: int, waitUntil: string, timeoutMs: int, delayMs: int,
    queueConcurrency: int, suppressAnimations: bool, cookieHandling: string)

  const ProfileIds: set<string> := {"fast", "balanced", "ultra"}

  /** A profile whose values are options of the form's controls and pass the timeout rule. */
  predicate FitsControls(p: Profile) {
    1 <= p.scale <= 3 && 60 <= p.quality <= 100 && p.waitUntil in {"networkidle", "domcontentloaded"}
    && p.timeoutMs >= 1000 && p.delayMs >= 0 && 1 <= p.queueConcurrency <= 3
    && p.cookieHandling in {"off", "hide", "accept"}
  }

  /** `profiles[id]`, None for an id that names no profile. */
  function ProfileOf(id: string): (r: Option<Profile>)
    ensures r.Some? <==> id in ProfileIds
    ensures r.Some? ==> FitsControls(r.value)
  {
    if id == "fast" then Some(Profile(1, 78, "domcontentloaded", 15000, 0, 3, true, "hide"))
    else if id == "balanced" then Some(Profile(2, 88, "domcontentloaded", 30000, 150, 2, true, "hide"))
    else if id == "ultra" then Some(Profile(3, 95, "networkidle", 45000, 500, 1, true, "accept"))
    else None
  }

  // ----------------------------------------------------------- URL input

  /**
   * `normalizeUrlInput` on a control's text: '' for blank input, otherwise
   * the trimmed text, with 'https://' in front unless it already starts with
   * http:// or https:// in any case.
   */
  function NormalizeUrlInput(raw: string): (r: string)
    ensures r == "" <==> AllSpace(raw)
    ensures r != "" ==> Validation.HasHttpScheme(r) && Trim(r) == r
    ensures !AllSpace(raw) && Validation.HasHttpScheme(Trim(raw)) ==> r == Trim(raw)
    ensures !AllSpace(raw) && !Validation.HasHttpScheme(Trim(raw)) ==> r == "https://" + Trim(raw)
  {
    TrimEmptyIff(raw);
    var trimmed := Trim(raw);
    if trimmed == "" then ""
    else
      SchemeKeepsTrim(trimmed);
      Validation.WithScheme(trimmed)
  }

  lemma SchemeKeepsTrim(t: string)
    requires t != "" && !IsSpace(t[0]) && !IsSpace(t[|t| - 1])
    ensures Trim(Validation.WithScheme(t)) == Validation.WithScheme(t)
  {
    var r := Validation.WithScheme(t);
    assert r[|r| - 1] == t[|t| - 1];
    TrimUnchanged(r);
  }

  /** Normalising a normalised URL changes nothing. */
  lemma NormalizeUrlInputIdempotent(raw: string)
    ensures NormalizeUrlInput(NormalizeUrlInput(raw)) == NormalizeUrlInput(raw)
  {
    var r := NormalizeUrlInput(raw);
    if r != "" {
      TrimEmptyIff(r);
    }
  }

  /** A URL as `parseQueueUrls` produces it: non-empty, http(s), trimmed, on one line. */
  predicate IsQueueUrl(s: string) {
    s != "" && Validation.HasHttpScheme(s) && Trim(s) == s && '\n' !in s
  }

  /** The non-blank lines of a text, trimmed, in order. */
  function QueueLines(text: string): seq<string> {
    Validation.NonEmpty(Validation.TrimAll(Validation.Lines(text)))
  }

  lemma QueueLinesShape(text: string)
    ensures forall i :: 0 <= i < |QueueLines(text)| ==> OneLine(QueueLines(text)[i])
  {
    var lines := Validation.Lines(text);
    var trimmed := Validation.TrimAll(lines);
    forall i | 0 <= i < |QueueLines(text)| ensures OneLine(QueueLines(text)[i]) {
      var x := QueueLines(text)[i];
      assert x in QueueLines(text);
      assert x in trimmed;
      var j :| 0 <= j < |trimmed| && trimmed[j] == x;
      TrimIdempotent(lines[j]);
      Validation.TrimKeepsOut(lines[j], '\n');
    }
  }

  /** A line of a URL list after trimming: non-empty, no white space at its ends, no line break. */
  predicate OneLine(s: string) {
    s != "" && Trim(s) == s && '\n' !in s
  }

  lemma NormalizeLine(line: string)
    requires OneLine(line)
    ensures NormalizeUrlInput(line) == Validation.WithScheme(line)
    ensures IsQueueUrl(NormalizeUrlInput(line))
  {
    TrimEmptyIff(line);
    var r := NormalizeUrlInput(line);
    assert r == Validation.WithScheme(line);
    SchemeAvoidsBreak(line);
  }

  lemma SchemeAvoidsBreak(s: string)
    requires '\n' !in s
    ensures '\n' !in Validation.WithScheme(s)
  {
    assert '\n' !in "https://";
  }

  lemma NormalizeLines(lines: seq<string>)
    requires forall i :: 0 <= i < |lines| ==> OneLine(lines[i])
    ensures forall i :: 0 <= i < |lines| ==>
              NormalizeUrlInput(lines[i]) == Validation.WithScheme(lines[i]) && IsQueueUrl(NormalizeUrlInput(lines[i]))
  {
    forall i | 0 <= i < |lines|
      ensures NormalizeUrlInput(lines[i]) == Validation.WithScheme(lines[i]) && IsQueueUrl(NormalizeUrlInput(lines[i]))
    {
      NormalizeLine(lines[i]);
    }
  }

  /**
   * `parseQueueUrls`: the text split at `\r?\n`, each line trimmed, blank
   * lines dropped, and every remaining line normalised, in order.
   */
  function ParseQueueUrls(text: string): (r: seq<string>)
    ensures |r| == |QueueLines(text)|
    ensures forall i :: 0 <= i < |r| ==> IsQueueUrl(r[i])
    ensures forall i :: 0 <= i < |r| ==> r[i] == Validation.WithScheme(QueueLines(text)[i])
  {
    QueueLinesShape(text);
    NormalizeEach(QueueLines(text))
  }

  /** `NormalizeUrlInput` applied to every line of a list of single lines. */
  function NormalizeEach(lines: seq<string>): (r: seq<string>)
    requires forall i :: 0 <= i < |lines| ==> OneLine(lines[i])
    ensures |r| == |lines|
    ensures forall i :: 0 <= i < |r| ==> r[i] == Validation.WithScheme(lines[i])
    ensures forall i :: 0 <= i < |r| ==> IsQueueUrl(r[i])
  {
    var r := seq(|lines|, i requires 0 <= i < |lines| => NormalizeLineInput(lines[i]));
    QueueUrlsOf(lines, r);
    r
  }

  lemma QueueUrlsOf(lines: seq<string>, r: seq<string>)
    requires forall i :: 0 <= i < |lines| ==> OneLine(lines[i])
    requires |r| == |lines|
    requires forall i :: 0 <= i < |r| ==> r[i] == Validation.WithScheme(lines[i])
    ensures forall i :: 0 <= i < |r| ==> IsQueueUrl(r[i])
  {
    NormalizeLines(lines);
  }

  /** `NormalizeUrlInput` on one trimmed line. */
  function NormalizeLineInput(line: string): (r: string)
    requires OneLine(line)
    ensures r == Validation.WithScheme(line)
  {
    NormalizeLine(line);
    NormalizeUrlInput(line)
  }

  lemma QueueUrlNormal(u: string)
    requires IsQueueUrl(u)
    ensures NormalizeUrlInput(u) == u
  {
    TrimEmptyIff(u);
  }

  /** The line shape the queue URLs have: no line break, no carriage return at the end. */
  predicate PlainLine(s: string) {
    '\n' !in s && (s == [] || s[|s| - 1] != '\r')
  }

  lemma QueueUrlsPlain(urls: seq<string>)
    requires forall i :: 0 <= i < |urls| ==> IsQueueUrl(urls[i])
    ensures forall i :: 0 <= i < |urls| ==> PlainLine(urls[i])
  {
    assert IsSpace('\r');
  }

  lemma LinesOfJoin(urls: seq<string>)
    requires |urls| >= 1
    requires forall i :: 0 <= i < |urls| ==> PlainLine(urls[i])
    ensures Validation.Lines(Join(urls, '\n')) == urls
  {
    SplitJoin(urls, '\n');
  }

  lemma NoQueueLines()
    ensures QueueLines(Join([], '\n')) == []
  {
    assert Split("", '\n') == [""];
    assert Validation.Lines("") == [""];
    TrimUnchanged("");
    assert Validation.TrimAll([""]) == [""];
  }

  lemma QueueLinesOfJoin(urls: seq<string>)
    requires forall i :: 0 <= i < |urls| ==> IsQueueUrl(urls[i])
    ensures QueueLines(Join(urls, '\n')) == urls
  {
    if urls == [] {
      NoQueueLines();
    } else {
      QueueUrlsPlain(urls);
      LinesOfJoin(urls);
      TrimAllKeeps(urls);
      Validation.NonEmptyKeeps(urls);
      QueueLinesFrom(urls);
    }
  }

  lemma TrimAllKeeps(urls: seq<string>)
    requires forall i :: 0 <= i < |urls| ==> IsQueueUrl(urls[i])
    ensures Validation.TrimAll(urls) == urls
  {
  }

  lemma QueueLinesFrom(urls: seq<string>)
    requires Validation.Lines(Join(urls, '\n')) == urls
    requires Validation.TrimAll(urls) == urls
    requires Validation.NonEmpty(urls) == urls
    ensures QueueLines(Join(urls, '\n')) == urls
  {
  }

  /**
   * Writing parsed queue URLs one per line and parsing the text again gives
   * the same list back.
   */
  lemma ParseQueueUrlsJoin(urls: seq<string>)
    requires forall i :: 0 <= i < |urls| ==> IsQueueUrl(urls[i])
    ensures ParseQueueUrls(Join(urls, '\n')) == urls
  {
    QueueLinesOfJoin(urls);
    forall i | 0 <= i < |urls| ensures NormalizeUrlInput(urls[i]) == urls[i] {
      QueueUrlNormal(urls[i]);
    }
    ParseFrom(Join(urls, '\n'), urls);
  }

  lemma ParseFrom(text: string, urls: seq<string>)
    requires QueueLines(text) == urls
    requires forall i :: 0 <= i < |urls| ==> NormalizeUrlInput(urls[i]) == urls[i]
    ensures ParseQueueUrls(text) == urls
  {
  }

  /** Parsing the joined result of a parse gives that result again. */
  lemma ParseQueueUrlsStable(text: string)
    ensures ParseQueueUrls(Join(ParseQueueUrls(text), '\n')) == ParseQueueUrls(text)
  {
    ParseQueueUrlsJoin(ParseQueueUrls(text));
  }

  // ------------------------------------------------------ preset checkboxes

  /** A multi-size checkbox: whether it is checked and `Number.parseInt` of its value. */
  datatype PresetInput = PresetInput(checked: bool, value: Option<int>)

  /** The checkbox contributes `id` to the selection. */
  predicate Picks(input: PresetInput, id: int) {
    input.checked && input.value == Some(id) && 0 < id < |Presets|
  }

  /**
   * `getSelectedMultiSizePresetIds`: the values of the checked boxes, in
   * order, keeping only ids of real presets (never 0, the custom size).
   */
  function SelectedPresetIds(inputs: seq<PresetInput>): (r: seq<int>)
    ensures |r| <= |inputs|
    ensures forall i :: 0 <= i < |r| ==> 0 < r[i] < |Presets|
    ensures forall id :: id in r <==> exists j :: 0 <= j < |inputs| && Picks(inputs[j], id)
    decreases |inputs|
  {
    if inputs == [] then []
    else
      var rest := SelectedPresetIds(inputs[1..]);
      assert forall j :: 0 <= j < |inputs| - 1 ==> inputs[1..][j] == inputs[j + 1];
      var first := inputs[0];
      if first.checked && first.value.Some? && 0 < first.value.value < |Presets| then
        [first.value.value] + rest
      else rest
  }

  /** The filter and map work box by box: the ids of a concatenation are the concatenated ids, in order. */
  lemma {:induction false} SelectedPresetIdsAppend(a: seq<PresetInput>, b: seq<PresetInput>)
    ensures SelectedPresetIds(a + b) == SelectedPresetIds(a) + SelectedPresetIds(b)
    decreases |a|
  {
    if a != [] {
      assert (a + b)[0] == a[0];
      assert (a + b)[1..] == a[1..] + b;
      SelectedPresetIdsAppend(a[1..], b);
    } else {
      assert a + b == b;
    }
  }

  /** One box gives its id when it picks one, and nothing otherwise. */
  lemma SelectedPresetIdsSingle(x: PresetInput)
    ensures x.value.Some? && Picks(x, x.value.value) ==> SelectedPresetIds([x]) == [x.value.value]
    ensures x.value.None? || !Picks(x, x.value.value) ==> SelectedPresetIds([x]) == []
  {
    assert [x][1..] == [];
  }

  /** `String(id)` of each id. */
  function IntTexts(ids: seq<int>): (r: seq<string>)
    ensures |r| == |ids| && forall i :: 0 <= i < |ids| ==> r[i] == IntToString(ids[i])
  {
    seq(|ids|, i requires 0 <= i < |ids| => IntToString(ids[i]))
  }

  /** The `multiSizePresetIds` preference: the selected ids joined with ','. */
  function PresetIdsText(inputs: seq<PresetInput>): string {
    Join(IntTexts(SelectedPresetIds(inputs)), ',')
  }

  /** The numbers the pieces parse to once trimmed, NaN dropped. */
  function ParsedPieces(pieces: seq<string>, parseInt: string -> Option<int>): set<int> {
    set i | 0 <= i < |pieces| && parseInt(Trim(pieces[i])).Some? :: parseInt(Trim(pieces[i])).value
  }

  /**
   * The set `applyPreferences` builds from a `multiSizePresetIds` string: the
   * pieces between commas, trimmed and parsed, NaN dropped.
   */
  function ChosenIds(text: string, parseInt: string -> Option<int>): set<int> {
    ParsedPieces(Split(text, ','), parseInt)
  }

  /** Each checkbox checked exactly when its parsed value is in `chosen`. */
  function CheckChosen(inputs: seq<PresetInput>, chosen: set<int>): (r: seq<PresetInput>)
    ensures |r| == |inputs|
    ensures forall j :: 0 <= j < |inputs| ==>
              r[j].value == inputs[j].value
              && (r[j].checked <==> inputs[j].value.Some? && inputs[j].value.value in chosen)
  {
    seq(|inputs|, j requires 0 <= j < |inputs| =>
      inputs[j].(checked := inputs[j].value.Some? && inputs[j].value.value in chosen))
  }

  lemma IntToStringTrimmed(n: int)
    ensures Trim(IntToString(n)) == IntToString(n)
    ensures ',' !in IntToString(n)
  {
    IntToStringSign(n);
    forall c | IsSpace(c) || c == ','
      ensures c !in IntToString(n)
    {
      IntToStringNoChar(n, c);
    }
    TrimUnchanged(IntToString(n));
  }

  lemma IntTextsPlain(ids: seq<int>)
    ensures forall i :: 0 <= i < |ids| ==> ',' !in IntTexts(ids)[i] && Trim(IntTexts(ids)[i]) == IntTexts(ids)[i]
  {
    forall i | 0 <= i < |ids|
      ensures ',' !in IntTexts(ids)[i] && Trim(IntTexts(ids)[i]) == IntTexts(ids)[i]
    {
      IntToStringTrimmed(ids[i]);
    }
  }

  lemma ParsedTexts(ids: seq<int>, parseInt: string -> Option<int>)
    requires forall n :: parseInt(IntToString(n)) == Some(n)
    ensures ParsedPieces(IntTexts(ids), parseInt) == set i | 0 <= i < |ids| :: ids[i]
  {
    var texts := IntTexts(ids);
    IntTextsPlain(ids);
    assert forall i :: 0 <= i < |ids| ==> parseInt(Trim(texts[i])) == Some(ids[i]);
  }

  /** Reading back a comma-joined list of numbers recovers exactly those numbers. */
  lemma ChosenIdsJoin(ids: seq<int>, parseInt: string -> Option<int>)
    requires forall n :: parseInt(IntToString(n)) == Some(n)
    requires parseInt("") == None
    ensures ChosenIds(Join(IntTexts(ids), ','), parseInt) == set i | 0 <= i < |ids| :: ids[i]
  {
    if ids == [] {
      NoChosenIds(parseInt);
    } else {
      var texts := IntTexts(ids);
      assert Split(Join(texts, ','), ',') == texts by {
        IntTextsPlain(ids);
        SplitJoin(texts, ',');
      }
      ParsedTexts(ids, parseInt);
    }
  }

  lemma NoChosenIds(parseInt: string -> Option<int>)
    requires parseInt("") == None
    ensures ChosenIds(Join([], ','), parseInt) == {}
  {
    assert Split("", ',') == [""];
    TrimUnchanged("");
  }

  /**
   * Saving the selection as `multiSizePresetIds` and applying it back checks
   * exactly the boxes whose value some checked box with a real preset id had.
   */
  lemma PresetSelectionRestored(inputs: seq<PresetInput>, parseInt: string -> Option<int>)
    requires forall n :: parseInt(IntToString(n)) == Some(n)
    requires parseInt("") == None
    ensures var restored := CheckChosen(inputs, ChosenIds(PresetIdsText(inputs), parseInt));
            forall j :: 0 <= j < |inputs| ==>
              (restored[j].checked <==>
                 inputs[j].value.Some? && exists k :: 0 <= k < |inputs| && Picks(inputs[k], inputs[j].value.value))
  {
    var ids := SelectedPresetIds(inputs);
    var chosen := ChosenIds(PresetIdsText(inputs), parseInt);
    assert forall x :: x in chosen <==> x in ids by {
      ChosenIdsJoin(ids, parseInt);
      ElementsOf(ids);
    }
    var restored := CheckChosen(inputs, chosen);
    forall j | 0 <= j < |inputs|
      ensures restored[j].checked <==>
                inputs[j].value.Some? && exists k :: 0 <= k < |inputs| && Picks(inputs[k], inputs[j].value.value)
    {
    }
  }

  lemma ElementsOf(ids: seq<int>)
    ensures forall x :: x in (set i | 0 <= i < |ids| :: ids[i]) <==> x in ids
  {
  }

  // ---------------------------------------------------------- multi-size jobs

  /** A capture job: a URL, with a preset's size when it is one of several sizes. */
  datatype JobSize = JobSize(width: nat, height: nat, sizeLabel: string)
  datatype Job = Job(url: string, size: Option<JobSize>)

  /** The job of `url` at a sized preset `id`, labelled `${width}x${height}`. */
  function SizedJob(url: string, id: int): Job
    requires IsSized(id)
  {
    var w := Presets[id].width.value;
    var h := Presets[id].height.value;
    Job(url, Some(JobSize(w, h, IntToString(w) + "x" + IntToString(h))))
  }

  /** The job for `url` at preset `id`, when that preset has a size. */
  function SizedJobs(url: string, id: int): (r: seq<Job>)
    ensures |r| <= 1
  {
    if IsSized(id) then [SizedJob(url, id)] else []
  }

  /** The jobs for one URL, one per sized preset id, in the order of the ids. */
  function JobsFor(url: string, ids: seq<int>): seq<Job>
    decreases |ids|
  {
    if ids == [] then [] else JobsFor(url, ids[..|ids| - 1]) + SizedJobs(url, ids[|ids| - 1])
  }

  /** The URL-major, preset-minor cross product. */
  function CrossJobs(urls: seq<string>, ids: seq<int>): seq<Job>
    decreases |urls|
  {
    if urls == [] then [] else CrossJobs(urls[..|urls| - 1], ids) + JobsFor(urls[|urls| - 1], ids)
  }

  /** What `buildMultiSizeJobs` returns. */
  function MultiSizeJobs(urls: seq<string>, ids: seq<int>): seq<Job> {
    if ids == [] then seq(|urls|, i requires 0 <= i < |urls| => Job(urls[i], None))
    else CrossJobs(urls, ids)
  }

  /**
   * `buildMultiSizeJobs` for the selected preset ids: one plain job per URL
   * when none is selected, otherwise a job per URL and sized preset.
   */
  method BuildMultiSizeJobs(urls: seq<string>, presetIds: seq<int>) returns (jobs: seq<Job>)
    ensures jobs == MultiSizeJobs(urls, presetIds)
  {
    if |presetIds| == 0 {
      return seq(|urls|, i requires 0 <= i < |urls| => Job(urls[i], None));
    }
    jobs := [];
    var u := 0;
    while u < |urls|
      invariant 0 <= u <= |urls|
      invariant jobs == CrossJobs(urls[..u], presetIds)
    {
      var forUrl := BuildJobsFor(urls[u], presetIds);
      jobs := jobs + forUrl;
      CrossJobsStep(urls, presetIds, u);
      u := u + 1;
    }
    assert urls[..u] == urls;
  }

  /** The inner loop of `buildMultiSizeJobs`: one job per sized preset, skipping the rest. */
  method BuildJobsFor(url: string, presetIds: seq<int>) returns (jobs: seq<Job>)
    ensures jobs == JobsFor(url, presetIds)
  {
    jobs := [];
    var p := 0;
    while p < |presetIds|
      invariant 0 <= p <= |presetIds|
      invariant jobs == JobsFor(url, presetIds[..p])
    {
      var id := presetIds[p];
      JobsForStep(url, presetIds, p);
      if IsSized(id) {
        jobs := jobs + [SizedJob(url, id)];
      }
      p := p + 1;
    }
    assert presetIds[..p] == presetIds;
  }

  lemma JobsForStep(url: string, ids: seq<int>, p: nat)
    requires p < |ids|
    ensures JobsFor(url, ids[..p + 1]) == JobsFor(url, ids[..p]) + SizedJobs(url, ids[p])
  {
    assert ids[..p + 1][..p] == ids[..p];
  }

  lemma CrossJobsStep(urls: seq<string>, ids: seq<int>, u: nat)
    requires u < |urls|
    ensures CrossJobs(urls[..u + 1], ids) == CrossJobs(urls[..u], ids) + JobsFor(urls[u], ids)
  {
    assert urls[..u + 1][..u] == urls[..u];
  }

  lemma {:induction false} JobsForSized(url: string, ids: seq<int>)
    requires forall p :: 0 <= p < |ids| ==> IsSized(ids[p])
    ensures |JobsFor(url, ids)| == |ids|
    ensures forall p :: 0 <= p < |ids| ==> JobsFor(url, ids)[p] == SizedJob(url, ids[p])
    decreases |ids|
  {
    if ids != [] {
      var init := ids[..|ids| - 1];
      JobsForSized(url, init);
      var last := SizedJob(url, ids[|ids| - 1]);
      var jobs := JobsFor(url, ids);
      assert jobs == JobsFor(url, init) + [last];
      forall p | 0 <= p < |ids| ensures jobs[p] == SizedJob(url, ids[p]) {
        if p < |init| {
          assert init[p] == ids[p];
          assert jobs[p] == JobsFor(url, init)[p];
        } else {
          assert jobs[p] == last;
        }
      }
    }
  }

  /** The position of URL `u`, preset `p` in a cross product with `n` presets per URL. */
  function Slot(u: nat, p: nat, n: nat): nat {
    u * n + p
  }

  lemma SlotBelow(u: nat, p: nat, n: nat, m: nat)
    requires u < m && p < n
    ensures Slot(u, p, n) < m * n
  {
    assert (u + 1) * n <= m * n;
  }

  lemma SlotLast(p: nat, n: nat, m: nat)
    ensures Slot(m, p, n) == m * n + p && (m + 1) * n == m * n + n
  {
  }

  /**
   * With only sized preset ids, the cross product holds one job per URL and
   * preset: URL `u` at preset `ids[p]` sits at `u * |ids| + p`, URL-major and
   * preset-minor.
   */
  lemma {:induction false} CrossJobsIndex(urls: seq<string>, ids: seq<int>)
    requires forall p :: 0 <= p < |ids| ==> IsSized(ids[p])
    ensures |CrossJobs(urls, ids)| == |urls| * |ids|
    ensures forall u, p :: 0 <= u < |urls| && 0 <= p < |ids| ==>
              Slot(u, p, |ids|) < |CrossJobs(urls, ids)|
              && CrossJobs(urls, ids)[Slot(u, p, |ids|)] == SizedJob(urls[u], ids[p])
    decreases |urls|
  {
    if urls != [] {
      var m := |urls| - 1;
      var init := urls[..m];
      var n := |ids|;
      CrossJobsIndex(init, ids);
      JobsForSized(urls[m], ids);
      var head := CrossJobs(init, ids);
      var all := CrossJobs(urls, ids);
      assert all == head + JobsFor(urls[m], ids);
      var tail := JobsFor(urls[m], ids);
      assert |head| == m * n;
      SlotLast(0, n, m);
      assert |all| == |urls| * n;
      forall u, p | 0 <= u < |urls| && 0 <= p < n
        ensures Slot(u, p, n) < |all| && all[Slot(u, p, n)] == SizedJob(urls[u], ids[p])
      {
        if u < m {
          SlotBelow(u, p, n, m);
          assert init[u] == urls[u];
          assert all[Slot(u, p, n)] == head[Slot(u, p, n)];
        } else {
          assert u == m;
          SlotLast(p, n, m);
          var k := Slot(m, p, n);
          assert k == |head| + p;
          assert all[k] == tail[p];
        }
      }
    }
  }

  /** Without selected ids, job `i` is URL `i` with no size. */
  lemma MultiSizeJobsPlain(urls: seq<string>)
    ensures |MultiSizeJobs(urls, [])| == |urls|
    ensures forall i :: 0 <= i < |urls| ==> MultiSizeJobs(urls, [])[i] == Job(urls[i], None)
  {
  }

  /**
   * For real preset ids, such as the ones the checkboxes select, every URL
   * gets every selected size.
   */
  lemma SelectedJobs(urls: seq<string>, ids: seq<int>)
    requires ids != []
    requires forall p :: 0 <= p < |ids| ==> 0 < ids[p] < |Presets|
    ensures |MultiSizeJobs(urls, ids)| == |urls| * |ids|
    ensures forall u, p :: 0 <= u < |urls| && 0 <= p < |ids| ==>
              IsSized(ids[p]) && Slot(u, p, |ids|) < |MultiSizeJobs(urls, ids)|
              && MultiSizeJobs(urls, ids)[Slot(u, p, |ids|)] == SizedJob(urls[u], ids[p])
  {
    forall p | 0 <= p < |ids| ensures IsSized(ids[p]) {
      SizedIff(ids[p]);
    }
    CrossJobsIndex(urls, ids);
  }

  /** A sized job is labelled `${width}x${height}` with its preset's size. */
  lemma SizedJobLabel(url: string, id: int)
    requires IsSized(id)
    ensures SizedJob(url, id).url == url && SizedJob(url, id).size.Some?
    ensures var s := SizedJob(url, id).size.value;
            s.width == Presets[id].width.value && s.height == Presets[id].height.value
            && s.sizeLabel == IntToString(s.width) + "x" + IntToString(s.height)
  {
  }

  // --------------------------------------------------------------- progress

  /** `Math.round`: the nearest integer, halves rounded up. */
  function Round(x: real): (r: int)
    ensures r as real - 0.5 <= x < r as real + 0.5
  {
    (x + 0.5).Floor
  }

  /** The percentage `setProgress` writes: `value` rounded, then clamped into [0,100]. */
  function SetProgress(value: real): (r: int)
    ensures 0 <= r <= 100
  {
    Validation.Clamp(Round(value), 0, 100)
  }

  /** Inside the range the written percentage is the nearest integer, outside it the nearer bound. */
  lemma SetProgressNearest(value: real)
    ensures -0.5 <= value < 100.5 ==> SetProgress(value) == Round(value)
    ensures value < -0.5 ==> SetProgress(value) == 0
    ensures value >= 100.5 ==> SetProgress(value) == 100
  {
  }

  lemma SetProgressMonotone(a: real, b: real)
    requires a <= b
    ensures SetProgress(a) <= SetProgress(b)
  {
    assert (a + 0.5).Floor <= (b + 0.5).Floor by {
      assert (a + 0.5).Floor as real <= a + 0.5 <= b + 0.5;
    }
  }

  // ------------------------------------------------------------- validation

  /** The messages `validateState` can set on an error node. */
  datatype Message =
    | UrlRequired | UrlNotHttp | UrlInvalid | QueueEmpty | QueueInvalid(url: string)
    | MultiSizeMissing | WidthTooSmall | HeightTooSmall | TimeoutTooSmall | OutputDirMissing

  /** The text of a message; each holds a character that is not white space. */
  function MessageText(m: Message): (r: string)
    ensures !AllSpace(r)
  {
    match m
    case UrlRequired => var t := "URL is required."; assert !IsSpace(t[|t| - 1]); t
    case UrlNotHttp => var t := "Only HTTP and HTTPS URLs are allowed."; assert !IsSpace(t[|t| - 1]); t
    case UrlInvalid => var t := "URL is invalid. Example: https://example.com"; assert !IsSpace(t[|t| - 1]); t
    case QueueEmpty => var t := "Provide at least one URL for queue mode."; assert !IsSpace(t[|t| - 1]); t
    case QueueInvalid(u) => var t := "Invalid URL in queue: " + u; assert !IsSpace(t[0]); t
    case MultiSizeMissing =>
      var t := "Select at least one size when multi-size mode is enabled."; assert !IsSpace(t[|t| - 1]); t
    case WidthTooSmall => var t := "Width must be at least 320px."; assert !IsSpace(t[|t| - 1]); t
    case HeightTooSmall => var t := "Height must be at least 320px for fold mode."; assert !IsSpace(t[|t| - 1]); t
    case TimeoutTooSmall => var t := "Timeout must be at least 1000 ms."; assert !IsSpace(t[|t| - 1]); t
    case OutputDirMissing => var t := "Choose an output folder."; assert !IsSpace(t[|t| - 1]); t
  }

  /** `setError(field, message)`: the text an error node shows, '' where none was set. */
  function Shown(m: Option<Message>): string {
    if m.Some? then MessageText(m.value) else ""
  }

  /** An error node is blank once trimmed exactly when no message was set on it. */
  lemma BlankIff(m: Option<Message>)
    ensures Trim(Shown(m)) == "" <==> m.None?
  {
    TrimEmptyIff(Shown(m));
  }

  /** The controls of the capture form, each holding what it shows. */
  datatype Form = Form(
    captureType: string, url: string, urlList: string, multiSizeEnabled: bool,
    presetInputs: seq<PresetInput>, presetIndex: string, width: string, height: string,
    scale: string, mode: string, format: string, quality: string, qualityLabel: string,
    waitUntil: string, timeout: string, delay: string, queueConcurrency: string,
    consistencyMode: bool, consistencyDelay: string, cookieHandling: string,
    cookieSelectors: string, suppressAnimations: bool, appendTimestamp: bool,
    folderLabel: string)

  /** The parser accepts the URL and reports an http(s) protocol. */
  predicate Accepted(parse: string -> Option<Validation.ParsedUrl>, s: string) {
    parse(s).Some? && Validation.IsHttpProtocol(parse(s).value.protocol)
  }

  /** `urls.find(...)` for a URL the parser rejects: its index, None when all are accepted. */
  function FirstRejected(urls: seq<string>, parse: string -> Option<Validation.ParsedUrl>): (r: Option<nat>)
    ensures r.None? <==> forall i :: 0 <= i < |urls| ==> Accepted(parse, urls[i])
    ensures r.Some? ==> r.value < |urls| && !Accepted(parse, urls[r.value])
                        && forall j :: 0 <= j < r.value ==> Accepted(parse, urls[j])
    decreases |urls|
  {
    if urls == [] then None
    else if !Accepted(parse, urls[0]) then Some(0)
    else
      var rest := FirstRejected(urls[1..], parse);
      assert forall j :: 0 < j < |urls| ==> urls[1..][j - 1] == urls[j];
      if rest.None? then None else Some(rest.value + 1)
  }

  /** The message on each error node after `validateState`, None where none was set. */
  datatype FieldErrors = FieldErrors(
    url: Option<Message>, urlList: Option<Message>, multiSize: Option<Message>, width: Option<Message>,
    height: Option<Message>, timeout: Option<Message>, outputDir: Option<Message>)

  /** `Number(s) >= bound` for a finite number. */
  predicate AtLeast(n: Option<real>, bound: real) {
    n.Some? && n.value >= bound
  }

  /** The message the single URL check sets. */
  function SingleUrlError(text: string, parse: string -> Option<Validation.ParsedUrl>): Option<Message> {
    var draft := NormalizeUrlInput(text);
    if draft == "" then Some(UrlRequired)
    else match parse(draft)
      case None => Some(UrlInvalid)
      case Some(u) => if Validation.IsHttpProtocol(u.protocol) then None else Some(UrlNotHttp)
  }

  /** The message the queue check sets: a rejected URL wins over the empty queue. */
  function QueueError(text: string, parse: string -> Option<Validation.ParsedUrl>): Option<Message> {
    var urls := ParseQueueUrls(text);
    match FirstRejected(urls, parse)
    case Some(i) => Some(QueueInvalid(urls[i]))
    case None => if urls == [] then Some(QueueEmpty) else None
  }

  /**
   * The errors `validateState` sets. `toNumber` is `Number(s)` on a
   * control's text, None where that is NaN or infinite.
   */
  function Errors(form: Form, outputDir: string, toNumber: string -> Option<real>,
                  parse: string -> Option<Validation.ParsedUrl>): FieldErrors
  {
    var single := form.captureType == "single";
    FieldErrors(
      if single then SingleUrlError(form.url, parse) else None,
      if single then None else QueueError(form.urlList, parse),
      if form.multiSizeEnabled && SelectedPresetIds(form.presetInputs) == [] then Some(MultiSizeMissing) else None,
      if AtLeast(toNumber(form.width), 320.0) then None else Some(WidthTooSmall),
      if form.mode == "fold" && !AtLeast(toNumber(form.height), 320.0) then Some(HeightTooSmall) else None,
      if AtLeast(toNumber(form.timeout), 1000.0) then None else Some(TimeoutTooSmall),
      if outputDir == "" then Some(OutputDirMissing) else None)
  }

  /** `validateState`: no error node shows text once trimmed. */
  predicate ValidateState(form: Form, outputDir: string, toNumber: string -> Option<real>,
                          parse: string -> Option<Validation.ParsedUrl>)
  {
    var e := Errors(form, outputDir, toNumber, parse);
    Trim(Shown(e.url)) == "" && Trim(Shown(e.urlList)) == "" && Trim(Shown(e.multiSize)) == ""
    && Trim(Shown(e.width)) == "" && Trim(Shown(e.height)) == "" && Trim(Shown(e.timeout)) == ""
    && Trim(Shown(e.outputDir)) == ""
  }

  /** The single URL rule: the normalised URL is non-empty and an accepted http(s) URL. */
  predicate SingleUrlOk(text: string, parse: string -> Option<Validation.ParsedUrl>) {
    NormalizeUrlInput(text) != "" && Accepted(parse, NormalizeUrlInput(text))
  }

  /** The queue rule: at least one URL, and the parser accepts every one. */
  predicate QueueOk(text: string, parse: string -> Option<Validation.ParsedUrl>) {
    ParseQueueUrls(text) != []
    && forall i :: 0 <= i < |ParseQueueUrls(text)| ==> Accepted(parse, ParseQueueUrls(text)[i])
  }

  /** The URL rule: the single URL, or every queued URL, is an http(s) URL the parser accepts. */
  predicate UrlRuleHolds(form: Form, parse: string -> Option<Validation.ParsedUrl>) {
    if form.captureType == "single" then SingleUrlOk(form.url, parse) else QueueOk(form.urlList, parse)
  }

  /** The single URL check sets no message exactly when the single URL rule holds. */
  lemma SingleUrlErrorIff(text: string, parse: string -> Option<Validation.ParsedUrl>)
    ensures SingleUrlError(text, parse).None? <==> SingleUrlOk(text, parse)
  {
    SingleUrlErrorSound(text, parse);
    SingleUrlErrorComplete(text, parse);
  }

  lemma SingleUrlErrorSound(text: string, parse: string -> Option<Validation.ParsedUrl>)
    ensures SingleUrlError(text, parse).None? ==> SingleUrlOk(text, parse)
  {
  }

  lemma SingleUrlErrorComplete(text: string, parse: string -> Option<Validation.ParsedUrl>)
    ensures SingleUrlOk(text, parse) ==> SingleUrlError(text, parse).None?
  {
  }

  /** The queue check sets no message exactly when the queue rule holds. */
  lemma QueueErrorIff(text: string, parse: string -> Option<Validation.ParsedUrl>)
    ensures QueueError(text, parse).None? <==> QueueOk(text, parse)
  {
  }

  /**
   * The form is valid exactly when every rule holds: the URL rule, a preset
   * chosen when multi-size is on, width at least 320, height at least 320 in
   * fold mode, timeout at least 1000 ms, and an output folder chosen.
   */
  lemma ValidateStateRules(form: Form, outputDir: string, toNumber: string -> Option<real>,
                           parse: string -> Option<Validation.ParsedUrl>)
    ensures ValidateState(form, outputDir, toNumber, parse) <==>
              UrlRuleHolds(form, parse)
              && (form.multiSizeEnabled ==> SelectedPresetIds(form.presetInputs) != [])
              && AtLeast(toNumber(form.width), 320.0)
              && (form.mode == "fold" ==> AtLeast(toNumber(form.height), 320.0))
              && AtLeast(toNumber(form.timeout), 1000.0)
              && outputDir != ""
  {
    ValidateStateBlank(form, outputDir, toNumber, parse);
    NoErrorsRules(form, outputDir, toNumber, parse);
  }

  /** No error node is set. */
  predicate NoErrors(e: FieldErrors) {
    e.url.None? && e.urlList.None? && e.multiSize.None? && e.width.None? && e.height.None?
    && e.timeout.None? && e.outputDir.None?
  }

  /** Every error node shows blank text exactly when no message was set. */
  lemma ValidateStateBlank(form: Form, outputDir: string, toNumber: string -> Option<real>,
                           parse: string -> Option<Validation.ParsedUrl>)
    ensures ValidateState(form, outputDir, toNumber, parse) <==> NoErrors(Errors(form, outputDir, toNumber, parse))
  {
    var e := Errors(form, outputDir, toNumber, parse);
    BlankIff(e.url);
    BlankIff(e.urlList);
    BlankIff(e.multiSize);
    BlankIff(e.width);
    BlankIff(e.height);
    BlankIff(e.timeout);
    BlankIff(e.outputDir);
  }

  lemma NoErrorsRules(form: Form, outputDir: string, toNumber: string -> Option<real>,
                      parse: string -> Option<Validation.ParsedUrl>)
    ensures NoErrors(Errors(form, outputDir, toNumber, parse)) <==>
              UrlRuleHolds(form, parse)
              && (form.multiSizeEnabled ==> SelectedPresetIds(form.presetInputs) != [])
              && AtLeast(toNumber(form.width), 320.0)
              && (form.mode == "fold" ==> AtLeast(toNumber(form.height), 320.0))
              && AtLeast(toNumber(form.timeout), 1000.0)
              && outputDir != ""
  {
    if form.captureType == "single" {
      SingleUrlErrorIff(form.url, parse);
    } else {
      QueueErrorIff(form.urlList, parse);
    }
  }


  // ------------------------------------------ profiles and stored preferences

  /** The option values of the scale, quality and size preset controls. */
  const ScaleTexts: set<string> := set n | 1 <= n <= 3 :: IntToString(n)
  const QualityTexts: set<string> := set q | 60 <= q <= 100 :: IntToString(q)
  const PresetIndexTexts: set<string> := set n | 0 <= n < |Presets| :: IntToString(n)

  /**
   * Every select and range control shows one of its own options, and the
   * quality label shows the quality.
   */
  predicate FormValid(f: Form) {
    f.captureType in {"single", "queue"} && f.presetIndex in PresetIndexTexts && f.scale in ScaleTexts
    && f.mode in {"fold", "full"} && f.format in {"jpg", "webp"}
    && f.quality in QualityTexts && f.qualityLabel == f.quality
    && f.waitUntil in {"networkidle", "domcontentloaded"} && f.cookieHandling in {"off", "hide", "accept"}
  }

  /** The profile `setActiveProfile(id)` makes active: `id` when it names one, else 'balanced'. */
  function ActiveProfileFor(id: string): (r: string)
    ensures r in ProfileIds
    ensures id in ProfileIds ==> r == id
    ensures id !in ProfileIds ==> r == "balanced"
  {
    if ProfileOf(id).Some? then id else "balanced"
  }

  /** The form once `applyProfile` has written a profile's values into its controls. */
  function ProfileForm(f: Form, p: Profile): Form {
    f.(scale := IntToString(p.scale), quality := IntToString(p.quality),
       qualityLabel := IntToString(p.quality), waitUntil := p.waitUntil,
       timeout := IntToString(p.timeoutMs), delay := IntToString(p.delayMs),
       queueConcurrency := IntToString(p.queueConcurrency),
       suppressAnimations := p.suppressAnimations, cookieHandling := p.cookieHandling)
  }

  /** A profile keeps every control on one of its options. */
  lemma ProfileFormValid(f: Form, p: Profile)
    requires FormValid(f) && FitsControls(p)
    ensures FormValid(ProfileForm(f, p))
  {
    assert IntToString(p.scale) in ScaleTexts;
    assert IntToString(p.quality) in QualityTexts;
  }

  /**
   * Reading a profile back from the controls, as the capture settings do
   * with `Number(...)`, gives the profile's values, and its timeout passes
   * the timeout rule.
   */
  lemma ProfileReadBack(f: Form, p: Profile, toNumber: string -> Option<real>)
    requires forall n: int :: toNumber(IntToString(n)) == Some(n as real)
    requires FitsControls(p)
    ensures var r := ProfileForm(f, p);
            toNumber(r.scale) == Some(p.scale as real) && toNumber(r.quality) == Some(p.quality as real)
            && toNumber(r.timeout) == Some(p.timeoutMs as real) && toNumber(r.delay) == Some(p.delayMs as real)
            && toNumber(r.queueConcurrency) == Some(p.queueConcurrency as real)
            && AtLeast(toNumber(r.timeout), 1000.0)
  {
    var r := ProfileForm(f, p);
    assert toNumber(r.timeout) == Some(p.timeoutMs as real);
  }

  /** The value of an option, or `d` when there is none. */
  function Pick<T>(o: Option<T>, d: T): T {
    if o.Some? then o.value else d
  }

  /** `String(n)` of an accepted number, or `d` when none was accepted. */
  function PickText(o: Option<int>, d: string): string {
    if o.Some? then IntToString(o.value) else d
  }

  /** `typeof v === 'string'`. */
  function StrPref(v: Value): (r: Option<string>)
    ensures r.Some? <==> v.Str?
    ensures r.Some? ==> v == Str(r.value)
  {
    if v.Str? then Some(v.s) else None
  }

  /** `typeof v === 'boolean'`. */
  function BoolPref(v: Value): (r: Option<bool>)
    ensures r.Some? <==> v.Bool?
    ensures r.Some? ==> v == Bool(r.value)
  {
    if v.Bool? then Some(v.b) else None
  }

  /** `allowed.includes(v)` for a list of strings: the string when it is one of them. */
  function OneOf(v: Value, allowed: set<string>): (r: Option<string>)
    ensures r.Some? <==> v.Str? && v.s in allowed
    ensures r.Some? ==> v == Str(r.value) && r.value in allowed
  {
    if v.Str? && v.s in allowed then Some(v.s) else None
  }

  /** A number `lo <= v <= hi`; numbers are the model's integers, so each is finite. */
  function NumIn(v: Value, lo: int, hi: int): (r: Option<int>)
    ensures r.Some? <==> v.Num? && lo <= v.n <= hi
    ensures r.Some? ==> v == Num(r.value) && lo <= r.value <= hi
  {
    if v.Num? && lo <= v.n <= hi then Some(v.n) else None
  }

  /** `Number.isFinite(v)`, and `v >= lo` where a bound is given. */
  function NumFrom(v: Value, lo: Option<int>): (r: Option<int>)
    ensures r.Some? <==> v.Num? && (lo.Some? ==> v.n >= lo.value)
    ensures r.Some? ==> v == Num(r.value)
  {
    if v.Num? && (lo.Some? ==> v.n >= lo.value) then Some(v.n) else None
  }

  /**
   * `Number(v)`, None where it is NaN. `toNumber` is `Number` on a string;
   * an array converts through its string form.
   */
  function NumberOf(v: Value, toNumber: string -> Option<real>): Option<real> {
    match v
    case Undefined => None
    case Null => Some(0.0)
    case Bool(b) => Some(if b then 1.0 else 0.0)
    case Num(n) => Some(n as real)
    case Str(t) => toNumber(t)
    case Arr(_) => toNumber(ToStr(v))
    case Obj(_) => None
  }

  /** `allowed.includes(Number(v))`: then `String(v)`, which the guard does not check. */
  function CoercedIn(v: Value, toNumber: string -> Option<real>, allowed: set<real>): (r: Option<string>)
    ensures r.Some? <==> NumberOf(v, toNumber).Some? && NumberOf(v, toNumber).value in allowed
    ensures r.Some? ==> r.value == ToStr(v)
  {
    var n := NumberOf(v, toNumber);
    if n.Some? && n.value in allowed then Some(ToStr(v)) else None
  }

  /** The properties of a stored settings object that `applyPreferences` reads. */
  datatype StoredSettings = StoredSettings(
    profile: Value, captureType: Value, url: Value, urlList: Value, multiSizeEnabled: Value,
    multiSizePresetIds: Value, presetIndex: Value, width: Value, height: Value, scale: Value,
    mode: Value, format: Value, quality: Value, waitUntil: Value, timeoutMs: Value, delayMs: Value,
    consistencyMode: Value, consistencyDelayMs: Value, queueConcurrency: Value,
    cookieHandling: Value, cookieSelectors: Value, suppressAnimations: Value,
    appendTimestamp: Value, outputDir: Value)

  /** `settings.key` for each key read; undefined for a key the object lacks. */
  function ReadSettings(settings: Value): (r: StoredSettings)
    ensures !settings.Obj? ==> r == StoredSettings(
              Undefined, Undefined, Undefined, Undefined, Undefined, Undefined, Undefined, Undefined,
              Undefined, Undefined, Undefined, Undefined, Undefined, Undefined, Undefined, Undefined,
              Undefined, Undefined, Undefined, Undefined, Undefined, Undefined, Undefined, Undefined)
  {
    StoredSettings(
      Prop(settings, "profile"), Prop(settings, "captureType"), Prop(settings, "url"),
      Prop(settings, "urlList"), Prop(settings, "multiSizeEnabled"), Prop(settings, "multiSizePresetIds"),
      Prop(settings, "presetIndex"), Prop(settings, "width"), Prop(settings, "height"),
      Prop(settings, "scale"), Prop(settings, "mode"), Prop(settings, "format"),
      Prop(settings, "quality"), Prop(settings, "waitUntil"), Prop(settings, "timeoutMs"),
      Prop(settings, "delayMs"), Prop(settings, "consistencyMode"), Prop(settings, "consistencyDelayMs"),
      Prop(settings, "queueConcurrency"), Prop(settings, "cookieHandling"), Prop(settings, "cookieSelectors"),
      Prop(settings, "suppressAnimations"), Prop(settings, "appendTimestamp"), Prop(settings, "outputDir"))
  }

  /** The active profile after `applyPreferences`: a stored profile string goes through `setActiveProfile`. */
  function PreferredProfile(current: string, s: StoredSettings): (r: string)
    ensures current in ProfileIds ==> r in ProfileIds
    ensures !s.profile.Str? ==> r == current
    ensures s.profile.Str? ==> r == ActiveProfileFor(s.profile.s)
  {
    if s.profile.Str? then ActiveProfileFor(s.profile.s) else current
  }

  /** The output folder after `applyPreferences`: a stored string that is not blank replaces it. */
  function PreferredOutputDir(current: string, s: StoredSettings): (r: string)
    ensures r == current || (s.outputDir == Str(r) && Trim(r) != "")
    ensures s.outputDir.Str? && Trim(s.outputDir.s) != "" ==> r == s.outputDir.s
  {
    if s.outputDir.Str? && Trim(s.outputDir.s) != "" then s.outputDir.s else current
  }

  /**
   * The form after `applyPreferences` on an object with the properties `s`:
   * each control takes the stored value when it passes that control's guard
   * and keeps its own otherwise; the animation and timestamp checkboxes
   * always take `Boolean(...)` of the stored value.
   */
  function PreferredForm(f: Form, s: StoredSettings, toNumber: string -> Option<real>,
                         parseInt: string -> Option<int>): Form
  {
    PagePrefs(TimingPrefs(SizePrefs(TargetPrefs(f, s, parseInt), s), s, toNumber), s)
  }

  /** The capture type, the URLs and the multi-size choice. */
  function TargetPrefs(f: Form, s: StoredSettings, parseInt: string -> Option<int>): Form {
    var presetIds := StrPref(s.multiSizePresetIds);
    f.(captureType := Pick(OneOf(s.captureType, {"single", "queue"}), f.captureType),
       url := Pick(StrPref(s.url), f.url),
       urlList := Pick(StrPref(s.urlList), f.urlList),
       multiSizeEnabled := Pick(BoolPref(s.multiSizeEnabled), f.multiSizeEnabled),
       presetInputs := if presetIds.Some? then CheckChosen(f.presetInputs, ChosenIds(presetIds.value, parseInt))
                       else f.presetInputs,
       presetIndex := PickText(NumIn(s.presetIndex, 0, |Presets| - 1), f.presetIndex))
  }

  /** The size, scale, mode, format and quality. */
  function SizePrefs(f: Form, s: StoredSettings): Form {
    var quality := NumIn(s.quality, 60, 100);
    f.(width := PickText(NumFrom(s.width, None), f.width),
       height := PickText(NumFrom(s.height, None), f.height),
       scale := PickText(NumIn(s.scale, 1, 3), f.scale),
       mode := Pick(OneOf(s.mode, {"fold", "full"}), f.mode),
       format := Pick(OneOf(s.format, {"jpg", "webp"}), f.format),
       quality := PickText(quality, f.quality),
       qualityLabel := PickText(quality, f.qualityLabel))
  }

  /** The page-load wait, the timeout and delays, and the worker count. */
  function TimingPrefs(f: Form, s: StoredSettings, toNumber: string -> Option<real>): Form {
    f.(waitUntil := Pick(OneOf(s.waitUntil, {"networkidle", "domcontentloaded"}), f.waitUntil),
       timeout := PickText(NumFrom(s.timeoutMs, None), f.timeout),
       delay := PickText(NumFrom(s.delayMs, Some(0)), f.delay),
       consistencyMode := Pick(BoolPref(s.consistencyMode), f.consistencyMode),
       consistencyDelay := Pick(CoercedIn(s.consistencyDelayMs, toNumber, {0.0, 300.0, 800.0, 1500.0}),
                                f.consistencyDelay),
       queueConcurrency := Pick(CoercedIn(s.queueConcurrency, toNumber, {1.0, 2.0, 3.0}), f.queueConcurrency))
  }

  /** The cookie handling, the two checkboxes and the folder label. */
  function PagePrefs(f: Form, s: StoredSettings): Form {
    f.(cookieHandling := Pick(OneOf(s.cookieHandling, {"off", "hide", "accept"}), f.cookieHandling),
       cookieSelectors := Pick(StrPref(s.cookieSelectors), f.cookieSelectors),
       suppressAnimations := Truthy(s.suppressAnimations),
       appendTimestamp := Truthy(s.appendTimestamp),
       folderLabel := PreferredOutputDir(f.folderLabel, s))
  }

  /**
   * A control guarded by a list of strings: a stored string on the list is
   * written to it, and any other stored value leaves it as it was.
   */
  predicate GuardedText(r: string, before: string, v: Value, allowed: set<string>) {
    (v.Str? && v.s in allowed ==> r == v.s) && (!(v.Str? && v.s in allowed) ==> r == before)
  }

  /** A control guarded by a number range: a stored number in `lo..hi` is written as its text. */
  predicate GuardedRange(r: string, before: string, v: Value, lo: int, hi: int) {
    (v.Num? && lo <= v.n <= hi ==> r == IntToString(v.n)) && (!(v.Num? && lo <= v.n <= hi) ==> r == before)
  }

  /** A control guarded by `allowed.includes(Number(v))`: then `String(v)` is written. */
  predicate GuardedCoerced(r: string, before: string, v: Value, toNumber: string -> Option<real>, allowed: set<real>) {
    var n := NumberOf(v, toNumber);
    (n.Some? && n.value in allowed ==> r == ToStr(v)) && (!(n.Some? && n.value in allowed) ==> r == before)
  }

  /** The target guards: the capture type and the size preset stay on their options. */
  lemma TargetWhitelisted(f: Form, s: StoredSettings, parseInt: string -> Option<int>)
    ensures var r := TargetPrefs(f, s, parseInt);
            (r.captureType == f.captureType || r.captureType in {"single", "queue"})
            && (r.presetIndex == f.presetIndex || r.presetIndex in PresetIndexTexts)
    ensures var r := TargetPrefs(f, s, parseInt);
            GuardedText(r.captureType, f.captureType, s.captureType, {"single", "queue"})
            && GuardedRange(r.presetIndex, f.presetIndex, s.presetIndex, 0, |Presets| - 1)
  {
    var index := NumIn(s.presetIndex, 0, |Presets| - 1);
    if index.Some? {
      assert IntToString(index.value) in PresetIndexTexts;
    }
  }

  /** The size guards: scale in 1..3, quality in 60..100, and the mode and format options. */
  lemma SizeGuarded(f: Form, s: StoredSettings)
    ensures var r := SizePrefs(f, s);
            GuardedRange(r.scale, f.scale, s.scale, 1, 3)
            && GuardedRange(r.quality, f.quality, s.quality, 60, 100)
            && GuardedRange(r.qualityLabel, f.qualityLabel, s.quality, 60, 100)
            && GuardedText(r.mode, f.mode, s.mode, {"fold", "full"})
            && GuardedText(r.format, f.format, s.format, {"jpg", "webp"})
  {
  }

  /** The size selects and the quality range stay on their options. */
  lemma SizeWhitelisted(f: Form, s: StoredSettings)
    ensures var r := SizePrefs(f, s);
            (r.scale == f.scale || r.scale in ScaleTexts)
            && (r.quality == f.quality || (r.quality in QualityTexts && r.qualityLabel == r.quality))
            && (r.mode == f.mode || r.mode in {"fold", "full"})
            && (r.format == f.format || r.format in {"jpg", "webp"})
  {
    var scale := NumIn(s.scale, 1, 3);
    if scale.Some? {
      assert IntToString(scale.value) in ScaleTexts;
    }
    var quality := NumIn(s.quality, 60, 100);
    if quality.Some? {
      assert IntToString(quality.value) in QualityTexts;
    }
  }

  /** The size fields: a stored number is written to width and height, anything else leaves them. */
  lemma SizeDimensions(f: Form, s: StoredSettings)
    ensures var r := SizePrefs(f, s);
            (s.width.Num? ==> r.width == IntToString(s.width.n)) && (!s.width.Num? ==> r.width == f.width)
            && (s.height.Num? ==> r.height == IntToString(s.height.n)) && (!s.height.Num? ==> r.height == f.height)
  {
  }

  /**
   * The timing guards: the wait option, a consistency delay whose number is
   * 0, 300, 800 or 1500, and a worker count whose number is 1, 2 or 3.
   */
  lemma TimingWhitelisted(f: Form, s: StoredSettings, toNumber: string -> Option<real>)
    ensures var r := TimingPrefs(f, s, toNumber);
            (r.waitUntil == f.waitUntil || r.waitUntil in {"networkidle", "domcontentloaded"})
            && (r.consistencyDelay == f.consistencyDelay
                || NumberOf(s.consistencyDelayMs, toNumber) in {Some(0.0), Some(300.0), Some(800.0), Some(1500.0)})
            && (r.queueConcurrency == f.queueConcurrency
                || NumberOf(s.queueConcurrency, toNumber) in {Some(1.0), Some(2.0), Some(3.0)})
    ensures var r := TimingPrefs(f, s, toNumber);
            GuardedText(r.waitUntil, f.waitUntil, s.waitUntil, {"networkidle", "domcontentloaded"})
            && GuardedCoerced(r.consistencyDelay, f.consistencyDelay, s.consistencyDelayMs, toNumber,
                              {0.0, 300.0, 800.0, 1500.0})
            && GuardedCoerced(r.queueConcurrency, f.queueConcurrency, s.queueConcurrency, toNumber, {1.0, 2.0, 3.0})
    ensures var r := TimingPrefs(f, s, toNumber);
            (s.timeoutMs.Num? ==> r.timeout == IntToString(s.timeoutMs.n))
            && (!s.timeoutMs.Num? ==> r.timeout == f.timeout)
            && (s.delayMs.Num? && s.delayMs.n >= 0 ==> r.delay == IntToString(s.delayMs.n))
            && (!(s.delayMs.Num? && s.delayMs.n >= 0) ==> r.delay == f.delay)
  {
  }

  /**
   * The whitelists: each guarded control ends up with its old value or an
   * accepted one, whatever was stored.
   */
  lemma PreferencesWhitelisted(f: Form, s: StoredSettings, toNumber: string -> Option<real>,
                               parseInt: string -> Option<int>)
    ensures var r := PreferredForm(f, s, toNumber, parseInt);
            (r.scale == f.scale || r.scale in ScaleTexts)
            && (r.quality == f.quality || (r.quality in QualityTexts && r.qualityLabel == r.quality))
            && (r.presetIndex == f.presetIndex || r.presetIndex in PresetIndexTexts)
            && (r.consistencyDelay == f.consistencyDelay
                || NumberOf(s.consistencyDelayMs, toNumber) in {Some(0.0), Some(300.0), Some(800.0), Some(1500.0)})
            && (r.queueConcurrency == f.queueConcurrency
                || NumberOf(s.queueConcurrency, toNumber) in {Some(1.0), Some(2.0), Some(3.0)})
            && (r.cookieHandling == f.cookieHandling || r.cookieHandling in {"off", "hide", "accept"})
            && (r.captureType == f.captureType || r.captureType in {"single", "queue"})
            && (r.mode == f.mode || r.mode in {"fold", "full"})
            && (r.format == f.format || r.format in {"jpg", "webp"})
            && (r.waitUntil == f.waitUntil || r.waitUntil in {"networkidle", "domcontentloaded"})
    ensures var r := PreferredForm(f, s, toNumber, parseInt);
            GuardedRange(r.scale, f.scale, s.scale, 1, 3)
            && GuardedRange(r.quality, f.quality, s.quality, 60, 100)
            && GuardedRange(r.presetIndex, f.presetIndex, s.presetIndex, 0, |Presets| - 1)
            && GuardedCoerced(r.consistencyDelay, f.consistencyDelay, s.consistencyDelayMs, toNumber,
                              {0.0, 300.0, 800.0, 1500.0})
            && GuardedCoerced(r.queueConcurrency, f.queueConcurrency, s.queueConcurrency, toNumber, {1.0, 2.0, 3.0})
            && GuardedText(r.cookieHandling, f.cookieHandling, s.cookieHandling, {"off", "hide", "accept"})
            && GuardedText(r.captureType, f.captureType, s.captureType, {"single", "queue"})
            && GuardedText(r.mode, f.mode, s.mode, {"fold", "full"})
            && GuardedText(r.format, f.format, s.format, {"jpg", "webp"})
            && GuardedText(r.waitUntil, f.waitUntil, s.waitUntil, {"networkidle", "domcontentloaded"})
  {
    var t := TargetPrefs(f, s, parseInt);
    TargetWhitelisted(f, s, parseInt);
    var z := SizePrefs(t, s);
    SizeWhitelisted(t, s);
    SizeGuarded(t, s);
    var m := TimingPrefs(z, s, toNumber);
    TimingWhitelisted(z, s, toNumber);
  }

  /** Applying stored preferences keeps every control on one of its options. */
  lemma PreferredFormValid(f: Form, s: StoredSettings, toNumber: string -> Option<real>,
                           parseInt: string -> Option<int>)
    requires FormValid(f)
    ensures FormValid(PreferredForm(f, s, toNumber, parseInt))
  {
    PreferencesWhitelisted(f, s, toNumber, parseInt);
  }

  /**
   * A property that was not stored (undefined) leaves its control as it
   * was, except the two checkboxes that `Boolean(undefined)` clears.
   */
  lemma PreferencesAbsentKept(f: Form, s: StoredSettings, toNumber: string -> Option<real>,
                              parseInt: string -> Option<int>)
    ensures var r := PreferredForm(f, s, toNumber, parseInt);
            (s.captureType.Undefined? ==> r.captureType == f.captureType)
            && (s.url.Undefined? ==> r.url == f.url)
            && (s.urlList.Undefined? ==> r.urlList == f.urlList)
            && (s.multiSizeEnabled.Undefined? ==> r.multiSizeEnabled == f.multiSizeEnabled)
            && (s.multiSizePresetIds.Undefined? ==> r.presetInputs == f.presetInputs)
            && (s.presetIndex.Undefined? ==> r.presetIndex == f.presetIndex)
            && (s.width.Undefined? ==> r.width == f.width)
            && (s.height.Undefined? ==> r.height == f.height)
            && (s.scale.Undefined? ==> r.scale == f.scale)
            && (s.mode.Undefined? ==> r.mode == f.mode)
            && (s.format.Undefined? ==> r.format == f.format)
            && (s.quality.Undefined? ==> r.quality == f.quality && r.qualityLabel == f.qualityLabel)
            && (s.waitUntil.Undefined? ==> r.waitUntil == f.waitUntil)
            && (s.timeoutMs.Undefined? ==> r.timeout == f.timeout)
            && (s.delayMs.Undefined? ==> r.delay == f.delay)
            && (s.consistencyMode.Undefined? ==> r.consistencyMode == f.consistencyMode)
            && (s.consistencyDelayMs.Undefined? ==> r.consistencyDelay == f.consistencyDelay)
            && (s.queueConcurrency.Undefined? ==> r.queueConcurrency == f.queueConcurrency)
            && (s.cookieHandling.Undefined? ==> r.cookieHandling == f.cookieHandling)
            && (s.cookieSelectors.Undefined? ==> r.cookieSelectors == f.cookieSelectors)
            && (s.suppressAnimations.Undefined? ==> !r.suppressAnimations)
            && (s.appendTimestamp.Undefined? ==> !r.appendTimestamp)
            && (s.outputDir.Undefined? ==> r.folderLabel == f.folderLabel)
  {
  }

  /** Ticking the boxes for a set of ids twice is the same as once. */
  lemma CheckChosenIdempotent(inputs: seq<PresetInput>, chosen: set<int>)
    ensures CheckChosen(CheckChosen(inputs, chosen), chosen) == CheckChosen(inputs, chosen)
  {
  }

  /** Applying the same stored preferences twice gives the form applying them once gives. */
  lemma PreferredFormIdempotent(f: Form, s: StoredSettings, toNumber: string -> Option<real>,
                                parseInt: string -> Option<int>)
    ensures var once := PreferredForm(f, s, toNumber, parseInt);
            PreferredForm(once, s, toNumber, parseInt) == once
  {
    var presetIds := StrPref(s.multiSizePresetIds);
    if presetIds.Some? {
      CheckChosenIdempotent(f.presetInputs, ChosenIds(presetIds.value, parseInt));
    }
  }

  /**
   * The renderer's module state: the active profile, the chosen output
   * folder, and the form controls.
   */
  class RendererState {
    var activeProfile: string
    var selectedOutputDir: string
    var form: Form

    /** The active profile is always one of the profiles. */
    predicate Valid()
      reads this
    {
      activeProfile in ProfileIds
    }

    /**
     * Start-up: `loadPresets` selects preset 1 in the page's initial
     * `controls`, then `setActiveProfile('balanced')`.
     */
    constructor(controls: Form)
      ensures Valid()
      ensures activeProfile == "balanced" && selectedOutputDir == ""
      ensures form == controls.(presetIndex := "1")
    {
      activeProfile := "balanced";
      selectedOutputDir := "";
      form := controls.(presetIndex := "1");
    }

    /** `setActiveProfile`: the profile `id` names, 'balanced' for an unknown id. */
    method SetActiveProfile(id: string)
      modifies this
      ensures Valid()
      ensures activeProfile == ActiveProfileFor(id)
      ensures selectedOutputDir == old(selectedOutputDir) && form == old(form)
    {
      if ProfileOf(id).Some? {
        activeProfile := id;
      } else {
        activeProfile := "balanced";
      }
    }

    /**
     * `applyProfile`: an unknown id changes nothing; a known one writes the
     * profile into the controls and makes it active.
     */
    method ApplyProfile(id: string)
      requires Valid()
      modifies this
      ensures Valid()
      ensures selectedOutputDir == old(selectedOutputDir)
      ensures ProfileOf(id).None? ==> activeProfile == old(activeProfile) && form == old(form)
      ensures ProfileOf(id).Some? ==> activeProfile == id && form == ProfileForm(old(form), ProfileOf(id).value)
      ensures FormValid(old(form)) ==> FormValid(form)
    {
      var profile := ProfileOf(id);
      if profile.None? {
        return;
      }
      var p := profile.value;
      form := form.(scale := IntToString(p.scale));
      form := form.(quality := IntToString(p.quality));
      form := form.(qualityLabel := IntToString(p.quality));
      form := form.(waitUntil := p.waitUntil);
      form := form.(timeout := IntToString(p.timeoutMs));
      form := form.(delay := IntToString(p.delayMs));
      form := form.(queueConcurrency := IntToString(p.queueConcurrency));
      form := form.(suppressAnimations := p.suppressAnimations);
      form := form.(cookieHandling := p.cookieHandling);
      SetActiveProfile(id);
      assert form == ProfileForm(old(form), p);
      if FormValid(old(form)) {
        ProfileFormValid(old(form), p);
      }
    }

    /**
     * `applyPreferences(settings)`: nothing for a value that is not an
     * object; otherwise the profile, the guarded controls, and the output
     * folder.
     */
    method ApplyPreferences(settings: Value, toNumber: string -> Option<real>, parseInt: string -> Option<int>)
      requires Valid()
      modifies this
      ensures Valid()
      ensures !IsObject(settings) ==>
                activeProfile == old(activeProfile) && selectedOutputDir == old(selectedOutputDir) && form == old(form)
      ensures IsObject(settings) ==>
                activeProfile == PreferredProfile(old(activeProfile), ReadSettings(settings))
                && selectedOutputDir == PreferredOutputDir(old(selectedOutputDir), ReadSettings(settings))
                && form == PreferredForm(old(form), ReadSettings(settings), toNumber, parseInt)
    {
      if !IsObject(settings) {
        return;
      }
      var s := ReadSettings(settings);
      var controls := PreferredForm(form, s, toNumber, parseInt);
      if s.profile.Str? {
        SetActiveProfile(s.profile.s);
      }
      form := controls;
      if s.outputDir.Str? && Trim(s.outputDir.s) != "" {
        selectedOutputDir := s.outputDir.s;
      }
    }
  }
}
