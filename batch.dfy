/**
 * The `capture-batch-request` handler of src/main/index.js: the work items,
 * the per-job payload, the worker pool that claims indices from a shared
 * counter, and the counters, results and progress messages it produces.
 *
 * The workers run concurrently in the source; they interleave only at the
 * `await` of a capture. The model runs them as one loop in which, at every
 * step, some worker whose capture is in flight (any of them, chosen by `:|`)
 * completes. The capture outcomes and the measured durations are given per
 * work item.
 */
module Batch {
  import opened Wrappers
  import opened Text
  import opened Js
  import Validation

  /** `normalizeQueueConcurrency`, given the parse of `String(value)`. */
  function NormalizeQueueConcurrency(parsed: Option<int>): (r: int)
    ensures 1 <= r <= 3
    ensures parsed.None? ==> r == 2
    ensures parsed.Some? && 1 <= parsed.value <= 3 ==> r == parsed.value
    ensures parsed.Some? && parsed.value < 1 ==> r == 1
    ensures parsed.Some? && parsed.value > 3 ==> r == 3
  {
    if parsed.None? then 2 else Validation.Clamp(parsed.value, 1, 3)
  }

  /**
   * The batch and the single-capture normalisation agree on every given
   * value except 0, which the batch clamps to 1 and the capture input
   * replaces by its default 2.
   */
  lemma QueueConcurrencyAgreement(parsed: Option<int>)
    ensures NormalizeQueueConcurrency(parsed) == Validation.QueueConcurrency(Validation.Given(parsed))
            <==> parsed != Some(0)
  {
  }

  // -------------------------------------------------------------- payload

  /** The request of a batch, as the handler receives it. */
  datatype BatchPayload = BatchPayload(urls: Value, jobs: Value, batchId: Value, settings: Value)

  /** `Array.isArray(v) ? v : []`. */
  function ArrayOrEmpty(v: Value): seq<Value> {
    if v.Arr? then v.items else []
  }

  /** `{ ...(payload.settings || {}), appendTimestamp: true }`. */
  function BatchSettings(settings: Value): map<string, Value> {
    Spread(OwnFields(settings), map["appendTimestamp" := Bool(true)])
  }

  /** The work items: the jobs when there are any, otherwise one `{ url }` per URL. */
  function WorkItems(payload: BatchPayload): (r: seq<Value>)
    ensures |ArrayOrEmpty(payload.jobs)| > 0 ==> r == ArrayOrEmpty(payload.jobs)
    ensures |ArrayOrEmpty(payload.jobs)| == 0 ==>
              |r| == |ArrayOrEmpty(payload.urls)|
              && forall i :: 0 <= i < |r| ==> r[i] == Obj(map["url" := ArrayOrEmpty(payload.urls)[i]])
  {
    var jobs := ArrayOrEmpty(payload.jobs);
    var urls := ArrayOrEmpty(payload.urls);
    if |jobs| > 0 then jobs
    else seq(|urls|, i requires 0 <= i < |urls| => Obj(map["url" := urls[i]]))
  }

  /** The payload of one capture: `{ ...batchSettings, ...item, url }`. */
  function JobPayload(settings: Value, item: Value): map<string, Value> {
    Spread(Spread(BatchSettings(settings), OwnFields(item)), map["url" := Prop(item, "url")])
  }

  /**
   * A job's payload has the item's url, the item's own value of every other
   * field it sets, the batch setting otherwise, and `appendTimestamp` true
   * unless the item sets it.
   */
  lemma JobPayloadFields(settings: Value, item: Value, key: string)
    ensures JobPayload(settings, item)["url"] == Prop(item, "url")
    ensures key != "url" && key in OwnFields(item) ==>
              key in JobPayload(settings, item) && JobPayload(settings, item)[key] == OwnFields(item)[key]
    ensures key != "url" && key != "appendTimestamp" && key !in OwnFields(item) ==>
              Get(JobPayload(settings, item), key) == Get(OwnFields(settings), key)
    ensures "appendTimestamp" !in OwnFields(item) ==>
              JobPayload(settings, item)["appendTimestamp"] == Bool(true)
  {
    var base := BatchSettings(settings);
    var own := OwnFields(item);
    SpreadUrl(Spread(base, own), Prop(item, "url"), key);
    SpreadUrl(Spread(base, own), Prop(item, "url"), "appendTimestamp");
  }

  /** Overriding `url` in an object leaves every other key as it was. */
  lemma SpreadUrl(fields: map<string, Value>, url: Value, key: string)
    ensures Spread(fields, map["url" := url])["url"] == url
    ensures key != "url" ==> Get(Spread(fields, map["url" := url]), key) == Get(fields, key)
  {
  }

  // -------------------------------------------------------------- outcomes

  /** What a capture resolved with, or the message of what it threw. */
  datatype Outcome = Captured(outputPath: string, pixelWidth: int, pixelHeight: int) | Threw(error: string)

  /** One entry of `results`. */
  datatype Entry =
    | Succeeded(url: Value, sizeLabel: Value, outputPath: string, pixelWidth: int, pixelHeight: int, durationMs: int)
    | Failed(url: Value, sizeLabel: Value, error: string, durationMs: int)

  /** `item.sizeLabel || null`. */
  function SizeLabel(item: Value): Value {
    if Truthy(Prop(item, "sizeLabel")) then Prop(item, "sizeLabel") else Null
  }

  function EntryFor(item: Value, outcome: Outcome, durationMs: int): (e: Entry)
    ensures e.url == Prop(item, "url") && e.sizeLabel == SizeLabel(item) && e.durationMs == durationMs
    ensures e.Succeeded? <==> outcome.Captured?
    ensures outcome.Captured? ==>
              e.outputPath == outcome.outputPath && e.pixelWidth == outcome.pixelWidth
              && e.pixelHeight == outcome.pixelHeight
    ensures outcome.Threw? ==> e.error == outcome.error
  {
    match outcome
    case Captured(path, w, h) => Succeeded(Prop(item, "url"), SizeLabel(item), path, w, h, durationMs)
    case Threw(message) => Failed(Prop(item, "url"), SizeLabel(item), message, durationMs)
  }

  /** `currentUrl` of a progress message: the url, with the size label in parentheses when there is one. */
  function CurrentUrl(item: Value): Value {
    var size := SizeLabel(item);
    if Truthy(size) then Str(ToStr(Prop(item, "url")) + " (" + ToStr(size) + ")") else Prop(item, "url")
  }

  /** `Math.round(a / b)` for b > 0: the nearest integer, halves rounded up. */
  function RoundDiv(a: int, b: int): int
    requires b > 0
  {
    (2 * a + b) / (2 * b)
  }

  lemma RoundDivNearest(a: int, b: int)
    requires b > 0
    ensures 2 * RoundDiv(a, b) * b <= 2 * a + b < 2 * RoundDiv(a, b) * b + 2 * b
  {
    var q := RoundDiv(a, b);
    assert 2 * a + b == q * (2 * b) + (2 * a + b) % (2 * b);
  }

  /** `completed > 0 ? Math.round(totalDurationMs / completed) : 0`. */
  function AvgDuration(totalDurationMs: int, completed: nat): int {
    if completed > 0 then RoundDiv(totalDurationMs, completed) else 0
  }

  datatype Progress = Progress(batchId: Value, completed: nat, total: nat, successCount: nat, failureCount: nat,
                               currentUrl: Value, avgDurationMs: int, queueConcurrency: int)

  datatype Summary = Summary(batchId: Value, total: nat, completed: nat, successCount: nat, failureCount: nat,
                             queueConcurrency: int, avgDurationMs: int, maxDurationMs: int, results: seq<Entry>)

  // ---------------------------------------------------- counting helpers

  /** The sum of `w[i]` over the indices that have a result. */
  function SumDone(w: seq<int>, results: seq<Option<Entry>>): int
    requires |w| == |results|
  {
    if results == [] then 0
    else SumDone(w[..|w| - 1], results[..|results| - 1])
         + (if results[|results| - 1].Some? then w[|w| - 1] else 0)
  }

  function Sum(w: seq<int>): int {
    if w == [] then 0 else Sum(w[..|w| - 1]) + w[|w| - 1]
  }

  /** Filling in one more result adds its weight. */
  lemma {:induction false} SumDoneFill(w: seq<int>, results: seq<Option<Entry>>, j: nat, e: Entry)
    requires |w| == |results| && j < |results| && results[j].None?
    ensures SumDone(w, results[j := Some(e)]) == SumDone(w, results) + w[j]
    decreases |results|
  {
    var n := |results| - 1;
    var filled := results[j := Some(e)];
    if j < n {
      assert filled[..n] == results[..n][j := Some(e)];
      SumDoneFill(w[..n], results[..n], j, e);
    } else {
      assert filled[..n] == results[..n];
    }
  }

  lemma {:induction false} SumDoneAll(w: seq<int>, results: seq<Option<Entry>>)
    requires |w| == |results| && forall i :: 0 <= i < |results| ==> results[i].Some?
    ensures SumDone(w, results) == Sum(w)
    decreases |results|
  {
    if results != [] {
      SumDoneAll(w[..|w| - 1], results[..|results| - 1]);
    }
  }

  lemma {:induction false} SumDoneNone(w: seq<int>, results: seq<Option<Entry>>)
    requires |w| == |results| && forall i :: 0 <= i < |results| ==> results[i].None?
    ensures SumDone(w, results) == 0
    decreases |results|
  {
    if results != [] {
      SumDoneNone(w[..|w| - 1], results[..|results| - 1]);
    }
  }

  /** The number of workers with a capture in flight. */
  function CountBusy(slots: seq<Option<nat>>): nat {
    if slots == [] then 0 else CountBusy(slots[..|slots| - 1]) + (if slots[|slots| - 1].Some? then 1 else 0)
  }

  lemma {:induction false} CountBusyUpdate(slots: seq<Option<nat>>, k: nat, x: Option<nat>)
    requires k < |slots| && slots[k].Some?
    ensures CountBusy(slots[k := x]) == CountBusy(slots) - 1 + (if x.Some? then 1 else 0)
    decreases |slots|
  {
    var n := |slots| - 1;
    if k < n {
      assert slots[k := x][..n] == slots[..n][k := x];
      CountBusyUpdate(slots[..n], k, x);
    } else {
      assert slots[k := x][..n] == slots[..n];
    }
  }

  lemma {:induction false} CountBusyZero(slots: seq<Option<nat>>)
    requires CountBusy(slots) == 0
    ensures forall k :: 0 <= k < |slots| ==> slots[k].None?
    decreases |slots|
  {
    if slots != [] {
      CountBusyZero(slots[..|slots| - 1]);
      forall k | 0 <= k < |slots| - 1 ensures slots[k].None? {
        assert slots[k] == slots[..|slots| - 1][k];
      }
    }
  }

  lemma {:induction false} CountBusyPositive(slots: seq<Option<nat>>)
    requires CountBusy(slots) > 0
    ensures exists k :: 0 <= k < |slots| && slots[k].Some?
    decreases |slots|
  {
    var n := |slots| - 1;
    if !slots[n].Some? {
      CountBusyPositive(slots[..n]);
      var k :| 0 <= k < n && slots[..n][k].Some?;
      assert slots[k].Some?;
    }
  }

  lemma {:induction false} CountBusyAtMost(slots: seq<Option<nat>>)
    ensures CountBusy(slots) <= |slots|
    decreases |slots|
  {
    if slots != [] {
      CountBusyAtMost(slots[..|slots| - 1]);
    }
  }

  predicate IsBusy(slots: seq<Option<nat>>, i: nat) {
    exists k :: 0 <= k < |slots| && slots[k] == Some(i)
  }

  /** Every claimed index is in flight in exactly one worker. */
  predicate Claims(slots: seq<Option<nat>>, nextIndex: nat, total: nat) {
    && (forall k :: 0 <= k < |slots| && slots[k].Some? ==> slots[k].value < total && slots[k].value < nextIndex)
    && (forall k1, k2 :: 0 <= k1 < k2 < |slots| && slots[k1].Some? && slots[k2].Some? ==>
          slots[k1].value != slots[k2].value)
  }

  /** An index has a result exactly when it was claimed and is no longer in flight. */
  predicate DoneExactly(slots: seq<Option<nat>>, results: seq<Option<Entry>>, nextIndex: nat) {
    forall i :: 0 <= i < |results| ==> (results[i].Some? <==> i < nextIndex && !IsBusy(slots, i))
  }

  /**
   * Completing the capture of worker `k` and letting it claim `nextIndex`
   * keeps the claims consistent with the results.
   */
  lemma CompleteKeepsClaims(slots: seq<Option<nat>>, results: seq<Option<Entry>>, nextIndex: nat,
                            k: nat, e: Entry)
    requires k < |slots| && slots[k].Some?
    requires Claims(slots, nextIndex, |results|) && DoneExactly(slots, results, nextIndex)
    ensures var slots' := slots[k := if nextIndex >= |results| then None else Some(nextIndex)];
            var results' := results[slots[k].value := Some(e)];
            Claims(slots', nextIndex + 1, |results'|) && DoneExactly(slots', results', nextIndex + 1)
  {
    var total := |results|;
    var index := slots[k].value;
    var slots' := slots[k := if nextIndex >= total then None else Some(nextIndex)];
    var results' := results[index := Some(e)];
    forall i | 0 <= i < total
      ensures results'[i].Some? <==> i < nextIndex + 1 && !IsBusy(slots', i)
    {
      if i == index {
        forall j | 0 <= j < |slots'| ensures slots'[j] != Some(i) {
          if j != k {
            assert slots'[j] == slots[j];
          }
        }
      } else if i == nextIndex {
        assert !IsBusy(slots, i);
        assert slots'[k] == Some(i);
      } else {
        if IsBusy(slots, i) {
          var j :| 0 <= j < |slots| && slots[j] == Some(i);
          assert slots'[j] == Some(i);
        }
        if IsBusy(slots', i) {
          var j :| 0 <= j < |slots'| && slots'[j] == Some(i);
          assert j != k && slots[j] == Some(i);
        }
      }
    }
  }

  function OkWeights(outcomes: seq<Outcome>): (r: seq<int>)
    ensures |r| == |outcomes| && forall i :: 0 <= i < |r| ==> r[i] == (if outcomes[i].Captured? then 1 else 0)
  {
    seq(|outcomes|, i requires 0 <= i < |outcomes| => if outcomes[i].Captured? then 1 else 0)
  }

  /** Every result present is the entry of its work item. */
  predicate ResultsAgree(results: seq<Option<Entry>>, items: seq<Value>, outcomes: seq<Outcome>, durations: seq<int>)
    requires |results| == |items| == |outcomes| == |durations|
  {
    forall i :: 0 <= i < |results| && results[i].Some? ==> results[i].value == EntryFor(items[i], outcomes[i], durations[i])
  }

  /** `maxDurationMs` is the largest of 0 and the durations of the completed jobs. */
  predicate MaxOfDone(maxDurationMs: int, durations: seq<int>, results: seq<Option<Entry>>)
    requires |durations| == |results|
  {
    && 0 <= maxDurationMs
    && (forall i :: 0 <= i < |results| && results[i].Some? ==> durations[i] <= maxDurationMs)
    && (maxDurationMs == 0 || exists i :: 0 <= i < |results| && results[i].Some? && maxDurationMs == durations[i])
  }

  /** The completion order lists distinct completed indices. */
  predicate CompletionOrder(order: seq<nat>, results: seq<Option<Entry>>) {
    && (forall t :: 0 <= t < |order| ==> order[t] < |results| && results[order[t]].Some?)
    && (forall s, t :: 0 <= s < t < |order| ==> order[s] != order[t])
  }

  /** The `t`-th progress message reports `t + 1` completions and the `t`-th completed item. */
  predicate ProgressLog(progress: seq<Progress>, order: seq<nat>, items: seq<Value>, batchId: Value, queueConcurrency: int)
    requires |progress| == |order|
    requires forall t :: 0 <= t < |order| ==> order[t] < |items|
  {
    forall t :: 0 <= t < |progress| ==>
      && progress[t].completed == t + 1 && progress[t].total == |items|
      && progress[t].successCount + progress[t].failureCount == t + 1
      && progress[t].currentUrl == CurrentUrl(items[order[t]])
      && progress[t].batchId == batchId && progress[t].queueConcurrency == queueConcurrency
  }

  /** The sum of `w[j]` over the indices `j` listed in `idx`. */
  function SumAt(w: seq<int>, idx: seq<nat>): int
    requires forall t :: 0 <= t < |idx| ==> idx[t] < |w|
  {
    if idx == [] then 0 else SumAt(w, idx[..|idx| - 1]) + w[idx[|idx| - 1]]
  }

  /**
   * The running figures of the `t`-th progress message: the successes and
   * the rounded mean duration of the first `t + 1` completed jobs.
   */
  predicate RunningTotals(progress: seq<Progress>, order: seq<nat>, outcomes: seq<Outcome>, durations: seq<int>)
    requires |progress| == |order| && |outcomes| == |durations|
    requires forall t :: 0 <= t < |order| ==> order[t] < |durations|
  {
    forall t :: 0 <= t < |progress| ==>
      && progress[t].successCount == SumAt(OkWeights(outcomes), order[..t + 1])
      && progress[t].avgDurationMs == AvgDuration(SumAt(durations, order[..t + 1]), t + 1)
  }

  /** A message for one more completion extends the running figures. */
  lemma RunningTotalsStep(progress: seq<Progress>, order: seq<nat>, outcomes: seq<Outcome>, durations: seq<int>,
                          index: nat, p: Progress)
    requires |progress| == |order| && |outcomes| == |durations| && index < |durations|
    requires forall t :: 0 <= t < |order| ==> order[t] < |durations|
    requires RunningTotals(progress, order, outcomes, durations)
    requires p.successCount == SumAt(OkWeights(outcomes), order) + OkWeights(outcomes)[index]
    requires p.avgDurationMs == AvgDuration(SumAt(durations, order) + durations[index], |order| + 1)
    ensures SumAt(durations, order + [index]) == SumAt(durations, order) + durations[index]
    ensures SumAt(OkWeights(outcomes), order + [index]) == SumAt(OkWeights(outcomes), order) + OkWeights(outcomes)[index]
    ensures RunningTotals(progress + [p], order + [index], outcomes, durations)
  {
    var order' := order + [index];
    assert order'[..|order|] == order;
    forall t | 0 <= t < |progress| + 1
      ensures (progress + [p])[t] == (if t < |progress| then progress[t] else p)
      ensures order'[..t + 1] == (if t < |order| then order[..t + 1] else order')
    {
    }
  }

  /** Recording the completion of item `index` keeps the records above. */
  lemma CompleteKeepsRecords(results: seq<Option<Entry>>, items: seq<Value>, outcomes: seq<Outcome>, durations: seq<int>,
                             maxDurationMs: int, order: seq<nat>, progress: seq<Progress>,
                             batchId: Value, queueConcurrency: int, index: nat, p: Progress)
    requires |results| == |items| == |outcomes| == |durations| && index < |results| && results[index].None?
    requires |progress| == |order|
    requires ResultsAgree(results, items, outcomes, durations) && MaxOfDone(maxDurationMs, durations, results)
    requires CompletionOrder(order, results) && ProgressLog(progress, order, items, batchId, queueConcurrency)
    requires p.completed == |order| + 1 && p.total == |items| && p.successCount + p.failureCount == |order| + 1
    requires p.currentUrl == CurrentUrl(items[index]) && p.batchId == batchId && p.queueConcurrency == queueConcurrency
    ensures var results' := results[index := Some(EntryFor(items[index], outcomes[index], durations[index]))];
            && ResultsAgree(results', items, outcomes, durations)
            && MaxOfDone(Validation.Max(maxDurationMs, durations[index]), durations, results')
            && CompletionOrder(order + [index], results')
            && ProgressLog(progress + [p], order + [index], items, batchId, queueConcurrency)
  {
    var results' := results[index := Some(EntryFor(items[index], outcomes[index], durations[index]))];
    assert ResultsAgree(results', items, outcomes, durations);
    var m := Validation.Max(maxDurationMs, durations[index]);
    assert MaxOfDone(m, durations, results') by {
      if m != 0 && m != durations[index] {
        var i :| 0 <= i < |results| && results[i].Some? && maxDurationMs == durations[i];
        assert results'[i].Some?;
      }
    }
    var order' := order + [index];
    assert CompletionOrder(order', results') by {
      forall s, t | 0 <= s < t < |order'| ensures order'[s] != order'[t] {
        if t == |order| {
          assert results[order[s]].Some?;
        }
      }
    }
    assert ProgressLog(progress + [p], order', items, batchId, queueConcurrency) by {
      forall t | 0 <= t < |progress| + 1
        ensures (progress + [p])[t] == (if t < |progress| then progress[t] else p)
        ensures order'[t] == (if t < |order| then order[t] else index)
      {
      }
    }
  }

  // ------------------------------------------------------------ the batch

  /**
   * `Promise.all(Array.from({ length: workers }, () => worker()))` up to the
   * first `await` of each worker: worker `k` claims index `k`, and a worker
   * whose index is past the end returns at once.
   */
  method StartWorkers(workers: nat, total: nat) returns (slots: seq<Option<nat>>, nextIndex: nat)
    ensures slots == FirstClaims(workers, total) && nextIndex == workers
    ensures forall k :: 0 <= k < workers ==> slots[k] == (if k < total then Some(k) else None)
    ensures CountBusy(slots) == Validation.Min(workers, total)
  {
    nextIndex := 0;
    slots := [];
    while |slots| < workers
      invariant |slots| <= workers && nextIndex == |slots|
      invariant slots == FirstClaims(|slots|, total)
    {
      var index := nextIndex;
      nextIndex := nextIndex + 1;
      slots := slots + [if index >= total then None else Some(index)];
      assert slots == FirstClaims(|slots|, total);
    }
    CountFirstClaims(workers, total);
  }

  /** The slots of the first `n` workers after their first claim. */
  function FirstClaims(n: nat, total: nat): (r: seq<Option<nat>>)
    ensures |r| == n
    ensures forall k :: 0 <= k < n ==> r[k] == (if k < total then Some(k) else None)
  {
    seq(n, k requires 0 <= k < n => if k < total then Some(k) else None)
  }

  /** Of the first `n` workers, `min(n, total)` have a capture in flight. */
  lemma {:induction false} CountFirstClaims(n: nat, total: nat)
    ensures CountBusy(FirstClaims(n, total)) == Validation.Min(n, total)
  {
    if n > 0 {
      assert FirstClaims(n, total)[..n - 1] == FirstClaims(n - 1, total);
      CountFirstClaims(n - 1, total);
    }
  }

  /**
   * The variables the workers share: their slots (the index each one has in
   * flight), `nextIndex`, the results so far, the counters, and what has
   * been sent.
   */
  datatype Pool = Pool(slots: seq<Option<nat>>, nextIndex: nat, done: seq<Option<Entry>>, completed: nat,
                       successCount: nat, failureCount: nat, totalDurationMs: int, maxDurationMs: int,
                       order: seq<nat>, progress: seq<Progress>)

  /** What holds of the shared variables between two completions. */
  predicate PoolInv(pool: Pool, items: seq<Value>, outcomes: seq<Outcome>, durations: seq<int>,
                    batchId: Value, queueConcurrency: int, workers: nat)
  {
    && PoolShape(pool, |items|, workers)
    && |outcomes| == |items| && |durations| == |items|
    && PoolTotals(pool, items, outcomes, durations)
    && PoolLog(pool, items, batchId, queueConcurrency)
    && PoolRunning(pool, outcomes, durations)
  }

  /** The claims: which indices are in flight, which are done. */
  predicate PoolShape(pool: Pool, total: nat, workers: nat) {
    && |pool.slots| == workers && |pool.done| == total
    && pool.nextIndex == workers + pool.completed
    && CountBusy(pool.slots) == Validation.Min(pool.nextIndex, total) - pool.completed
    && Claims(pool.slots, pool.nextIndex, total) && DoneExactly(pool.slots, pool.done, pool.nextIndex)
  }

  /** The results and the running totals over them. */
  predicate PoolTotals(pool: Pool, items: seq<Value>, outcomes: seq<Outcome>, durations: seq<int>)
    requires |pool.done| == |items| == |outcomes| == |durations|
  {
    && ResultsAgree(pool.done, items, outcomes, durations)
    && pool.completed == pool.successCount + pool.failureCount
    && pool.successCount == SumDone(OkWeights(outcomes), pool.done)
    && pool.totalDurationMs == SumDone(durations, pool.done)
    && MaxOfDone(pool.maxDurationMs, durations, pool.done)
  }

  /** What was sent, in completion order. */
  predicate PoolLog(pool: Pool, items: seq<Value>, batchId: Value, queueConcurrency: int)
    requires |pool.done| == |items|
  {
    && |pool.order| == pool.completed && |pool.progress| == pool.completed
    && CompletionOrder(pool.order, pool.done)
    && ProgressLog(pool.progress, pool.order, items, batchId, queueConcurrency)
  }

  /** The counters and the running figures, as sums over the completion order. */
  predicate PoolRunning(pool: Pool, outcomes: seq<Outcome>, durations: seq<int>)
    requires |outcomes| == |durations| && |pool.progress| == |pool.order|
    requires forall t :: 0 <= t < |pool.order| ==> pool.order[t] < |durations|
  {
    && pool.successCount == SumAt(OkWeights(outcomes), pool.order)
    && pool.totalDurationMs == SumAt(durations, pool.order)
    && RunningTotals(pool.progress, pool.order, outcomes, durations)
  }

  /**
   * One worker's loop iteration after its capture settles: it adds the
   * duration, updates the maximum and the counters, stores the result,
   * sends a progress message, and claims the next index.
   */
  method CompleteOne(pool: Pool, k: nat, items: seq<Value>, outcomes: seq<Outcome>, durations: seq<int>,
                     batchId: Value, queueConcurrency: int, workers: nat)
    returns (pool': Pool)
    requires PoolInv(pool, items, outcomes, durations, batchId, queueConcurrency, workers)
    requires k < |pool.slots| && pool.slots[k].Some?
    ensures PoolInv(pool', items, outcomes, durations, batchId, queueConcurrency, workers)
    ensures pool'.completed == pool.completed + 1
  {
    var total := |items|;
    var slots, nextIndex, done := pool.slots, pool.nextIndex, pool.done;
    var index := slots[k].value;
    assert done[index].None? by {
      assert IsBusy(slots, index);
    }
    var item := items[index];
    var durationMs := durations[index];

    var totalDurationMs := pool.totalDurationMs + durationMs;
    var maxDurationMs := Validation.Max(pool.maxDurationMs, durationMs);
    var completed := pool.completed + 1;
    var successCount, failureCount := pool.successCount, pool.failureCount;
    var entry := EntryFor(item, outcomes[index], durationMs);
    if outcomes[index].Captured? {
      successCount := successCount + 1;
    } else {
      failureCount := failureCount + 1;
    }
    var message := Progress(batchId, completed, total, successCount, failureCount,
                            CurrentUrl(item), AvgDuration(totalDurationMs, completed), queueConcurrency);
    done := done[index := Some(entry)];

    // The same worker claims its next index at once.
    var next := nextIndex;
    nextIndex := nextIndex + 1;
    slots := slots[k := if next >= total then None else Some(next)];

    pool' := Pool(slots, nextIndex, done, completed, successCount, failureCount, totalDurationMs, maxDurationMs,
                  pool.order + [index], pool.progress + [message]);
    ShapeStep(pool, pool', k, total, workers, entry);
    RecordStep(pool, pool', items, outcomes, durations, batchId, queueConcurrency, index);
    RecordRunning(pool, pool', outcomes, durations, index, message);
  }

  /** A completion followed by a claim keeps the claims consistent. */
  lemma ShapeStep(pool: Pool, pool': Pool, k: nat, total: nat, workers: nat, entry: Entry)
    requires PoolShape(pool, total, workers)
    requires k < |pool.slots| && pool.slots[k].Some?
    requires pool'.slots == pool.slots[k := if pool.nextIndex >= total then None else Some(pool.nextIndex)]
    requires pool'.done == pool.done[pool.slots[k].value := Some(entry)]
    requires pool'.nextIndex == pool.nextIndex + 1 && pool'.completed == pool.completed + 1
    ensures PoolShape(pool', total, workers)
  {
    CountBusyUpdate(pool.slots, k, if pool.nextIndex >= total then None else Some(pool.nextIndex));
    CompleteKeepsClaims(pool.slots, pool.done, pool.nextIndex, k, entry);
  }

  /** Recording the completion of `index` keeps the totals and the log. */
  lemma RecordStep(pool: Pool, pool': Pool, items: seq<Value>, outcomes: seq<Outcome>, durations: seq<int>,
                   batchId: Value, queueConcurrency: int, index: nat)
    requires |pool.done| == |items| == |outcomes| == |durations| && index < |items| && pool.done[index].None?
    requires PoolTotals(pool, items, outcomes, durations) && PoolLog(pool, items, batchId, queueConcurrency)
    requires pool'.done == pool.done[index := Some(EntryFor(items[index], outcomes[index], durations[index]))]
    requires pool'.completed == pool.completed + 1
    requires pool'.successCount == pool.successCount + (if outcomes[index].Captured? then 1 else 0)
    requires pool'.failureCount == pool.failureCount + (if outcomes[index].Captured? then 0 else 1)
    requires pool'.totalDurationMs == pool.totalDurationMs + durations[index]
    requires pool'.maxDurationMs == Validation.Max(pool.maxDurationMs, durations[index])
    requires pool'.order == pool.order + [index] && |pool'.progress| == |pool.progress| + 1
    requires pool'.progress[..|pool.progress|] == pool.progress
    requires var p := pool'.progress[|pool.progress|];
      && p.completed == pool'.completed && p.total == |items|
      && p.successCount == pool'.successCount && p.failureCount == pool'.failureCount
      && p.currentUrl == CurrentUrl(items[index]) && p.batchId == batchId && p.queueConcurrency == queueConcurrency
    ensures PoolTotals(pool', items, outcomes, durations) && PoolLog(pool', items, batchId, queueConcurrency)
  {
    var entry := EntryFor(items[index], outcomes[index], durations[index]);
    var message := pool'.progress[|pool.progress|];
    assert pool'.progress == pool.progress + [message];
    SumDoneFill(durations, pool.done, index, entry);
    SumDoneFill(OkWeights(outcomes), pool.done, index, entry);
    CompleteKeepsRecords(pool.done, items, outcomes, durations, pool.maxDurationMs, pool.order, pool.progress,
                         batchId, queueConcurrency, index, message);
  }

  /** The completion of `index`, with its message `p`, keeps the running figures. */
  lemma RecordRunning(pool: Pool, pool': Pool, outcomes: seq<Outcome>, durations: seq<int>, index: nat, p: Progress)
    requires |outcomes| == |durations| && index < |durations| && |pool.progress| == |pool.order|
    requires forall t :: 0 <= t < |pool.order| ==> pool.order[t] < |durations|
    requires PoolRunning(pool, outcomes, durations)
    requires pool'.order == pool.order + [index] && pool'.progress == pool.progress + [p]
    requires pool'.successCount == pool.successCount + (if outcomes[index].Captured? then 1 else 0)
    requires pool'.totalDurationMs == pool.totalDurationMs + durations[index]
    requires p.successCount == pool'.successCount
    requires p.avgDurationMs == AvgDuration(pool'.totalDurationMs, |pool.order| + 1)
    ensures PoolRunning(pool', outcomes, durations)
  {
    RunningTotalsStep(pool.progress, pool.order, outcomes, durations, index, p);
  }

  /** The shared variables once every worker has made its first claim. */
  lemma InitialPool(items: seq<Value>, outcomes: seq<Outcome>, durations: seq<int>,
                    batchId: Value, queueConcurrency: int, workers: nat, slots0: seq<Option<nat>>)
    requires |outcomes| == |items| && |durations| == |items| && workers >= 1
    requires slots0 == FirstClaims(workers, |items|)
    ensures PoolInv(Pool(slots0, workers, seq(|items|, _ => None), 0, 0, 0, 0, 0, [], []),
                    items, outcomes, durations, batchId, queueConcurrency, workers)
  {
    var done: seq<Option<Entry>> := seq(|items|, _ => None);
    var pool := Pool(slots0, workers, done, 0, 0, 0, 0, 0, [], []);
    CountFirstClaims(workers, |items|);
    assert Claims(slots0, workers, |items|);
    assert DoneExactly(slots0, done, workers) by {
      forall i | 0 <= i < |items| && i < workers ensures IsBusy(slots0, i) {
        assert slots0[i] == Some(i);
      }
    }
    assert PoolTotals(pool, items, outcomes, durations) by {
      SumDoneNone(durations, done);
      SumDoneNone(OkWeights(outcomes), done);
    }
  }

  /** When no capture is in flight, every work item has its result. */
  lemma FinalPool(pool: Pool, items: seq<Value>, outcomes: seq<Outcome>, durations: seq<int>,
                  batchId: Value, queueConcurrency: int, workers: nat)
    requires PoolInv(pool, items, outcomes, durations, batchId, queueConcurrency, workers) && workers >= 1
    requires CountBusy(pool.slots) == 0
    ensures pool.completed == |items|
    ensures forall i :: 0 <= i < |items| ==> pool.done[i] == Some(EntryFor(items[i], outcomes[i], durations[i]))
    ensures pool.successCount == Sum(OkWeights(outcomes)) && pool.totalDurationMs == Sum(durations)
    ensures pool.successCount + pool.failureCount == |items|
    ensures 0 <= pool.maxDurationMs && forall i :: 0 <= i < |durations| ==> durations[i] <= pool.maxDurationMs
    ensures pool.maxDurationMs == 0 || exists i :: 0 <= i < |durations| && pool.maxDurationMs == durations[i]
  {
    CountBusyZero(pool.slots);
    forall i | 0 <= i < |items| ensures pool.done[i].Some? {
      assert !IsBusy(pool.slots, i);
    }
    SumDoneAll(durations, pool.done);
    SumDoneAll(OkWeights(outcomes), pool.done);
  }

  /** What the pool invariant says about the completion order and the log. */
  lemma PoolRecords(pool: Pool, items: seq<Value>, outcomes: seq<Outcome>, durations: seq<int>,
                    batchId: Value, queueConcurrency: int, workers: nat)
    requires PoolInv(pool, items, outcomes, durations, batchId, queueConcurrency, workers)
    requires pool.completed == |items|
    ensures |pool.order| == |items| && |pool.progress| == |items|
    ensures forall t :: 0 <= t < |pool.order| ==> pool.order[t] < |items|
    ensures forall s, t :: 0 <= s < t < |pool.order| ==> pool.order[s] != pool.order[t]
    ensures ProgressLog(pool.progress, pool.order, items, batchId, queueConcurrency)
    ensures RunningTotals(pool.progress, pool.order, outcomes, durations)
  {
  }

  /**
   * Between two completions at most `workers` captures are in flight, and
   * never more than there are work items.
   */
  lemma InFlightBound(pool: Pool, items: seq<Value>, outcomes: seq<Outcome>, durations: seq<int>,
                      batchId: Value, queueConcurrency: int, workers: nat)
    requires PoolInv(pool, items, outcomes, durations, batchId, queueConcurrency, workers)
    ensures CountBusy(pool.slots) <= workers && CountBusy(pool.slots) <= |items|
  {
    CountBusyAtMost(pool.slots);
  }

  /**
   * The workers' loops after their first claim, until every worker has
   * returned: at each step some worker whose capture is in flight, any of
   * them, completes.
   */
  method RunWorkers(items: seq<Value>, outcomes: seq<Outcome>, durations: seq<int>,
                    batchId: Value, queueConcurrency: int, workers: nat, slots0: seq<Option<nat>>)
    returns (results: seq<Entry>, successCount: nat, failureCount: nat, totalDurationMs: int, maxDurationMs: int,
             order: seq<nat>, progress: seq<Progress>)
    requires |outcomes| == |items| && |durations| == |items| && workers >= 1
    requires slots0 == FirstClaims(workers, |items|)
    ensures |results| == |items| && forall i :: 0 <= i < |items| ==> results[i] == EntryFor(items[i], outcomes[i], durations[i])
    ensures successCount + failureCount == |items| && successCount == Sum(OkWeights(outcomes))
    ensures totalDurationMs == Sum(durations)
    ensures 0 <= maxDurationMs && forall i :: 0 <= i < |durations| ==> durations[i] <= maxDurationMs
    ensures maxDurationMs == 0 || exists i :: 0 <= i < |durations| && maxDurationMs == durations[i]
    ensures |order| == |items| && |progress| == |items|
    ensures forall t :: 0 <= t < |order| ==> order[t] < |items|
    ensures forall s, t :: 0 <= s < t < |order| ==> order[s] != order[t]
    ensures ProgressLog(progress, order, items, batchId, queueConcurrency)
    ensures RunningTotals(progress, order, outcomes, durations)
  {
    var total := |items|;
    var pool := Pool(slots0, workers, seq(total, _ => None), 0, 0, 0, 0, 0, [], []);
    InitialPool(items, outcomes, durations, batchId, queueConcurrency, workers, slots0);

    while CountBusy(pool.slots) > 0
      invariant PoolInv(pool, items, outcomes, durations, batchId, queueConcurrency, workers)
      decreases total - pool.completed
    {
      CountBusyPositive(pool.slots);
      var k :| 0 <= k < |pool.slots| && pool.slots[k].Some?;
      pool := CompleteOne(pool, k, items, outcomes, durations, batchId, queueConcurrency, workers);
    }

    FinalPool(pool, items, outcomes, durations, batchId, queueConcurrency, workers);
    PoolRecords(pool, items, outcomes, durations, batchId, queueConcurrency, workers);
    var done := pool.done;
    results := seq(total, i requires 0 <= i < total && done[i].Some? => done[i].value);
    successCount, failureCount := pool.successCount, pool.failureCount;
    totalDurationMs, maxDurationMs := pool.totalDurationMs, pool.maxDurationMs;
    order, progress := pool.order, pool.progress;
  }

  /**
   * The batch handler. `parseInt` stands for `Number.parseInt(_, 10)`;
   * `outcomes[i]` and `durations[i]` are what the capture of work item `i`
   * produced and how long it took. Besides the summary the model returns
   * the progress messages in send order and the order in which the jobs
   * completed.
   */
  method RunBatch(payload: BatchPayload, parseInt: string -> Option<int>,
                  outcomes: seq<Outcome>, durations: seq<int>)
    returns (summary: Summary, progress: seq<Progress>, order: seq<nat>, workers: nat)
    requires |outcomes| == |WorkItems(payload)| && |durations| == |outcomes|
    ensures workers == Validation.Min(summary.queueConcurrency, Validation.Max(1, |WorkItems(payload)|))
    ensures 1 <= workers <= 3 && (|WorkItems(payload)| == 0 ==> workers == 1)
    ensures var items := WorkItems(payload);
      && summary.total == |items| && summary.completed == |items|
      && summary.successCount + summary.failureCount == |items|
      && summary.successCount == Sum(OkWeights(outcomes))
      && |summary.results| == |items|
      && (forall i :: 0 <= i < |items| ==> summary.results[i] == EntryFor(items[i], outcomes[i], durations[i]))
      && summary.avgDurationMs == AvgDuration(Sum(durations), |items|)
      && (forall i :: 0 <= i < |durations| ==> durations[i] <= summary.maxDurationMs)
      && 0 <= summary.maxDurationMs
      && (summary.maxDurationMs == 0 || exists i :: 0 <= i < |durations| && summary.maxDurationMs == durations[i])
    ensures summary.batchId == (if Truthy(payload.batchId) then payload.batchId else Str("default"))
    ensures summary.queueConcurrency == NormalizeQueueConcurrency(parseInt(ToStr(Get(BatchSettings(payload.settings), "queueConcurrency"))))
    ensures |order| == |WorkItems(payload)|
    ensures forall t :: 0 <= t < |order| ==> order[t] < |order|
    ensures forall s, t :: 0 <= s < t < |order| ==> order[s] != order[t]
    ensures |progress| == |WorkItems(payload)|
    ensures ProgressLog(progress, order, WorkItems(payload), summary.batchId, summary.queueConcurrency)
    ensures RunningTotals(progress, order, outcomes, durations)
  {
    var items := WorkItems(payload);
    var settings := BatchSettings(payload.settings);
    var queueConcurrency := NormalizeQueueConcurrency(parseInt(ToStr(Get(settings, "queueConcurrency"))));
    var total := |items|;
    var batchId := if Truthy(payload.batchId) then payload.batchId else Str("default");

    workers := Validation.Min(queueConcurrency, Validation.Max(1, total));
    var slots, _ := StartWorkers(workers, total);
    var results, successCount, failureCount, totalDurationMs, maxDurationMs;
    results, successCount, failureCount, totalDurationMs, maxDurationMs, order, progress :=
      RunWorkers(items, outcomes, durations, batchId, queueConcurrency, workers, slots);
    summary := Summary(batchId, total, total, successCount, failureCount, queueConcurrency,
                       AvgDuration(totalDurationMs, total), maxDurationMs, results);
  }

  /** A value whose `.url` read throws. */
  predicate Nullish(v: Value) {
    v.Null? || v.Undefined?
  }

  /** The TypeError of reading `url` from null or undefined (its message is the engine's). */
  const NullItemError := "TypeError"

  /**
   * What the renderer receives from the handler. `item.url` is read before
   * the capture and outside its `.catch`, so a work item that is null or
   * undefined rejects its worker and with it the whole request; otherwise
   * the request resolves with the summary of `RunBatch`.
   */
  method HandleBatch(payload: BatchPayload, parseInt: string -> Option<int>,
                     outcomes: seq<Outcome>, durations: seq<int>)
    returns (reply: Result<Summary, string>)
    requires |outcomes| == |WorkItems(payload)| && |durations| == |outcomes|
    ensures reply.Err? <==> exists i :: 0 <= i < |WorkItems(payload)| && Nullish(WorkItems(payload)[i])
    ensures reply.Err? ==> reply.error == NullItemError
    ensures reply.Ok? ==>
              var items := WorkItems(payload);
              && reply.value.total == reply.value.completed == |items|
              && |reply.value.results| == |items|
              && (forall i :: 0 <= i < |items| ==> reply.value.results[i] == EntryFor(items[i], outcomes[i], durations[i]))
              && reply.value.successCount == Sum(OkWeights(outcomes))
              && reply.value.successCount + reply.value.failureCount == |items|
  {
    var items := WorkItems(payload);
    if exists i :: 0 <= i < |items| && Nullish(items[i]) {
      return Err(NullItemError);
    }
    var summary, _, _, _ := RunBatch(payload, parseInt, outcomes, durations);
    return Ok(summary);
  }

  /** A batch of plain URLs (no jobs) never rejects: each of its work items is an object. */
  lemma UrlBatchHasNoNullItem(payload: BatchPayload)
    requires |ArrayOrEmpty(payload.jobs)| == 0
    ensures forall i :: 0 <= i < |WorkItems(payload)| ==> !Nullish(WorkItems(payload)[i])
  {
  }
}
