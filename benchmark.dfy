/**
 * `run_benchmark` of `scripts/benchmark_models.py`: per model name, warmup runs
 * until the first failure, then measured iterations whose failures are dropped,
 * then one summary per model with at least one measurement.
 *
 * A run of `benchmark_flux`/`benchmark_zimage` is an input function `bench` from
 * the call (which occurrence of which model, warmup or measurement, index, seed,
 * prompt) to its measurement, or `None` when it raises. The sample standard
 * deviation is an input function `stdev` too; only the branch choosing it is modelled.
 */
module Benchmark {
  import opened Wrappers

  datatype BenchmarkResult = BenchmarkResult(model: string, iteration: int, generationTime: real,
                                             peakVramGb: real, seed: int)

  datatype BenchmarkSummary = BenchmarkSummary(model: string, avgTime: real, minTime: real, maxTime: real,
                                               stdDev: real, avgVramGb: real, peakVramGb: real, iterations: int)

  datatype Phase = Warmup | Measure

  /** One call of the benchmark function: the `position`-th entry of the model list. */
  datatype Call = Call(position: nat, model: string, phase: Phase, index: nat, seed: int, prompt: string)

  /** `(elapsed, vram)` as the benchmark function returns it. */
  datatype Measurement = Measurement(elapsed: real, vram: real)

  const DefaultPrompt := "A majestic snow leopard resting on a rocky mountain ledge at sunset, "
                         + "photorealistic, detailed fur, golden hour lighting"
  const WarmupSeedBase := 42
  /** The defaults of `run_benchmark`'s `iterations` and `warmup` arguments. */
  const DefaultIterations := 3
  const DefaultWarmup := 1
  const MeasureSeedBase := 1000

  /** The names with a benchmark function; any other name is reported and skipped. */
  predicate Benchmarked(model: string) {
    model == "flux" || model == "zimage"
  }

  /** `range(n)` has `max(n, 0)` elements. */
  function RangeLength(n: int): nat {
    if n < 0 then 0 else n
  }

  function WarmupCall(pos: nat, model: string, prompt: string, i: nat): Call {
    Call(pos, model, Warmup, i, WarmupSeedBase + i, prompt)
  }

  function MeasureCall(pos: nat, model: string, prompt: string, i: nat): Call {
    Call(pos, model, Measure, i, MeasureSeedBase + i, prompt)
  }

  // ---------------------------------------------------------------------------
  // Specification of the calls and the results

  /** The warmup calls from index `i` on: each is made, and the first failure ends the warmup. */
  function WarmupTrace(pos: nat, model: string, prompt: string, warmup: int,
                       bench: Call -> Option<Measurement>, i: nat): seq<Call>
    decreases warmup - i
  {
    if i >= warmup then []
    else
      var c := WarmupCall(pos, model, prompt, i);
      [c] + (if bench(c).None? then [] else WarmupTrace(pos, model, prompt, warmup, bench, i + 1))
  }

  /** The first `n` measured calls. */
  function MeasureTrace(pos: nat, model: string, prompt: string, n: nat): seq<Call> {
    if n == 0 then [] else MeasureTrace(pos, model, prompt, n - 1) + [MeasureCall(pos, model, prompt, n - 1)]
  }

  /** The result a measured call records: one entry when it succeeds, none when it raises. */
  function ResultOf(bench: Call -> Option<Measurement>, c: Call): seq<BenchmarkResult> {
    match bench(c)
    case None => []
    case Some(m) => [BenchmarkResult(c.model, c.index + 1, m.elapsed, m.vram, c.seed)]
  }

  /** The results of the first `n` measured calls. */
  function MeasureResults(pos: nat, model: string, prompt: string, bench: Call -> Option<Measurement>,
                          n: nat): seq<BenchmarkResult>
  {
    if n == 0 then []
    else MeasureResults(pos, model, prompt, bench, n - 1) + ResultOf(bench, MeasureCall(pos, model, prompt, n - 1))
  }

  /** The calls made for entry `pos` of the model list. */
  function EntryTrace(models: seq<string>, pos: nat, prompt: string, iterations: int, warmup: int,
                      bench: Call -> Option<Measurement>): seq<Call>
    requires pos < |models|
  {
    if !Benchmarked(models[pos]) then []
    else WarmupTrace(pos, models[pos], prompt, warmup, bench, 0)
         + MeasureTrace(pos, models[pos], prompt, RangeLength(iterations))
  }

  /** The results recorded for entry `pos` of the model list. */
  function EntryResults(models: seq<string>, pos: nat, prompt: string, iterations: int,
                        bench: Call -> Option<Measurement>): seq<BenchmarkResult>
    requires pos < |models|
  {
    if !Benchmarked(models[pos]) then []
    else MeasureResults(pos, models[pos], prompt, bench, RangeLength(iterations))
  }

  /** All calls made for the first `n` entries. */
  function TraceUpTo(models: seq<string>, n: nat, prompt: string, iterations: int, warmup: int,
                     bench: Call -> Option<Measurement>): seq<Call>
    requires n <= |models|
  {
    if n == 0 then []
    else TraceUpTo(models, n - 1, prompt, iterations, warmup, bench)
         + EntryTrace(models, n - 1, prompt, iterations, warmup, bench)
  }

  /** `{m: [] for m in models}`. */
  function InitialResults(models: seq<string>): (r: map<string, seq<BenchmarkResult>>)
    ensures forall m :: m in r <==> m in models
    ensures forall m :: m in r ==> r[m] == []
  {
    map m | m in models :: []
  }

  /** The `results` dictionary after the first `n` entries. */
  function ResultsUpTo(models: seq<string>, n: nat, prompt: string, iterations: int,
                       bench: Call -> Option<Measurement>): (r: map<string, seq<BenchmarkResult>>)
    requires n <= |models|
    ensures forall m :: m in r <==> m in models
  {
    if n == 0 then InitialResults(models)
    else
      assert models[n - 1] in models;
      AfterEntry(models, n - 1, prompt, iterations, bench, ResultsUpTo(models, n - 1, prompt, iterations, bench))
  }

  /** `results` after entry `pos`: a known name's measured results are appended under its key. */
  function AfterEntry(models: seq<string>, pos: nat, prompt: string, iterations: int,
                      bench: Call -> Option<Measurement>, results: map<string, seq<BenchmarkResult>>)
    : (r: map<string, seq<BenchmarkResult>>)
    requires pos < |models| && models[pos] in results
    ensures r.Keys == results.Keys
  {
    var m := models[pos];
    if Benchmarked(m) then results[m := results[m] + EntryResults(models, pos, prompt, iterations, bench)] else results
  }

  /** The index of the first occurrence of `x` in `s`. */
  function FirstIndex(s: seq<string>, x: string): (i: nat)
    requires x in s
    ensures i < |s| && s[i] == x && x !in s[..i]
  {
    if s[0] == x then 0
    else
      assert x in s[1..];
      var j := FirstIndex(s[1..], x);
      assert s[..j + 1] == [s[0]] + s[1..][..j];
      j + 1
  }

  /** A first occurrence stays the first occurrence when the sequence is extended. */
  lemma FirstIndexOfPrefix(s: seq<string>, n: nat, x: string)
    requires n <= |s| && x in s[..n]
    ensures FirstIndex(s, x) == FirstIndex(s[..n], x)
  {
    var i := FirstIndex(s[..n], x);
    var k := FirstIndex(s, x);
    assert s[..n][..i] == s[..i];
  }

  /** The names in order of first appearance: the key order of the `results` dictionary. */
  function Dedup(s: seq<string>): (d: seq<string>)
    ensures forall x :: x in d <==> x in s
    ensures forall i, j :: 0 <= i < j < |d| ==> d[i] != d[j]
    ensures forall i, j :: 0 <= i < j < |d| ==> FirstIndex(s, d[i]) < FirstIndex(s, d[j])
  {
    if s == [] then []
    else
      var d := Dedup(s[..|s| - 1]);
      DedupStep(s, d);
      if s[|s| - 1] in d then d else d + [s[|s| - 1]]
  }

  /** One step of `Dedup`: appending a name keeps the first-appearance order. */
  lemma DedupStep(s: seq<string>, d: seq<string>)
    requires s != []
    requires forall x :: x in d <==> x in s[..|s| - 1]
    requires forall i :: 0 <= i < |d| ==> d[i] in s[..|s| - 1]
    requires forall i, j :: 0 <= i < j < |d| ==> d[i] != d[j]
    requires forall i, j :: 0 <= i < j < |d| ==> FirstIndex(s[..|s| - 1], d[i]) < FirstIndex(s[..|s| - 1], d[j])
    ensures var r := if s[|s| - 1] in d then d else d + [s[|s| - 1]];
      && (forall x :: x in r <==> x in s)
      && (forall i, j :: 0 <= i < j < |r| ==> r[i] != r[j])
      && (forall i, j :: 0 <= i < j < |r| ==> FirstIndex(s, r[i]) < FirstIndex(s, r[j]))
  {
    var init, x := s[..|s| - 1], s[|s| - 1];
    assert s == init + [x];
    forall y | y in d ensures FirstIndex(s, y) == FirstIndex(init, y) {
      FirstIndexOfPrefix(s, |s| - 1, y);
    }
    if x !in d {
      assert x !in init;
      assert FirstIndex(s, x) == |s| - 1 by {
        assert s[..FirstIndex(s, x)] <= init;
      }
    }
  }

  // ---------------------------------------------------------------------------
  // Summaries

  function Times(rs: seq<BenchmarkResult>): (ts: seq<real>)
    ensures |ts| == |rs| && forall i :: 0 <= i < |rs| ==> ts[i] == rs[i].generationTime
  {
    seq(|rs|, i requires 0 <= i < |rs| => rs[i].generationTime)
  }

  function Vrams(rs: seq<BenchmarkResult>): (vs: seq<real>)
    ensures |vs| == |rs| && forall i :: 0 <= i < |rs| ==> vs[i] == rs[i].peakVramGb
  {
    seq(|rs|, i requires 0 <= i < |rs| => rs[i].peakVramGb)
  }

  /** `min(xs)`: one of the values, and at most each of them. */
  function MinOf(xs: seq<real>): (m: real)
    requires |xs| > 0
    ensures m in xs
    ensures forall i :: 0 <= i < |xs| ==> m <= xs[i]
  {
    if |xs| == 1 then xs[0]
    else
      var rest := MinOf(xs[1..]);
      assert forall i :: 1 <= i < |xs| ==> xs[i] == xs[1..][i - 1];
      if xs[0] <= rest then xs[0] else rest
  }

  /** `max(xs)`: one of the values, and at least each of them. */
  function MaxOf(xs: seq<real>): (m: real)
    requires |xs| > 0
    ensures m in xs
    ensures forall i :: 0 <= i < |xs| ==> xs[i] <= m
  {
    if |xs| == 1 then xs[0]
    else
      var rest := MaxOf(xs[1..]);
      assert forall i :: 1 <= i < |xs| ==> xs[i] == xs[1..][i - 1];
      if xs[0] >= rest then xs[0] else rest
  }

  function Sum(xs: seq<real>): real {
    if xs == [] then 0.0 else Sum(xs[..|xs| - 1]) + xs[|xs| - 1]
  }

  /** `statistics.mean(xs)`: the exact mean, before rounding to a float. */
  function Mean(xs: seq<real>): real
    requires |xs| > 0
  {
    Sum(xs) / (|xs| as real)
  }

  /** The summary of a non-empty result list. */
  function Summarize(model: string, rs: seq<BenchmarkResult>, stdev: seq<real> -> real): BenchmarkSummary
    requires |rs| > 0
  {
    var times := Times(rs);
    var vrams := Vrams(rs);
    BenchmarkSummary(model, Mean(times), MinOf(times), MaxOf(times), if |times| > 1 then stdev(times) else 0.0,
                     Mean(vrams), MaxOf(vrams), |rs|)
  }

  /** The summaries of the first `k` keys of `order`: keys with no result are skipped. */
  function SummariesUpTo(order: seq<string>, results: map<string, seq<BenchmarkResult>>, k: nat,
                         stdev: seq<real> -> real): map<string, BenchmarkSummary>
    requires k <= |order|
    requires forall m :: m in order ==> m in results
  {
    if k == 0 then map[]
    else
      var s := SummariesUpTo(order, results, k - 1, stdev);
      var m := order[k - 1];
      if results[m] == [] then s else s[m := Summarize(m, results[m], stdev)]
  }

  /** The key order of the summaries dictionary. */
  function SummaryOrderUpTo(order: seq<string>, results: map<string, seq<BenchmarkResult>>, k: nat): seq<string>
    requires k <= |order|
    requires forall m :: m in order ==> m in results
  {
    if k == 0 then []
    else
      var s := SummaryOrderUpTo(order, results, k - 1);
      var m := order[k - 1];
      if results[m] == [] then s else s + [m]
  }

  function PromptOrDefault(prompt: Option<string>): string {
    if prompt.None? then DefaultPrompt else prompt.value
  }

  /** What `run_benchmark` computes, as one value. */
  datatype Run = Run(summaries: map<string, BenchmarkSummary>, summaryOrder: seq<string>,
                     results: map<string, seq<BenchmarkResult>>, calls: seq<Call>)

  function BenchmarkRun(models: seq<string>, iterations: int, warmup: int, prompt: Option<string>,
                        bench: Call -> Option<Measurement>, stdev: seq<real> -> real): Run
  {
    var p := PromptOrDefault(prompt);
    var results := ResultsUpTo(models, |models|, p, iterations, bench);
    var order := Dedup(models);
    Run(SummariesUpTo(order, results, |order|, stdev), SummaryOrderUpTo(order, results, |order|),
        results, TraceUpTo(models, |models|, p, iterations, warmup, bench))
  }

  // ---------------------------------------------------------------------------
  // The driver

  /** The warmup loop of `run_benchmark` for entry `pos`: seeds 42, 43, ... and a `break` at the first failure. */
  method RunWarmup(pos: nat, model: string, prompt: string, warmup: int, bench: Call -> Option<Measurement>)
    returns (calls: seq<Call>)
    ensures calls == WarmupTrace(pos, model, prompt, warmup, bench, 0)
  {
    calls := [];
    if warmup > 0 {
      var i := 0;
      while i < warmup
        invariant 0 <= i <= warmup
        invariant calls + WarmupTrace(pos, model, prompt, warmup, bench, i)
               == WarmupTrace(pos, model, prompt, warmup, bench, 0)
      {
        var c := Call(pos, model, Warmup, i, 42 + i, prompt);
        ghost var rest := if bench(c).None? then [] else WarmupTrace(pos, model, prompt, warmup, bench, i + 1);
        assert WarmupTrace(pos, model, prompt, warmup, bench, i) == [c] + rest;
        assert calls + ([c] + rest) == (calls + [c]) + rest;
        calls := calls + [c];
        if bench(c).None? {
          break;
        }
        i := i + 1;
      }
    }
  }

  /** The measured loop of `run_benchmark` for entry `pos`: seeds 1000, 1001, ...; each success is
      appended to `results[model]` with its 1-based iteration number, each failure dropped. */
  method RunIterations(pos: nat, model: string, prompt: string, iterations: int,
                       bench: Call -> Option<Measurement>, results: map<string, seq<BenchmarkResult>>)
    returns (calls: seq<Call>, results': map<string, seq<BenchmarkResult>>)
    requires model in results
    ensures calls == MeasureTrace(pos, model, prompt, RangeLength(iterations))
    ensures results' == results[model := results[model] + MeasureResults(pos, model, prompt, bench, RangeLength(iterations))]
  {
    calls, results' := [], results;
    assert results' == results[model := results[model] + MeasureResults(pos, model, prompt, bench, 0)] by {
      assert results[model] + [] == results[model];
    }
    var i := 0;
    while i < iterations
      invariant 0 <= i <= RangeLength(iterations)
      invariant calls == MeasureTrace(pos, model, prompt, i)
      invariant results' == results[model := results[model] + MeasureResults(pos, model, prompt, bench, i)]
    {
      var seed := 1000 + i;
      var c := Call(pos, model, Measure, i, seed, prompt);
      calls := calls + [c];
      var outcome := bench(c);
      ghost var measured := MeasureResults(pos, model, prompt, bench, i);
      assert MeasureResults(pos, model, prompt, bench, i + 1) == measured + ResultOf(bench, c);
      if outcome.Some? {
        var result := BenchmarkResult(model, i + 1, outcome.value.elapsed, outcome.value.vram, seed);
        assert (results[model] + measured) + [result] == results[model] + (measured + [result]);
        results' := results'[model := results'[model] + [result]];
      } else {
        assert measured + ResultOf(bench, c) == measured;
      }
      i := i + 1;
    }
  }

  /** The summary loop of `run_benchmark`: one summary per key with results, in key order. */
  method BuildSummaries(order: seq<string>, results: map<string, seq<BenchmarkResult>>, stdev: seq<real> -> real)
    returns (summaries: map<string, BenchmarkSummary>, summaryOrder: seq<string>)
    requires forall m :: m in order ==> m in results
    ensures summaries == SummariesUpTo(order, results, |order|, stdev)
    ensures summaryOrder == SummaryOrderUpTo(order, results, |order|)
  {
    summaries, summaryOrder := map[], [];
    var k := 0;
    while k < |order|
      invariant k <= |order|
      invariant summaries == SummariesUpTo(order, results, k, stdev)
      invariant summaryOrder == SummaryOrderUpTo(order, results, k)
    {
      summaries, summaryOrder := AddSummary(order, results, k, stdev, summaries, summaryOrder);
      k := k + 1;
    }
  }

  /** One pass of the summary loop: key `order[k]` gets a summary when it has results. */
  method AddSummary(order: seq<string>, results: map<string, seq<BenchmarkResult>>, k: nat,
                    stdev: seq<real> -> real, summaries: map<string, BenchmarkSummary>, summaryOrder: seq<string>)
    returns (summaries': map<string, BenchmarkSummary>, summaryOrder': seq<string>)
    requires k < |order| && forall m :: m in order ==> m in results
    requires summaries == SummariesUpTo(order, results, k, stdev)
    requires summaryOrder == SummaryOrderUpTo(order, results, k)
    ensures summaries' == SummariesUpTo(order, results, k + 1, stdev)
    ensures summaryOrder' == SummaryOrderUpTo(order, results, k + 1)
  {
    var model := order[k];
    assert model in order;
    var modelResults := results[model];
    summaries', summaryOrder' := summaries, summaryOrder;
    if modelResults != [] {
      summaries' := summaries[model := Summarize(model, modelResults, stdev)];
      summaryOrder' := summaryOrder + [model];
    }
  }

  /** One pass of the main loop of `run_benchmark`: an unknown name is skipped, a known one is
      warmed up and measured. */
  method RunEntry(models: seq<string>, pos: nat, prompt: string, iterations: int, warmup: int,
                  bench: Call -> Option<Measurement>, results: map<string, seq<BenchmarkResult>>)
    returns (calls: seq<Call>, results': map<string, seq<BenchmarkResult>>)
    requires pos < |models| && models[pos] in results
    ensures calls == EntryTrace(models, pos, prompt, iterations, warmup, bench)
    ensures results' == AfterEntry(models, pos, prompt, iterations, bench, results)
  {
    var model := models[pos];
    if model == "flux" || model == "zimage" {
      var warmupCalls := RunWarmup(pos, model, prompt, warmup, bench);
      var measureCalls;
      measureCalls, results' := RunIterations(pos, model, prompt, iterations, bench, results);
      calls := warmupCalls + measureCalls;
    } else {
      calls, results' := [], results;
    }
  }

  /** The main loop of `run_benchmark`, over the model list in order (repeats included). */
  method RunEntries(models: seq<string>, prompt: string, iterations: int, warmup: int,
                    bench: Call -> Option<Measurement>)
    returns (results: map<string, seq<BenchmarkResult>>, calls: seq<Call>)
    ensures results == ResultsUpTo(models, |models|, prompt, iterations, bench)
    ensures calls == TraceUpTo(models, |models|, prompt, iterations, warmup, bench)
  {
    results := InitialResults(models);
    calls := [];
    var pos := 0;
    while pos < |models|
      invariant pos <= |models|
      invariant results == ResultsUpTo(models, pos, prompt, iterations, bench)
      invariant calls == TraceUpTo(models, pos, prompt, iterations, warmup, bench)
    {
      assert models[pos] in models;
      var entryCalls;
      entryCalls, results := RunEntry(models, pos, prompt, iterations, warmup, bench, results);
      calls := calls + entryCalls;
      pos := pos + 1;
    }
  }

  /** `run_benchmark(models, iterations, warmup, prompt)`. Besides the summaries (and their key
      order) it returns the `results` dictionary and the calls it made of the benchmark function. */
  method RunBenchmark(models: seq<string>, iterations: int, warmup: int, prompt: Option<string>,
                      bench: Call -> Option<Measurement>, stdev: seq<real> -> real)
    returns (summaries: map<string, BenchmarkSummary>, summaryOrder: seq<string>,
             results: map<string, seq<BenchmarkResult>>, calls: seq<Call>)
    ensures Run(summaries, summaryOrder, results, calls)
         == BenchmarkRun(models, iterations, warmup, prompt, bench, stdev)
  {
    var p := PromptOrDefault(prompt);
    results, calls := RunEntries(models, p, iterations, warmup, bench);
    summaries, summaryOrder := BuildSummaries(Dedup(models), results, stdev);
  }
}
