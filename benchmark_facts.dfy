/**
 * What `run_benchmark` promises, proved about the specification in `Benchmark`: the seeds
 * and order of the calls, warmup ending at its first failure without shortening the
 * measured loop, each result tied to the call that produced it, the `results` dictionary
 * accumulating over repeated names, and the summaries with their bounds.
 */
module BenchmarkFacts {
  import opened Wrappers
  import opened Benchmark

  // ---------------------------------------------------------------------------
  // min, max and mean

  /** A sum of `n` values between `lo` and `hi` lies between `n * lo` and `n * hi`. */
  lemma {:induction false} SumBounds(xs: seq<real>, lo: real, hi: real)
    requires forall i :: 0 <= i < |xs| ==> lo <= xs[i] <= hi
    ensures (|xs| as real) * lo <= Sum(xs) <= (|xs| as real) * hi
  {
    if xs != [] {
      var init := xs[..|xs| - 1];
      forall i | 0 <= i < |init| ensures lo <= init[i] <= hi {
        assert init[i] == xs[i];
      }
      SumBounds(init, lo, hi);
      assert (|xs| as real) * lo == (|init| as real) * lo + lo;
      assert (|xs| as real) * hi == (|init| as real) * hi + hi;
    }
  }

  lemma QuotientBetween(s: real, n: real, lo: real, hi: real)
    requires n > 0.0 && n * lo <= s <= n * hi
    ensures lo <= s / n <= hi
  {
    assert s / n - lo == (s - n * lo) / n;
    assert hi - s / n == (n * hi - s) / n;
  }

  lemma MeanBetweenMinAndMax(xs: seq<real>)
    requires |xs| > 0
    ensures MinOf(xs) <= Mean(xs) <= MaxOf(xs)
  {
    MeanBounds(xs, MinOf(xs), MaxOf(xs));
  }

  lemma MeanBounds(xs: seq<real>, lo: real, hi: real)
    requires |xs| > 0
    requires forall i :: 0 <= i < |xs| ==> lo <= xs[i] <= hi
    ensures lo <= Mean(xs) <= hi
  {
    SumBounds(xs, lo, hi);
    QuotientBetween(Sum(xs), |xs| as real, lo, hi);
  }

  /** The mean of one value is that value. */
  lemma MeanOfOne(x: real)
    ensures Mean([x]) == x
  {
    assert [x][..0] == [];
    assert Sum([x]) == Sum([]) + x;
  }

  /** What a summary holds about the results it summarises. */
  lemma {:induction false} SummarizeFacts(model: string, rs: seq<BenchmarkResult>, stdev: seq<real> -> real)
    requires |rs| > 0
    ensures var s := Summarize(model, rs, stdev);
      && s.model == model
      && s.iterations == |rs|
      && s.minTime <= s.avgTime <= s.maxTime
      && s.avgVramGb <= s.peakVramGb
      && (forall i :: 0 <= i < |rs| ==> s.minTime <= rs[i].generationTime <= s.maxTime)
      && (forall i :: 0 <= i < |rs| ==> rs[i].peakVramGb <= s.peakVramGb)
      && (exists i :: 0 <= i < |rs| && rs[i].generationTime == s.minTime)
      && (exists i :: 0 <= i < |rs| && rs[i].generationTime == s.maxTime)
      && (exists i :: 0 <= i < |rs| && rs[i].peakVramGb == s.peakVramGb)
      && (|rs| == 1 ==> s.stdDev == 0.0 && s.minTime == s.avgTime == s.maxTime == rs[0].generationTime)
      && (|rs| > 1 ==> s.stdDev == stdev(Times(rs)))
  {
    var times, vrams := Times(rs), Vrams(rs);
    MeanBetweenMinAndMax(times);
    MeanBetweenMinAndMax(vrams);
    var lo :| 0 <= lo < |times| && times[lo] == MinOf(times);
    var hi :| 0 <= hi < |times| && times[hi] == MaxOf(times);
    var pk :| 0 <= pk < |vrams| && vrams[pk] == MaxOf(vrams);
    assert rs[lo].generationTime == MinOf(times);
    assert rs[hi].generationTime == MaxOf(times);
    assert rs[pk].peakVramGb == MaxOf(vrams);
    if |rs| == 1 {
      assert times == [rs[0].generationTime];
      MeanOfOne(rs[0].generationTime);
    }
  }

  // ---------------------------------------------------------------------------
  // The calls

  /** Warmup from index `i`: consecutive seeds from `42 + i`, every call but the last succeeded,
      and the loop ends early only on a failure. */
  lemma {:induction false} WarmupTraceFacts(pos: nat, model: string, prompt: string, warmup: int,
                                           bench: Call -> Option<Measurement>, i: nat)
    ensures var t := WarmupTrace(pos, model, prompt, warmup, bench, i);
      && |t| <= RangeLength(warmup - i)
      && (i < warmup ==> |t| > 0)
      && (forall j :: 0 <= j < |t| ==> t[j] == WarmupCall(pos, model, prompt, i + j))
      && (forall j :: 0 <= j < |t| - 1 ==> bench(t[j]).Some?)
      && (|t| < warmup - i ==> bench(t[|t| - 1]).None?)
    decreases warmup - i
  {
    if i < warmup {
      var t := WarmupTrace(pos, model, prompt, warmup, bench, i);
      var c := WarmupCall(pos, model, prompt, i);
      if bench(c).Some? {
        WarmupTraceFacts(pos, model, prompt, warmup, bench, i + 1);
        var rest := WarmupTrace(pos, model, prompt, warmup, bench, i + 1);
        assert t == [c] + rest;
        forall j | 0 <= j < |t| ensures t[j] == WarmupCall(pos, model, prompt, i + j) {
          if j > 0 {
            assert t[j] == rest[j - 1];
          }
        }
      }
    }
  }

  /** The warmup loop of an entry, from its start. */
  lemma WarmupStopsAtFirstFailure(pos: nat, model: string, prompt: string, warmup: int,
                                  bench: Call -> Option<Measurement>)
    ensures var t := WarmupTrace(pos, model, prompt, warmup, bench, 0);
      && |t| <= RangeLength(warmup)
      && (forall j :: 0 <= j < |t| ==> t[j].phase == Warmup && t[j].index == j && t[j].seed == 42 + j)
      && (forall j :: 0 <= j < |t| - 1 ==> bench(t[j]).Some?)
      && (|t| < warmup ==> |t| > 0 && bench(t[|t| - 1]).None?)
  {
    WarmupTraceFacts(pos, model, prompt, warmup, bench, 0);
  }

  /** The measured loop makes `n` calls with seeds `1000, ..., 1000 + n - 1`. */
  lemma {:induction false} MeasureTraceFacts(pos: nat, model: string, prompt: string, n: nat)
    ensures var t := MeasureTrace(pos, model, prompt, n);
      && |t| == n
      && forall j :: 0 <= j < n ==> t[j] == MeasureCall(pos, model, prompt, j)
  {
    if n > 0 {
      MeasureTraceFacts(pos, model, prompt, n - 1);
    }
  }

  /** A benchmarked entry makes all of its measured calls after its warmup calls, however the
      warmup went: a failing warmup does not shorten the measured loop. */
  lemma MeasuredCallsDoNotDependOnWarmup(models: seq<string>, pos: nat, prompt: string, iterations: int,
                                         warmup: int, bench: Call -> Option<Measurement>)
    requires pos < |models| && Benchmarked(models[pos])
    ensures var t := EntryTrace(models, pos, prompt, iterations, warmup, bench);
      var w := WarmupTrace(pos, models[pos], prompt, warmup, bench, 0);
      && |t| == |w| + RangeLength(iterations)
      && t[..|w|] == w
      && forall j :: 0 <= j < RangeLength(iterations) ==> t[|w| + j] == MeasureCall(pos, models[pos], prompt, j)
  {
    var w := WarmupTrace(pos, models[pos], prompt, warmup, bench, 0);
    var m := MeasureTrace(pos, models[pos], prompt, RangeLength(iterations));
    MeasureTraceFacts(pos, models[pos], prompt, RangeLength(iterations));
    assert (w + m)[..|w|] == w;
    forall j | 0 <= j < RangeLength(iterations)
      ensures (w + m)[|w| + j] == MeasureCall(pos, models[pos], prompt, j)
    {
      assert (w + m)[|w| + j] == m[j];
    }
  }

  /** A call `run_benchmark` may make: of a known model at its position in the list, with the
      prompt in force and the seed of its phase. */
  predicate CallOf(models: seq<string>, prompt: string, c: Call) {
    && c.position < |models|
    && c.model == models[c.position]
    && Benchmarked(c.model)
    && c.prompt == prompt
    && c.seed == (if c.phase == Warmup then WarmupSeedBase else MeasureSeedBase) + c.index
  }

  lemma EntryCalls(models: seq<string>, pos: nat, prompt: string, iterations: int, warmup: int,
                   bench: Call -> Option<Measurement>)
    requires pos < |models|
    ensures var t := EntryTrace(models, pos, prompt, iterations, warmup, bench);
      && (!Benchmarked(models[pos]) ==> t == [])
      && forall k :: 0 <= k < |t| ==> t[k].position == pos && CallOf(models, prompt, t[k])
  {
    if Benchmarked(models[pos]) {
      var w: seq<Call> := WarmupTrace(pos, models[pos], prompt, warmup, bench, 0);
      var m: seq<Call> := MeasureTrace(pos, models[pos], prompt, RangeLength(iterations));
      WarmupTraceFacts(pos, models[pos], prompt, warmup, bench, 0);
      MeasureTraceFacts(pos, models[pos], prompt, RangeLength(iterations));
      forall k | 0 <= k < |w + m| ensures (w + m)[k].position == pos && CallOf(models, prompt, (w + m)[k]) {
        if k < |w| {
          assert (w + m)[k] == w[k];
        } else {
          assert (w + m)[k] == m[k - |w|];
        }
      }
    }
  }

  /** Every call is of a known model at its own position: an unknown name is never benchmarked. */
  lemma {:induction false} TraceCalls(models: seq<string>, n: nat, prompt: string, iterations: int, warmup: int,
                                      bench: Call -> Option<Measurement>)
    requires n <= |models|
    ensures forall k :: 0 <= k < |TraceUpTo(models, n, prompt, iterations, warmup, bench)| ==>
      var c := TraceUpTo(models, n, prompt, iterations, warmup, bench)[k];
      c.position < n && CallOf(models, prompt, c)
  {
    if n > 0 {
      TraceCalls(models, n - 1, prompt, iterations, warmup, bench);
      EntryCalls(models, n - 1, prompt, iterations, warmup, bench);
      var a: seq<Call> := TraceUpTo(models, n - 1, prompt, iterations, warmup, bench);
      var b: seq<Call> := EntryTrace(models, n - 1, prompt, iterations, warmup, bench);
      forall k | 0 <= k < |a + b| ensures (a + b)[k].position < n && CallOf(models, prompt, (a + b)[k]) {
        if k < |a| {
          assert (a + b)[k] == a[k];
        } else {
          assert (a + b)[k] == b[k - |a|];
        }
      }
    }
  }

  // ---------------------------------------------------------------------------
  // The results of one entry

  /** Each recorded result belongs to a successful measured call: its iteration number is the
      1-based index of that call, its seed that call's seed, its time and memory that call's
      measurement; results are in iteration order and at most one per call. */
  lemma {:induction false} MeasureResultsSound(pos: nat, model: string, prompt: string,
                                               bench: Call -> Option<Measurement>, n: nat)
    ensures var rs := MeasureResults(pos, model, prompt, bench, n);
      && |rs| <= n
      && (forall k :: 0 <= k < |rs| ==>
            && rs[k].model == model
            && 1 <= rs[k].iteration <= n
            && rs[k].seed == MeasureSeedBase + rs[k].iteration - 1
            && bench(MeasureCall(pos, model, prompt, rs[k].iteration - 1))
               == Some(Measurement(rs[k].generationTime, rs[k].peakVramGb)))
      && (forall k, l :: 0 <= k < l < |rs| ==> rs[k].iteration < rs[l].iteration)
  {
    if n > 0 {
      MeasureResultsSound(pos, model, prompt, bench, n - 1);
      var prev := MeasureResults(pos, model, prompt, bench, n - 1);
      var last := ResultOf(bench, MeasureCall(pos, model, prompt, n - 1));
      var rs := prev + last;
      forall k | 0 <= k < |rs|
        ensures && rs[k].model == model
                && 1 <= rs[k].iteration <= n
                && rs[k].seed == MeasureSeedBase + rs[k].iteration - 1
                && bench(MeasureCall(pos, model, prompt, rs[k].iteration - 1))
                   == Some(Measurement(rs[k].generationTime, rs[k].peakVramGb))
      {
        if k < |prev| {
          assert rs[k] == prev[k];
        } else {
          assert rs[k] == last[0];
        }
      }
      forall k, l | 0 <= k < l < |rs| ensures rs[k].iteration < rs[l].iteration {
        if l < |prev| {
          assert rs[k] == prev[k] && rs[l] == prev[l];
        } else {
          assert rs[k] == prev[k] && rs[l] == last[0];
        }
      }
    }
  }

  /** Every successful measured call is recorded. */
  lemma {:induction false} MeasureResultsComplete(pos: nat, model: string, prompt: string,
                                                  bench: Call -> Option<Measurement>, n: nat)
    ensures forall j :: 0 <= j < n && bench(MeasureCall(pos, model, prompt, j)).Some? ==>
      exists k :: 0 <= k < |MeasureResults(pos, model, prompt, bench, n)|
                  && MeasureResults(pos, model, prompt, bench, n)[k].iteration == j + 1
  {
    if n > 0 {
      MeasureResultsComplete(pos, model, prompt, bench, n - 1);
      var prev := MeasureResults(pos, model, prompt, bench, n - 1);
      var c := MeasureCall(pos, model, prompt, n - 1);
      var rs := prev + ResultOf(bench, c);
      assert rs == MeasureResults(pos, model, prompt, bench, n);
      forall j | 0 <= j < n && bench(MeasureCall(pos, model, prompt, j)).Some?
        ensures exists k :: 0 <= k < |rs| && rs[k].iteration == j + 1
      {
        if j < n - 1 {
          var k :| 0 <= k < |prev| && prev[k].iteration == j + 1;
          assert rs[k] == prev[k];
        } else {
          assert rs[|prev|].iteration == j + 1;
        }
      }
    }
  }

  /** All `n` measured calls are recorded exactly when none of them fails. */
  lemma {:induction false} AllRecordedIffNoneFails(pos: nat, model: string, prompt: string,
                                                   bench: Call -> Option<Measurement>, n: nat)
    ensures |MeasureResults(pos, model, prompt, bench, n)| == n
        <==> forall j :: 0 <= j < n ==> bench(MeasureCall(pos, model, prompt, j)).Some?
  {
    if n > 0 {
      AllRecordedIffNoneFails(pos, model, prompt, bench, n - 1);
      MeasureResultsSound(pos, model, prompt, bench, n - 1);
      var c := MeasureCall(pos, model, prompt, n - 1);
      if bench(c).None? {
        assert |MeasureResults(pos, model, prompt, bench, n)| < n;
      }
    }
  }

  // ---------------------------------------------------------------------------
  // The results dictionary

  /** How often `m` occurs among the first `n` names. */
  function Count(models: seq<string>, m: string, n: nat): nat
    requires n <= |models|
  {
    if n == 0 then 0 else Count(models, m, n - 1) + (if models[n - 1] == m then 1 else 0)
  }

  /** The results of every occurrence of `m` among the first `n` names, in list order: an
      independent reading of the `results[model].append(...)` updates, key by key. */
  function ResultsFor(models: seq<string>, m: string, n: nat, prompt: string, iterations: int,
                      bench: Call -> Option<Measurement>): seq<BenchmarkResult>
    requires n <= |models|
  {
    if n == 0 then []
    else ResultsFor(models, m, n - 1, prompt, iterations, bench)
         + (if models[n - 1] == m then EntryResults(models, n - 1, prompt, iterations, bench) else [])
  }

  /** The dictionary after `n` entries holds, under every listed name, the results of all of
      that name's occurrences: a repeated name accumulates. */
  lemma {:induction false} ResultsAccumulate(models: seq<string>, m: string, n: nat, prompt: string,
                                             iterations: int, bench: Call -> Option<Measurement>)
    requires n <= |models| && m in models
    ensures m in ResultsUpTo(models, n, prompt, iterations, bench)
    ensures ResultsUpTo(models, n, prompt, iterations, bench)[m]
         == ResultsFor(models, m, n, prompt, iterations, bench)
  {
    if n > 0 {
      ResultsAccumulate(models, m, n - 1, prompt, iterations, bench);
      var prev := ResultsFor(models, m, n - 1, prompt, iterations, bench);
      if models[n - 1] != m || !Benchmarked(m) {
        assert prev + [] == prev;
      }
    }
  }

  /** An unknown name gets no results; a known one gets results with an iteration number in
      range and the seed of that iteration. */
  lemma {:induction false} ResultsForShape(models: seq<string>, m: string, n: nat, prompt: string,
                                           iterations: int, bench: Call -> Option<Measurement>)
    requires n <= |models|
    ensures !Benchmarked(m) ==> ResultsFor(models, m, n, prompt, iterations, bench) == []
    ensures forall k :: 0 <= k < |ResultsFor(models, m, n, prompt, iterations, bench)| ==>
      var r := ResultsFor(models, m, n, prompt, iterations, bench)[k];
      r.model == m && 1 <= r.iteration <= RangeLength(iterations) && r.seed == MeasureSeedBase + r.iteration - 1
  {
    if n > 0 {
      ResultsForShape(models, m, n - 1, prompt, iterations, bench);
      var prev := ResultsFor(models, m, n - 1, prompt, iterations, bench);
      var R := RangeLength(iterations);
      if models[n - 1] == m && Benchmarked(m) {
        var e := MeasureResults(n - 1, m, prompt, bench, R);
        MeasureResultsSound(n - 1, m, prompt, bench, R);
        var rs := prev + e;
        assert rs == ResultsFor(models, m, n, prompt, iterations, bench);
        forall k | 0 <= k < |rs|
          ensures rs[k].model == m && 1 <= rs[k].iteration <= R && rs[k].seed == MeasureSeedBase + rs[k].iteration - 1
        {
          if k < |prev| {
            assert rs[k] == prev[k];
          } else {
            assert rs[k] == e[k - |prev|];
          }
        }
      } else {
        assert prev + [] == prev;
      }
    }
  }

  lemma StepBound(a: nat, e: nat, c: nat, r: nat)
    requires a <= c * r && e <= r
    ensures a + e <= (c + 1) * r
  {
  }

  /** One entry yields at most `iterations` results. */
  lemma EntryResultsLength(models: seq<string>, pos: nat, prompt: string, iterations: int,
                           bench: Call -> Option<Measurement>)
    requires pos < |models|
    ensures |EntryResults(models, pos, prompt, iterations, bench)| <= RangeLength(iterations)
  {
    if Benchmarked(models[pos]) {
      MeasureResultsSound(pos, models[pos], prompt, bench, RangeLength(iterations));
    }
  }

  /** One more occurrence of `m` adds at most one entry's worth of results. */
  lemma ResultsForStep(models: seq<string>, m: string, n: nat, prompt: string,
                       iterations: int, bench: Call -> Option<Measurement>)
    requires 0 < n <= |models| && models[n - 1] == m
    requires |ResultsFor(models, m, n - 1, prompt, iterations, bench)| <= Count(models, m, n - 1) * RangeLength(iterations)
    ensures |ResultsFor(models, m, n, prompt, iterations, bench)| <= Count(models, m, n) * RangeLength(iterations)
  {
    EntryResultsLength(models, n - 1, prompt, iterations, bench);
    StepBound(|ResultsFor(models, m, n - 1, prompt, iterations, bench)|,
              |EntryResults(models, n - 1, prompt, iterations, bench)|,
              Count(models, m, n - 1), RangeLength(iterations));
  }

  /** A name gets at most its number of occurrences times the iteration count of results. */
  lemma {:induction false} ResultsForBound(models: seq<string>, m: string, n: nat, prompt: string,
                                           iterations: int, bench: Call -> Option<Measurement>)
    requires n <= |models|
    ensures |ResultsFor(models, m, n, prompt, iterations, bench)| <= Count(models, m, n) * RangeLength(iterations)
  {
    if n > 0 {
      ResultsForBound(models, m, n - 1, prompt, iterations, bench);
      if models[n - 1] == m {
        ResultsForStep(models, m, n, prompt, iterations, bench);
      }
    }
  }

  // ---------------------------------------------------------------------------
  // The summaries

  /** The summary loop over the first `k` keys: a key gets a summary exactly when it has results,
      and the summary is of all of them. */
  lemma {:induction false} SummariesFacts(order: seq<string>, results: map<string, seq<BenchmarkResult>>, k: nat,
                                          stdev: seq<real> -> real)
    requires k <= |order|
    requires forall m :: m in order ==> m in results
    ensures forall m :: m in SummariesUpTo(order, results, k, stdev) ==>
      && m in order[..k] && m in results && results[m] != []
      && SummariesUpTo(order, results, k, stdev)[m] == Summarize(m, results[m], stdev)
    ensures forall m :: m in order[..k] && m in results && results[m] != [] ==> m in SummariesUpTo(order, results, k, stdev)
  {
    if k > 0 {
      SummariesFacts(order, results, k - 1, stdev);
      assert order[..k] == order[..k - 1] + [order[k - 1]];
      assert order[k - 1] in order;
    }
  }

  predicate Distinct(s: seq<string>) {
    forall i, j :: 0 <= i < j < |s| ==> s[i] != s[j]
  }

  /** The summary order lists exactly the summarised keys, once each when the keys are distinct. */
  lemma {:induction false} SummaryOrderFacts(order: seq<string>, results: map<string, seq<BenchmarkResult>>, k: nat,
                                             stdev: seq<real> -> real)
    requires k <= |order|
    requires forall m :: m in order ==> m in results
    ensures forall m :: m in SummaryOrderUpTo(order, results, k) <==> m in SummariesUpTo(order, results, k, stdev)
    ensures Distinct(order) ==> Distinct(SummaryOrderUpTo(order, results, k))
  {
    if k > 0 {
      SummaryOrderFacts(order, results, k - 1, stdev);
      SummariesFacts(order, results, k - 1, stdev);
      var o := SummaryOrderUpTo(order, results, k - 1);
      var m := order[k - 1];
      assert m in order;
      if results[m] != [] && Distinct(order) {
        var earlier := order[..k - 1];
        forall i | 0 <= i < |earlier| ensures earlier[i] != m {
          assert earlier[i] == order[i];
        }
        assert m !in earlier;
        assert m !in o;
        forall i, j | 0 <= i < j < |o + [m]| ensures (o + [m])[i] != (o + [m])[j] {
          if j == |o| {
            assert (o + [m])[i] == o[i] && o[i] in o;
          } else {
            assert (o + [m])[i] == o[i] && (o + [m])[j] == o[j];
          }
        }
        assert SummaryOrderUpTo(order, results, k) == o + [m];
      }
    }
  }

  // ---------------------------------------------------------------------------
  // The run as a whole

  /** The calls of a run: all of known models, at their own position, with the prompt in force
      (the default prompt when none is given) and the seed of their phase. */
  lemma RunCalls(models: seq<string>, iterations: int, warmup: int, prompt: Option<string>,
                 bench: Call -> Option<Measurement>, stdev: seq<real> -> real)
    ensures var r := BenchmarkRun(models, iterations, warmup, prompt, bench, stdev);
      forall k :: 0 <= k < |r.calls| ==>
        CallOf(models, if prompt.None? then DefaultPrompt else prompt.value, r.calls[k])
  {
    TraceCalls(models, |models|, PromptOrDefault(prompt), iterations, warmup, bench);
  }

  /** The results of a run: one key per listed name, holding the results of all its occurrences;
      nothing for an unknown name. */
  lemma RunResults(models: seq<string>, iterations: int, warmup: int, prompt: Option<string>,
                   bench: Call -> Option<Measurement>, stdev: seq<real> -> real, m: string)
    ensures var r := BenchmarkRun(models, iterations, warmup, prompt, bench, stdev);
      && (m in r.results <==> m in models)
      && (m in models ==>
            && r.results[m] == ResultsFor(models, m, |models|, PromptOrDefault(prompt), iterations, bench)
            && (!Benchmarked(m) ==> r.results[m] == [])
            && |r.results[m]| <= Count(models, m, |models|) * RangeLength(iterations))
  {
    if m in models {
      ResultsAccumulate(models, m, |models|, PromptOrDefault(prompt), iterations, bench);
      ResultsForShape(models, m, |models|, PromptOrDefault(prompt), iterations, bench);
      ResultsForBound(models, m, |models|, PromptOrDefault(prompt), iterations, bench);
    }
  }

  /** The summaries of a run: a name is summarised exactly when it is listed and has at least one
      result (so never an unknown name), from all of its results; the summary order lists each
      summarised name once. */
  lemma RunSummaries(models: seq<string>, iterations: int, warmup: int, prompt: Option<string>,
                     bench: Call -> Option<Measurement>, stdev: seq<real> -> real, m: string)
    ensures var r := BenchmarkRun(models, iterations, warmup, prompt, bench, stdev);
      && (m in r.summaries <==> m in models && r.results[m] != [])
      && (m in r.summaries ==>
            && Benchmarked(m)
            && r.summaries[m] == Summarize(m, r.results[m], stdev)
            && 1 <= r.summaries[m].iterations <= Count(models, m, |models|) * RangeLength(iterations))
      && (m in r.summaryOrder <==> m in r.summaries)
      && Distinct(r.summaryOrder)
  {
    var p := PromptOrDefault(prompt);
    var results := ResultsUpTo(models, |models|, p, iterations, bench);
    var order := Dedup(models);
    assert order[..|order|] == order;
    SummariesFacts(order, results, |order|, stdev);
    SummaryOrderFacts(order, results, |order|, stdev);
    RunResults(models, iterations, warmup, prompt, bench, stdev, m);
    var s := SummariesUpTo(order, results, |order|, stdev);
    if m in s {
      SummarizeFacts(m, results[m], stdev);
    }
  }
}
