/** The llama.cpp (GGUF) sweep of lighthouse/benchmark_gguf.py: enumerate the
    configuration product, skip configurations the dataset snapshot already
    holds, run k_folds trials per configuration, average their timings, stage
    one JSON record per configuration, and finally merge the staged records
    into the dataset, dropping repeated ids.

    The inference engine is a collaborator: a value of type Engine says what
    every trial reports and how the loaded model describes itself. */
module Gguf {
  import opened Outcomes
  import opened Numeric
  import opened Product
  import opened Text
  import opened Table

  // ---------------------------------------------------------------------
  // Engine counters and their conversion (get_timings)
  // ---------------------------------------------------------------------

  /** The counters llama_get_timings reports, in milliseconds and tokens. */
  datatype LlamaTimings = LlamaTimings(
    tStartMs: real, tEndMs: real, tLoadMs: real, tSampleMs: real,
    tPEvalMs: real, tEvalMs: real, nSample: int, nPEval: int, nEval: int)

  /** One trial's measurements: four phase times and the total in seconds,
      and three rates in tokens per second. */
  datatype Timings = Timings(
    loadTime: real, sampleTime: real, promptEvalTime: real, evalTime: real,
    totalTime: real, sampleTks: real, promptEvalTks: real, evalTks: real)

  /** get_timings: every counter over 1000 gives seconds, the total is the
      wall-clock span, and each rate is tokens * 1000 over the phase time.
      Nothing guards the divisions, so a zero phase time raises. */
  function GetTimings(t: LlamaTimings): (r: Result<Timings>)
    ensures r.Raised? <==> t.tSampleMs == 0.0 || t.tPEvalMs == 0.0 || t.tEvalMs == 0.0
    ensures r.Raised? ==> r.exc == ZeroDivisionError
    ensures r.Ok? ==>
      && r.value.loadTime * 1000.0 == t.tLoadMs
      && r.value.sampleTime * 1000.0 == t.tSampleMs
      && r.value.promptEvalTime * 1000.0 == t.tPEvalMs
      && r.value.evalTime * 1000.0 == t.tEvalMs
      && r.value.totalTime * 1000.0 == t.tEndMs - t.tStartMs
      && r.value.sampleTks * t.tSampleMs == t.nSample as real * 1000.0
      && r.value.promptEvalTks * t.tPEvalMs == t.nPEval as real * 1000.0
      && r.value.evalTks * t.tEvalMs == t.nEval as real * 1000.0
  {
    if t.tSampleMs == 0.0 || t.tPEvalMs == 0.0 || t.tEvalMs == 0.0 then Raised(ZeroDivisionError)
    else Ok(Timings(
      t.tLoadMs / 1000.0, t.tSampleMs / 1000.0, t.tPEvalMs / 1000.0, t.tEvalMs / 1000.0,
      (t.tEndMs - t.tStartMs) / 1000.0,
      (t.nSample as real * 1000.0) / t.tSampleMs,
      (t.nPEval as real * 1000.0) / t.tPEvalMs,
      (t.nEval as real * 1000.0) / t.tEvalMs))
  }

  // ---------------------------------------------------------------------
  // Aggregation of k_folds samples
  // ---------------------------------------------------------------------

  /** The eight measured fields, one per list benchmark_gguf accumulates. */
  datatype Metric = LoadTime | SampleTime | PromptEvalTime | EvalTime
                  | TotalTime | SampleTks | PromptEvalTks | EvalTks

  function Get(t: Timings, m: Metric): real {
    match m
    case LoadTime => t.loadTime
    case SampleTime => t.sampleTime
    case PromptEvalTime => t.promptEvalTime
    case EvalTime => t.evalTime
    case TotalTime => t.totalTime
    case SampleTks => t.sampleTks
    case PromptEvalTks => t.promptEvalTks
    case EvalTks => t.evalTks
  }

  /** The column a record writes each field under. */
  function MetricColumn(m: Metric): string {
    match m
    case LoadTime => "Load Time (s)"
    case SampleTime => "Sample Time (s)"
    case PromptEvalTime => "Prompt Eval Time (s)"
    case EvalTime => "Eval Time (s)"
    case TotalTime => "Total Time (s)"
    case SampleTks => "Sample Time (Tk/s)"
    case PromptEvalTks => "Prompt Eval Time (Tk/s)"
    case EvalTks => "Eval Time (Tk/s)"
  }

  /** The fields the record stores rounded to two decimals. */
  predicate Rounded(m: Metric) {
    m.TotalTime? || m.SampleTks? || m.PromptEvalTks? || m.EvalTks?
  }

  /** The list of one field over all samples. */
  function Column(samples: seq<Timings>, m: Metric): (c: seq<real>)
    ensures |c| == |samples|
    ensures forall i :: 0 <= i < |samples| ==> c[i] == Get(samples[i], m)
  {
    seq(|samples|, i requires 0 <= i < |samples| => Get(samples[i], m))
  }

  /** The averaged fields of the record: every field is averaged on its own,
      from that field's samples only. */
  function Aggregate(samples: seq<Timings>): (r: Timings)
    requires |samples| > 0
    ensures forall m :: Get(r, m) == Averaged(samples, m)
  {
    var r := Timings(
      Averaged(samples, LoadTime), Averaged(samples, SampleTime),
      Averaged(samples, PromptEvalTime), Averaged(samples, EvalTime),
      Averaged(samples, TotalTime), Averaged(samples, SampleTks),
      Averaged(samples, PromptEvalTks), Averaged(samples, EvalTks));
    assert forall m :: Get(r, m) == Averaged(samples, m);
    r
  }

  /** One field of the record: the mean of its samples; total time and the
      three rates are then rounded to two decimals, the phase times are not. */
  function Averaged(samples: seq<Timings>, m: Metric): (x: real)
    requires |samples| > 0
    ensures !Rounded(m) ==> x * |samples| as real == Sum(Column(samples, m))
    ensures Rounded(m) ==> IsHundredths(x) && -0.005 <= x - Mean(Column(samples, m)) <= 0.005
  {
    if Rounded(m) then Round2(Mean(Column(samples, m))) else Mean(Column(samples, m))
  }

  /** The same sample k times averages to that sample, with only the four
      rounded fields rounded; a sample whose rounded fields already have two
      decimals comes back unchanged (so k_folds = 1 passes a sample through). */
  lemma AggregateIdentical(samples: seq<Timings>, t: Timings)
    requires |samples| > 0
    requires forall i :: 0 <= i < |samples| ==> samples[i] == t
    ensures Aggregate(samples) == Timings(t.loadTime, t.sampleTime, t.promptEvalTime, t.evalTime,
      Round2(t.totalTime), Round2(t.sampleTks), Round2(t.promptEvalTks), Round2(t.evalTks))
    ensures (IsHundredths(t.totalTime) && IsHundredths(t.sampleTks) && IsHundredths(t.promptEvalTks)
             && IsHundredths(t.evalTks)) ==> Aggregate(samples) == t
  {
    forall m ensures Mean(Column(samples, m)) == Get(t, m) {
      MeanConstant(Column(samples, m), Get(t, m));
    }
    if IsHundredths(t.totalTime) && IsHundredths(t.sampleTks) && IsHundredths(t.promptEvalTks) && IsHundredths(t.evalTks) {
      Round2Fixes(t.totalTime);
      Round2Fixes(t.sampleTks);
      Round2Fixes(t.promptEvalTks);
      Round2Fixes(t.evalTks);
    }
  }

  // ---------------------------------------------------------------------
  // The trial loop (benchmark_gguf)
  // ---------------------------------------------------------------------

  /** The arguments the model is loaded with: Llama(n_gpu_layers, n_batch,
      n_threads, n_threads_batch, n_ctx). */
  datatype LoadParams = LoadParams(nGpuLayers: int, nBatch: int, nThreads: int, nThreadsBatch: int, nCtx: int)

  /** What one generation call leaves behind: the completion's id and the
      engine's counters after the call. */
  datatype TrialOutput = TrialOutput(id: string, timings: LlamaTimings)

  /** get_llm_config: the device, machine and model description of the loaded
      engine, with the context, batch and thread settings the engine reports. */
  datatype LlmConfig = LlmConfig(
    device: string, vramGb: real, ramGb: real, cpuCount: int, model: string,
    modelSizeGb: real, nCtx: int, nBatch: int, nThreads: int, nThreadsBatch: int)

  /** The inference engine as the sweep sees it. `trial(call, params,
      promptSize, maxTokens, k)` is trial k of the call-th benchmark of the
      process, on a model loaded with `params`, prompted with `promptSize`
      random token ids and asked for `maxTokens` tokens (the engine is reset
      after every trial). Every generation call draws its own completion id,
      so two benchmarks with equal settings may report different ids.
      `describe` is get_llm_config; and `blockCount` is the model's
      llama.block_count metadata. */
  datatype Engine = Engine(
    trial: (nat, LoadParams, nat, int, nat) -> TrialOutput,
    describe: LoadParams -> LlmConfig,
    blockCount: int)

  /** The samples of the first n trials, or the exception of the first trial
      whose counters cannot be converted. */
  function Trials(e: Engine, call: nat, p: LoadParams, promptSize: nat, newTokens: int, n: nat): (r: Result<seq<Timings>>)
    ensures r.Ok? ==> |r.value| == n
  {
    if n == 0 then Ok([])
    else match Trials(e, call, p, promptSize, newTokens, n - 1)
      case Raised(x) => Raised(x)
      case Ok(samples) =>
        match GetTimings(e.trial(call, p, promptSize, newTokens, n - 1).timings)
        case Raised(x) => Raised(x)
        case Ok(t) => Ok(samples + [t])
  }

  /** Sample i is the conversion of trial i's own counters. */
  lemma {:induction false} TrialsSamples(e: Engine, call: nat, p: LoadParams, promptSize: nat, newTokens: int, n: nat)
    requires Trials(e, call, p, promptSize, newTokens, n).Ok?
    ensures forall i :: 0 <= i < n ==>
      GetTimings(e.trial(call, p, promptSize, newTokens, i).timings) == Ok(Trials(e, call, p, promptSize, newTokens, n).value[i])
  {
    if n > 0 {
      TrialsSamples(e, call, p, promptSize, newTokens, n - 1);
    }
  }

  /** Once a trial has raised, running more trials does not change the outcome. */
  lemma {:induction false} TrialsRaisedStays(e: Engine, call: nat, p: LoadParams, promptSize: nat, newTokens: int, i: nat, n: nat)
    requires i <= n && Trials(e, call, p, promptSize, newTokens, i).Raised?
    ensures Trials(e, call, p, promptSize, newTokens, n) == Trials(e, call, p, promptSize, newTokens, i)
  {
    if i < n {
      TrialsRaisedStays(e, call, p, promptSize, newTokens, i, n - 1);
    }
  }

  /** The dictionary benchmark_gguf returns, field by field: the last
      trial's completion id, the run name and time, the engine's
      description, the context window argument (which overrides the
      engine's), the recorded prompt length, the new tokens and the
      averaged measurements. */
  datatype Record = Record(id: string, runName: string, runTime: string, config: LlmConfig,
                           ctx: int, promptLength: int, newTokens: int, agg: Timings)

  /** A record as main stages it: with the memo and the offload fraction
      (as "GPU Layers") added. */
  datatype RunLog = RunLog(record: Record, memo: string, gpuLayers: real)

  /** The columns get_llm_config contributes to a record. */
  function ConfigRow(c: LlmConfig): (r: Row)
    ensures Scalar(r)
    ensures "id" !in r && "Run Name" !in r && "run_time" !in r
    ensures forall m :: MetricColumn(m) !in r
    ensures "Threads" in r && r["Threads"] == Num(c.nThreads as real)
    ensures "Batch Threads" in r && r["Batch Threads"] == Num(c.nThreadsBatch as real)
    ensures "Batch" in r && r["Batch"] == Num(c.nBatch as real)
  {
    map[
      "Device" := Str(c.device), "VRAM (GB)" := Num(c.vramGb), "RAM (GB)" := Num(c.ramGb),
      "CPU Count" := Num(c.cpuCount as real), "Model" := Str(c.model),
      "Model Size (GB)" := Num(c.modelSizeGb), "Context Window" := Num(c.nCtx as real),
      "Batch" := Num(c.nBatch as real), "Threads" := Num(c.nThreads as real),
      "Batch Threads" := Num(c.nThreadsBatch as real)]
  }

  /** The engine's description also carries the machine, the model, its
      size and the context window it reports, and has exactly these columns. */
  lemma ConfigRowCells(c: LlmConfig)
    ensures var r := ConfigRow(c);
      && "Device" in r && r["Device"] == Str(c.device)
      && "VRAM (GB)" in r && r["VRAM (GB)"] == Num(c.vramGb)
      && "RAM (GB)" in r && r["RAM (GB)"] == Num(c.ramGb)
      && "CPU Count" in r && r["CPU Count"] == Num(c.cpuCount as real)
      && "Model" in r && r["Model"] == Str(c.model)
      && "Model Size (GB)" in r && r["Model Size (GB)"] == Num(c.modelSizeGb)
      && "Context Window" in r && r["Context Window"] == Num(c.nCtx as real)
  {
  }

  /** The columns get_llm_config contributes. */
  lemma ConfigRowKeys(c: LlmConfig)
    ensures ConfigRow(c).Keys == {"Device", "VRAM (GB)", "RAM (GB)", "CPU Count", "Model", "Model Size (GB)",
                                  "Context Window", "Batch", "Threads", "Batch Threads"}
  {
  }

  /** The averaged fields of a record, each under its own column. */
  function Averages(agg: Timings): (r: Row)
    ensures Scalar(r)
    ensures forall m :: MetricColumn(m) in r && r[MetricColumn(m)] == Num(Get(agg, m))
    ensures "id" !in r && "Run Name" !in r && "run_time" !in r
    ensures "Threads" !in r && "Batch Threads" !in r && "Batch" !in r
    ensures "Context Window" !in r && "Prompt Length" !in r && "New Tokens" !in r
  {
    map[
      "Load Time (s)" := Num(agg.loadTime),
      "Sample Time (s)" := Num(agg.sampleTime),
      "Prompt Eval Time (s)" := Num(agg.promptEvalTime),
      "Eval Time (s)" := Num(agg.evalTime),
      "Total Time (s)" := Num(agg.totalTime),
      "Sample Time (Tk/s)" := Num(agg.sampleTks),
      "Prompt Eval Time (Tk/s)" := Num(agg.promptEvalTks),
      "Eval Time (Tk/s)" := Num(agg.evalTks)]
  }

  /** The columns benchmark_gguf itself writes after the engine's
      description: the context window argument, the prompt length, the new
      tokens and the averaged fields. */
  function Measurements(rec: Record): (r: Row)
    ensures Scalar(r)
    ensures "id" !in r && "Threads" !in r && "Batch Threads" !in r && "Batch" !in r
    ensures "Context Window" in r && r["Context Window"] == Num(rec.ctx as real)
    ensures "Prompt Length" in r && r["Prompt Length"] == Num(rec.promptLength as real)
    ensures "New Tokens" in r && r["New Tokens"] == Num(rec.newTokens as real)
    ensures "Run Name" !in r && "run_time" !in r
    ensures forall m :: MetricColumn(m) in r && r[MetricColumn(m)] == Num(Get(rec.agg, m))
  {
    var counts := map[
      "Context Window" := Num(rec.ctx as real),
      "Prompt Length" := Num(rec.promptLength as real),
      "New Tokens" := Num(rec.newTokens as real)];
    var averages := Averages(rec.agg);
    ScalarUnion(counts, averages);
    counts + averages
  }

  /** The record as a dictionary: id, run name and time, then the engine's
      description, then the measurements, whose context window overrides
      the engine's. */
  function RecordRow(rec: Record): (r: Row)
    ensures Scalar(r)
    ensures "id" in r && r["id"] == Str(rec.id)
    ensures "Run Name" in r && r["Run Name"] == Str(rec.runName)
    ensures "run_time" in r && r["run_time"] == Str(rec.runTime)
    ensures forall m :: MetricColumn(m) in r && r[MetricColumn(m)] == Num(Get(rec.agg, m))
    ensures "Context Window" in r && r["Context Window"] == Num(rec.ctx as real)
    ensures "Prompt Length" in r && r["Prompt Length"] == Num(rec.promptLength as real)
    ensures "New Tokens" in r && r["New Tokens"] == Num(rec.newTokens as real)
    ensures "Threads" in r && r["Threads"] == Num(rec.config.nThreads as real)
    ensures "Batch Threads" in r && r["Batch Threads"] == Num(rec.config.nThreadsBatch as real)
    ensures "Batch" in r && r["Batch"] == Num(rec.config.nBatch as real)
  {
    var head := map["id" := Str(rec.id), "Run Name" := Str(rec.runName), "run_time" := Str(rec.runTime)];
    var config := ConfigRow(rec.config);
    var measured := Measurements(rec);
    ScalarUnion(head, config);
    ScalarUnion(head + config, measured);
    head + config + measured
  }

  /** What benchmark_gguf returns or raises: a negative prompt size is
      refused when the random prompt is drawn; a trial whose counters cannot
      be converted raises; with no trial at all the last output is unbound;
      otherwise the record of the averaged trials, carrying the last
      trial's completion id and the prompt size plus one. */
  function BenchmarkOutcome(e: Engine, call: nat, promptSize: int, p: LoadParams, newTokens: int, kFolds: int,
                            ctx: int, runName: string, runTime: string): (r: Result<Record>)
    ensures r.Ok? <==> 0 <= promptSize && 1 <= kFolds && Trials(e, call, p, promptSize, newTokens, kFolds).Ok?
    ensures r.Ok? ==>
      && r.value.id == e.trial(call, p, promptSize, newTokens, kFolds - 1).id
      && r.value.promptLength == promptSize + 1
      && r.value.newTokens == newTokens
      && r.value.ctx == ctx
      && r.value.config == e.describe(p)
      && r.value.agg == Aggregate(Trials(e, call, p, promptSize, newTokens, kFolds).value)
  {
    if promptSize < 0 then Raised(ValueError("negative dimensions are not allowed"))
    else
      var n: nat := if kFolds < 0 then 0 else kFolds;
      match Trials(e, call, p, promptSize, newTokens, n)
      case Raised(x) => Raised(x)
      case Ok(samples) =>
        if n == 0 then Raised(UnboundLocalError("output"))
        else Ok(Record(e.trial(call, p, promptSize, newTokens, n - 1).id, runName, runTime,
                       e.describe(p), ctx, promptSize + 1, newTokens, Aggregate(samples)))
  }

  /** The k_folds loop of benchmark_gguf: n trials, each converted and
      appended to the samples, remembering the last trial's output id. */
  method RunTrials(e: Engine, call: nat, p: LoadParams, promptSize: nat, newTokens: int, n: nat)
    returns (r: Result<seq<Timings>>, lastId: Option<string>)
    ensures r == Trials(e, call, p, promptSize, newTokens, n)
    ensures r.Ok? ==> lastId == if n == 0 then None else Some(e.trial(call, p, promptSize, newTokens, n - 1).id)
  {
    var samples: seq<Timings> := [];
    lastId := None;
    var k := 0;
    while k < n
      invariant k <= n
      invariant Trials(e, call, p, promptSize, newTokens, k) == Ok(samples)
      invariant lastId == if k == 0 then None else Some(e.trial(call, p, promptSize, newTokens, k - 1).id)
    {
      var output := e.trial(call, p, promptSize, newTokens, k);
      var timings := GetTimings(output.timings);
      if timings.Raised? {
        assert Trials(e, call, p, promptSize, newTokens, k + 1) == Raised(timings.exc);
        TrialsRaisedStays(e, call, p, promptSize, newTokens, k + 1, n);
        return Raised(timings.exc), lastId;
      }
      samples := samples + [timings.value];
      lastId := Some(output.id);
      k := k + 1;
    }
    r := Ok(samples);
  }

  /** benchmark_gguf: the trials, then the record of their averages. */
  method BenchmarkGguf(promptSize: int, p: LoadParams, newTokens: int, kFolds: int, ctx: int,
                       e: Engine, call: nat, runName: string, runTime: string) returns (r: Result<Record>)
    ensures r == BenchmarkOutcome(e, call, promptSize, p, newTokens, kFolds, ctx, runName, runTime)
  {
    if promptSize < 0 {
      return Raised(ValueError("negative dimensions are not allowed"));
    }
    var n: nat := if kFolds < 0 then 0 else kFolds;
    var samples, lastId := RunTrials(e, call, p, promptSize, newTokens, n);
    if samples.Raised? {
      return Raised(samples.exc);
    }
    if lastId.None? {
      return Raised(UnboundLocalError("output"));
    }
    r := Ok(Record(lastId.value, runName, runTime, e.describe(p), ctx, promptSize + 1, newTokens,
                   Aggregate(samples.value)));
  }

  // ---------------------------------------------------------------------
  // The configuration space (main, itertools.product)
  // ---------------------------------------------------------------------

  /** The command-line arguments main reads. */
  datatype GgufArgs = GgufArgs(
    nThreads: seq<int>, nThreadsBatch: seq<int>, nBatch: seq<int>, ngl: seq<real>,
    promptLength: seq<int>, newTokens: seq<int>,
    ctx: int, kFolds: int, force: bool, memo: string, debug: bool)

  /** One configuration point; `ngl` is the offload fraction. */
  datatype Point = Point(threads: int, batchThreads: int, batch: int, ngl: real, promptLength: int, newTokens: int)

  function Flatten(t: (int, (int, (int, (real, (int, int)))))): Point {
    Point(t.0, t.1.0, t.1.1.0, t.1.1.1.0, t.1.1.1.1.0, t.1.1.1.1.1)
  }

  function Unflatten(p: Point): (int, (int, (int, (real, (int, int))))) {
    (p.threads, (p.batchThreads, (p.batch, (p.ngl, (p.promptLength, p.newTokens)))))
  }

  /** The nested pairs itertools.product yields, before unpacking. */
  function Tuples(a: GgufArgs): seq<(int, (int, (int, (real, (int, int)))))> {
    Cross(a.nThreads, Cross(a.nThreadsBatch, Cross(a.nBatch, Cross(a.ngl, Cross(a.promptLength, a.newTokens)))))
  }

  /** itertools.product(n_threads, n_threads_batch, n_batch, ngl,
      prompt_length, new_tokens): one point per combination. */
  function Points(a: GgufArgs): (ps: seq<Point>)
    ensures |ps| == |a.nThreads| * (|a.nThreadsBatch| * (|a.nBatch| * (|a.ngl| * (|a.promptLength| * |a.newTokens|))))
  {
    var c := Tuples(a);
    seq(|c|, i requires 0 <= i < |c| => Flatten(c[i]))
  }

  /** The point of axis positions i1..i6 is visited at the mixed-radix index
      of those positions: the order is lexicographic, the last axis fastest. */
  lemma PointAt(a: GgufArgs, i1: nat, i2: nat, i3: nat, i4: nat, i5: nat, i6: nat) returns (k: nat)
    requires i1 < |a.nThreads| && i2 < |a.nThreadsBatch| && i3 < |a.nBatch|
    requires i4 < |a.ngl| && i5 < |a.promptLength| && i6 < |a.newTokens|
    ensures
      var n5 := |a.promptLength| * |a.newTokens|;
      var n4 := |a.ngl| * n5;
      var n3 := |a.nBatch| * n4;
      var n2 := |a.nThreadsBatch| * n3;
      k == i1 * n2 + (i2 * n3 + (i3 * n4 + (i4 * n5 + (i5 * |a.newTokens| + i6))))
    ensures k < |Points(a)|
    ensures Points(a)[k] == Point(a.nThreads[i1], a.nThreadsBatch[i2], a.nBatch[i3], a.ngl[i4], a.promptLength[i5], a.newTokens[i6])
  {
    var c3 := Cross(a.nBatch, Cross(a.ngl, Cross(a.promptLength, a.newTokens)));
    assert |c3| == |a.nBatch| * (|a.ngl| * (|a.promptLength| * |a.newTokens|));
    var k3 := CrossAt4(a.nBatch, a.ngl, a.promptLength, a.newTokens, i3, i4, i5, i6);
    k := CrossAt3(a.nThreads, a.nThreadsBatch, c3, i1, i2, k3);
    assert Points(a)[k] == Flatten(Tuples(a)[k]);
  }

  /** A point is visited exactly when each of its coordinates is on its axis. */
  lemma PointsMembership(a: GgufArgs, p: Point)
    ensures p in Points(a) <==>
      p.threads in a.nThreads && p.batchThreads in a.nThreadsBatch && p.batch in a.nBatch &&
      p.ngl in a.ngl && p.promptLength in a.promptLength && p.newTokens in a.newTokens
  {
    var t := Unflatten(p);
    var c := Tuples(a);
    if p in Points(a) {
      var i :| 0 <= i < |c| && Points(a)[i] == p;
      assert c[i] == t;
    }
    if t in c {
      var i :| 0 <= i < |c| && c[i] == t;
      assert Points(a)[i] == p;
    }
    CrossMembership(a.nThreads, Cross(a.nThreadsBatch, Cross(a.nBatch, Cross(a.ngl, Cross(a.promptLength, a.newTokens)))), t);
    CrossMembership(a.nThreadsBatch, Cross(a.nBatch, Cross(a.ngl, Cross(a.promptLength, a.newTokens))), t.1);
    CrossMembership(a.nBatch, Cross(a.ngl, Cross(a.promptLength, a.newTokens)), t.1.1);
    CrossMembership(a.ngl, Cross(a.promptLength, a.newTokens), t.1.1.1);
    CrossMembership(a.promptLength, a.newTokens, t.1.1.1.1);
  }

  // ---------------------------------------------------------------------
  // Offload conversion and the skip rule
  // ---------------------------------------------------------------------

  /** The layer count handed to the engine: int((block_count + 1) * ngl),
      a truncation of the fraction of the block count plus one. */
  function OffloadLayers(blockCount: int, fraction: real): (n: int)
    ensures 0 <= blockCount && 0.0 <= fraction <= 1.0 ==> 0 <= n <= blockCount + 1
    ensures 0 <= blockCount && 0.0 <= fraction ==>
      n as real <= (blockCount + 1) as real * fraction < n as real + 1.0
    ensures fraction == 0.0 ==> n == 0
    ensures fraction == 1.0 ==> n == blockCount + 1
  {
    var n := Trunc((blockCount + 1) as real * fraction);
    TruncScaledFraction(blockCount, fraction);
    n
  }

  /** A fraction of at most one of block_count + 1, truncated, is at most
      block_count + 1. */
  lemma TruncScaledFraction(blockCount: int, fraction: real)
    ensures 0 <= blockCount && 0.0 <= fraction <= 1.0 ==>
      0 <= Trunc((blockCount + 1) as real * fraction) <= blockCount + 1
  {
    if 0 <= blockCount && 0.0 <= fraction <= 1.0 {
      var m := (blockCount + 1) as real;
      var x := m * fraction;
      assert 0.0 <= x <= m by {
        assert m * fraction <= m * 1.0;
      }
      var n := Trunc(x);
      assert n as real <= x;
    }
  }

  /** Half of a 39-block model gives 20 layers; 0.9 of a 40-block model gives
      36 layers, where rounding would give 37. */
  lemma OffloadExamples()
    ensures OffloadLayers(39, 0.5) == 20
    ensures OffloadLayers(40, 0.9) == 36 && RoundHalfEven(41.0 * 0.9) == 37
  {
    assert 40.0 * 0.5 == 20.0;
    assert 41.0 * 0.9 == 36.9;
  }

  /** A snapshot row matches a point on the four compared columns: equal
      threads, batch threads, batch and offload fraction (a NaN cell, i.e. a
      column missing from the row, matches nothing). */
  predicate SameConfig(row: Row, p: Point) {
    && "Threads" in row && row["Threads"] == Num(p.threads as real)
    && "Batch Threads" in row && row["Batch Threads"] == Num(p.batchThreads as real)
    && "Batch" in row && row["Batch"] == Num(p.batch as real)
    && "GPU Layers" in row && row["GPU Layers"] == Num(p.ngl)
  }

  /** The columns the skip rule reads, in the order it reads them. */
  const SkipColumns: seq<string> := ["Threads", "Batch Threads", "Batch", "GPU Layers"]

  /** config_already_tried: selecting a missing column raises KeyError for the
      first one missing; otherwise whether some row matches. */
  function ConfigAlreadyTried(snapshot: Frame, p: Point): (r: Result<bool>)
    ensures r.Raised? <==> exists k :: k in SkipColumns && k !in snapshot.columns
    ensures r.Raised? ==> r.exc.KeyError? && r.exc.key in SkipColumns && r.exc.key !in snapshot.columns
    ensures r.Ok? ==> (r.value <==> exists i :: 0 <= i < |snapshot.rows| && SameConfig(snapshot.rows[i], p))
  {
    if "Threads" !in snapshot.columns then Raised(KeyError("Threads"))
    else if "Batch Threads" !in snapshot.columns then Raised(KeyError("Batch Threads"))
    else if "Batch" !in snapshot.columns then Raised(KeyError("Batch"))
    else if "GPU Layers" !in snapshot.columns then Raised(KeyError("GPU Layers"))
    else Ok(exists i :: 0 <= i < |snapshot.rows| && SameConfig(snapshot.rows[i], p))
  }

  /** The skip rule looks at no other column: a row written on another
      machine, for another model or with another memo matches a point exactly
      when it would otherwise. */
  lemma SkipIgnoresMachine(row: Row, p: Point, k: string, v: Value)
    requires k !in SkipColumns
    ensures SameConfig(row[k := v], p) <==> SameConfig(row, p)
  {
  }

  /** The skip rule ignores prompt length and new tokens: two points that
      agree on the four compared settings are both tried or both not. */
  lemma SkipIgnoresLengths(snapshot: Frame, p: Point, q: Point)
    requires p.threads == q.threads && p.batchThreads == q.batchThreads
    requires p.batch == q.batch && p.ngl == q.ngl
    ensures ConfigAlreadyTried(snapshot, p) == ConfigAlreadyTried(snapshot, q)
  {
    assert forall row :: SameConfig(row, p) <==> SameConfig(row, q);
  }

  // ---------------------------------------------------------------------
  // The sweep (main)
  // ---------------------------------------------------------------------

  /** What main takes from its surroundings: whether CUDA is available, the
      engine, the run name drawn once per process, and the two clock readings
      of the i-th point (the record's run time and the staging file's name). */
  datatype Host = Host(cudaAvailable: bool, engine: Engine, runName: string,
                       runClock: nat -> string, fileClock: nat -> string)

  /** A file of the intake folder and the JSON object it holds. */
  datatype InputFile = InputFile(name: string, content: map<string, Value>)

  function StagedName(h: Host, i: nat): string {
    h.fileClock(i) + ".json"
  }

  /** How the i-th point loads the model: its offload fraction converted to
      layers, its batch and thread settings, and the context window. */
  function PointParams(h: Host, a: GgufArgs, p: Point): LoadParams {
    LoadParams(OffloadLayers(h.engine.blockCount, p.ngl), p.batch, p.threads, p.batchThreads, a.ctx)
  }

  /** The log of a point that is run: benchmark_gguf with a prompt one shorter
      than the requested length, then the memo and the offload fraction. */
  function PointLog(h: Host, a: GgufArgs, p: Point, i: nat): (r: Result<RunLog>)
    ensures r.Ok? <==>
      1 <= p.promptLength && 1 <= a.kFolds &&
      Trials(h.engine, i, PointParams(h, a, p), p.promptLength - 1, p.newTokens, a.kFolds).Ok?
    ensures r.Ok? ==>
      && r.value.record.id == h.engine.trial(i, PointParams(h, a, p), p.promptLength - 1, p.newTokens, a.kFolds - 1).id
      && r.value.record.promptLength == p.promptLength
      && r.value.record.newTokens == p.newTokens
      && r.value.record.ctx == a.ctx
      && r.value.record.config == h.engine.describe(PointParams(h, a, p))
      && r.value.gpuLayers == p.ngl
      && r.value.memo == a.memo
  {
    match BenchmarkOutcome(h.engine, i, p.promptLength - 1, PointParams(h, a, p), p.newTokens, a.kFolds,
                           a.ctx, h.runName, h.runClock(i))
    case Raised(x) => Raised(x)
    case Ok(rec) => Ok(RunLog(rec, a.memo, p.ngl))
  }

  /** The JSON object main stages for a run: the record's dictionary with
      log["memo"] and log["GPU Layers"] set. */
  function LogRow(log: RunLog): (r: Row)
    ensures Scalar(r)
  {
    RecordRow(log.record)["memo" := Str(log.memo)]["GPU Layers" := Num(log.gpuLayers)]
  }

  /** The staged object keeps the completion id and carries the memo. */
  lemma LogRowIdentity(log: RunLog)
    ensures "id" in LogRow(log) && LogRow(log)["id"] == Str(log.record.id)
    ensures "memo" in LogRow(log) && LogRow(log)["memo"] == Str(log.memo)
  {
    assert "id" in RecordRow(log.record);
  }

  /** The staged object carries the four columns the skip rule compares: the
      settings the engine reported and the offload fraction. */
  lemma LogRowSkipColumns(log: RunLog)
    ensures "GPU Layers" in LogRow(log) && LogRow(log)["GPU Layers"] == Num(log.gpuLayers)
    ensures "Threads" in LogRow(log) && LogRow(log)["Threads"] == Num(log.record.config.nThreads as real)
    ensures "Batch Threads" in LogRow(log) && LogRow(log)["Batch Threads"] == Num(log.record.config.nThreadsBatch as real)
    ensures "Batch" in LogRow(log) && LogRow(log)["Batch"] == Num(log.record.config.nBatch as real)
  {
    var base := RecordRow(log.record);
    assert "Threads" in base && "Batch Threads" in base && "Batch" in base;
  }

  /** A point that is run leaves a record the skip rule recognises as that
      point, provided the engine reports the batch and thread settings it was
      loaded with: a later sweep over a dataset holding this record skips it. */
  lemma RunPointIsTriedLater(h: Host, a: GgufArgs, snapshot: Frame, p: Point, i: nat, log: RunLog)
    requires PointStep(h, a, snapshot, p, i) == Ok(Some(log))
    requires h.engine.describe(PointParams(h, a, p)).nThreads == p.threads
    requires h.engine.describe(PointParams(h, a, p)).nThreadsBatch == p.batchThreads
    requires h.engine.describe(PointParams(h, a, p)).nBatch == p.batch
    ensures SameConfig(LogRow(log), p)
  {
    LogRowSkipColumns(log);
  }

  /** The fate of the i-th point: Ok(None) when it is skipped, Ok(Some(log))
      when it is run, or the exception that ends the run. */
  function PointStep(h: Host, a: GgufArgs, snapshot: Frame, p: Point, i: nat): (r: Result<Option<RunLog>>)
    ensures r.Ok? && r.value.None? <==> ConfigAlreadyTried(snapshot, p) == Ok(true) && !a.force
    ensures r.Ok? && r.value.Some? <==>
      ConfigAlreadyTried(snapshot, p).Ok? && !(ConfigAlreadyTried(snapshot, p).value && !a.force) && PointLog(h, a, p, i).Ok?
    ensures r.Ok? && r.value.Some? ==> PointLog(h, a, p, i) == Ok(r.value.value)
  {
    match ConfigAlreadyTried(snapshot, p)
    case Raised(x) => Raised(x)
    case Ok(tried) =>
      if tried && !a.force then Ok(None)
      else match PointLog(h, a, p, i)
        case Raised(x) => Raised(x)
        case Ok(log) => Ok(Some(log))
  }

  /** The fate of every point of `pts`, each decided on its own: the skip
      check reads only the snapshot loaded before the sweep, never what
      earlier points staged. */
  function Fates(h: Host, a: GgufArgs, snapshot: Frame, pts: seq<Point>): (fs: seq<Result<Option<Row>>>)
    ensures |fs| == |pts|
    ensures forall i :: 0 <= i < |pts| ==> fs[i] == AsJson(PointStep(h, a, snapshot, pts[i], i))
  {
    seq(|pts|, i requires 0 <= i < |pts| => AsJson(PointStep(h, a, snapshot, pts[i], i)))
  }

  /** A point's fate with its run log laid out as the JSON object json.dump writes. */
  function AsJson(fate: Result<Option<RunLog>>): (r: Result<Option<Row>>)
    ensures r.Raised? <==> fate.Raised?
    ensures r.Ok? ==> (r.value.Some? <==> fate.value.Some?)
    ensures r.Ok? && r.value.Some? ==> r.value.value == LogRow(fate.value.value)
  {
    match fate
    case Raised(x) => Raised(x)
    case Ok(None) => Ok(None)
    case Ok(Some(log)) => Ok(Some(LogRow(log)))
  }

  /** The files staged for a sequence of fates, in order, or the first
      exception: the i-th run point is staged as a file named by the i-th
      clock reading, except in debug mode. */
  function Stage(h: Host, debug: bool, fates: seq<Result<Option<Row>>>): Result<seq<InputFile>>
  {
    if |fates| == 0 then Ok([])
    else
      var i := |fates| - 1;
      match Stage(h, debug, fates[..i])
      case Raised(x) => Raised(x)
      case Ok(staged) =>
        match fates[i]
        case Raised(x) => Raised(x)
        case Ok(None) => Ok(staged)
        case Ok(Some(log)) => Ok(if debug then staged else staged + [InputFile(StagedName(h, i), log)])
  }

  /** The sweep of main over `pts`. */
  function Sweep(h: Host, a: GgufArgs, snapshot: Frame, pts: seq<Point>): Result<seq<InputFile>>
  {
    Stage(h, a.debug, Fates(h, a, snapshot, pts))
  }

  /** A completed staging had no exception; outside debug mode it holds
      exactly the logs of the run points, in order, each under its point's
      file name, and in debug mode nothing. */
  lemma {:induction false} StageContents(h: Host, debug: bool, fates: seq<Result<Option<Row>>>)
    requires Stage(h, debug, fates).Ok?
    ensures forall i :: 0 <= i < |fates| ==> fates[i].Ok?
    ensures !debug ==> forall i, log :: 0 <= i < |fates| && fates[i] == Ok(Some(log)) ==>
      InputFile(StagedName(h, i), log) in Stage(h, debug, fates).value
    ensures !debug ==> forall f :: f in Stage(h, debug, fates).value ==>
      exists i :: 0 <= i < |fates| && f.name == StagedName(h, i) && fates[i] == Ok(Some(f.content))
    ensures debug ==> Stage(h, debug, fates).value == []
  {
    if |fates| > 0 {
      var i := |fates| - 1;
      var pre := fates[..i];
      StageContents(h, debug, pre);
      assert forall j :: 0 <= j < i ==> pre[j] == fates[j];
    }
  }

  /** Staging one more fate. */
  lemma StageNext(h: Host, debug: bool, fates: seq<Result<Option<Row>>>, i: nat)
    requires i < |fates| && Stage(h, debug, fates[..i]).Ok?
    ensures Stage(h, debug, fates[..i + 1]) ==
      match fates[i]
      case Raised(x) => Raised(x)
      case Ok(None) => Stage(h, debug, fates[..i])
      case Ok(Some(log)) =>
        Ok(if debug then Stage(h, debug, fates[..i]).value
           else Stage(h, debug, fates[..i]).value + [InputFile(StagedName(h, i), log)])
  {
    assert fates[..i + 1][..i] == fates[..i];
  }

  /** Staging stops at the first exception. */
  lemma {:induction false} StageRaisedStays(h: Host, debug: bool, fates: seq<Result<Option<Row>>>, n: nat)
    requires n <= |fates| && Stage(h, debug, fates[..n]).Raised?
    ensures Stage(h, debug, fates) == Stage(h, debug, fates[..n])
  {
    if n < |fates| {
      assert fates[..|fates| - 1][..n] == fates[..n];
      StageRaisedStays(h, debug, fates[..|fates| - 1], n);
    } else {
      assert fates[..n] == fates;
    }
  }

  /** The number of run points among the fates. */
  function RunCount(fates: seq<Result<Option<Row>>>): nat {
    if |fates| == 0 then 0
    else RunCount(fates[..|fates| - 1]) + (if fates[|fates| - 1].Ok? && fates[|fates| - 1].value.Some? then 1 else 0)
  }

  /** Outside debug mode one file is staged per run point. */
  lemma {:induction false} StageCount(h: Host, debug: bool, fates: seq<Result<Option<Row>>>)
    requires Stage(h, debug, fates).Ok? && !debug
    ensures |Stage(h, debug, fates).value| == RunCount(fates)
  {
    if |fates| > 0 {
      StageCount(h, debug, fates[..|fates| - 1]);
    }
  }

  /** With --force nothing is skipped: a completed sweep ran every point and,
      outside debug mode, staged one file per point. */
  lemma ForcedSweepRunsAll(h: Host, a: GgufArgs, snapshot: Frame, pts: seq<Point>)
    requires a.force && Sweep(h, a, snapshot, pts).Ok?
    ensures forall i :: 0 <= i < |pts| ==>
      PointStep(h, a, snapshot, pts[i], i).Ok? && PointStep(h, a, snapshot, pts[i], i).value.Some?
    ensures !a.debug ==> |Sweep(h, a, snapshot, pts).value| == |pts|
  {
    var fs := Fates(h, a, snapshot, pts);
    StageContents(h, a.debug, fs);
    if !a.debug {
      StageCount(h, a.debug, fs);
      AllRun(fs);
    }
  }

  lemma {:induction false} AllRun(fates: seq<Result<Option<Row>>>)
    requires forall i :: 0 <= i < |fates| ==> fates[i].Ok? && fates[i].value.Some?
    ensures RunCount(fates) == |fates|
  {
    if |fates| > 0 {
      AllRun(fates[..|fates| - 1]);
    }
  }

  /** One pass of main's loop body: the offload conversion, the skip check,
      and for a point that is run, benchmark_gguf and the two extra fields. */
  method RunPoint(h: Host, a: GgufArgs, snapshot: Frame, p: Point, i: nat) returns (fate: Result<Option<RunLog>>)
    ensures fate == PointStep(h, a, snapshot, p, i)
  {
    var intNgl := OffloadLayers(h.engine.blockCount, p.ngl);
    var tried := ConfigAlreadyTried(snapshot, p);
    if tried.Raised? {
      return Raised(tried.exc);
    }
    if tried.value && !a.force {
      return Ok(None);
    }
    var params := LoadParams(intNgl, p.batch, p.threads, p.batchThreads, a.ctx);
    var log := BenchmarkGguf(p.promptLength - 1, params, p.newTokens, a.kFolds, a.ctx,
                             h.engine, i, h.runName, h.runClock(i));
    if log.Raised? {
      return Raised(log.exc);
    }
    fate := Ok(Some(RunLog(log.value, a.memo, p.ngl)));
  }

  /** The sweep loop of main: every point in turn, staging a file for each
      point that is run unless in debug mode. */
  method RunSweep(h: Host, a: GgufArgs, snapshot: Frame) returns (r: Result<seq<InputFile>>)
    ensures r == Sweep(h, a, snapshot, Points(a))
  {
    var pts := Points(a);
    ghost var fs := Fates(h, a, snapshot, pts);
    var staged: seq<InputFile> := [];
    var i := 0;
    while i < |pts|
      invariant 0 <= i <= |pts|
      invariant Stage(h, a.debug, fs[..i]) == Ok(staged)
    {
      var fate := RunPoint(h, a, snapshot, pts[i], i);
      assert AsJson(fate) == fs[i];
      StageNext(h, a.debug, fs, i);
      if fate.Raised? {
        StageRaisedStays(h, a.debug, fs, i + 1);
        return Raised(fate.exc);
      }
      if fate.value.Some? && !a.debug {
        staged := staged + [InputFile(StagedName(h, i), LogRow(fate.value.value))];
      }
      i := i + 1;
    }
    assert fs[..|pts|] == fs;
    r := Ok(staged);
  }

  /** What a completed sweep did: no point raised; outside debug mode the
      staged files are exactly the logs of the run points, in point order,
      each under its point's file name; in debug mode nothing is staged. */
  lemma SweepStaged(h: Host, a: GgufArgs, snapshot: Frame, pts: seq<Point>)
    requires Sweep(h, a, snapshot, pts).Ok?
    ensures forall i :: 0 <= i < |pts| ==> PointStep(h, a, snapshot, pts[i], i).Ok?
    ensures !a.debug ==> forall i, log :: 0 <= i < |pts| && PointStep(h, a, snapshot, pts[i], i) == Ok(Some(log)) ==>
      InputFile(StagedName(h, i), LogRow(log)) in Sweep(h, a, snapshot, pts).value
    ensures !a.debug ==> forall f :: f in Sweep(h, a, snapshot, pts).value ==>
      exists i :: 0 <= i < |pts| && f.name == StagedName(h, i) && PointStep(h, a, snapshot, pts[i], i).Ok? &&
        PointStep(h, a, snapshot, pts[i], i).value.Some? && f.content == LogRow(PointStep(h, a, snapshot, pts[i], i).value.value)
    ensures a.debug ==> Sweep(h, a, snapshot, pts).value == []
  {
    StageContents(h, a.debug, Fates(h, a, snapshot, pts));
  }

  // ---------------------------------------------------------------------
  // The merge (process_json_files_in_folder)
  // ---------------------------------------------------------------------

  predicate IsJson(f: InputFile) {
    EndsWith(f.name, ".json")
  }

  /** The frame after the loop over the listing: every .json file is read
      and appended in listing order; other files are passed over. */
  function Intake(base: Frame, files: seq<InputFile>): Result<Frame>
  {
    if |files| == 0 then Ok(base)
    else
      var file := files[|files| - 1];
      match Intake(base, files[..|files| - 1])
      case Raised(x) => Raised(x)
      case Ok(f) =>
        if !IsJson(file) then Ok(f)
        else match ReadJsonFile(file.content)
          case Raised(x) => Raised(x)
          case Ok(nd) => Ok(Concat(f, nd))
  }

  /** What process_json_files_in_folder returns or raises. */
  function MergeOutcome(existing: Option<Frame>, files: seq<InputFile>): Result<Frame>
  {
    match Intake(LoadExistingDataframe(existing), files)
    case Raised(x) => Raised(x)
    case Ok(f) => DropDuplicatesById(f)
  }

  /** process_json_files_in_folder over the folder's listing. */
  method ProcessJsonFilesInFolder(existing: Option<Frame>, files: seq<InputFile>) returns (r: Result<Frame>)
    ensures r == MergeOutcome(existing, files)
  {
    var base := LoadExistingDataframe(existing);
    var finalDf := base;
    var i := 0;
    while i < |files|
      invariant 0 <= i <= |files|
      invariant Intake(base, files[..i]) == Ok(finalDf)
    {
      assert files[..i + 1][..i] == files[..i];
      if IsJson(files[i]) {
        var newDf := ReadJsonFile(files[i].content);
        if newDf.Raised? {
          IntakeRaisedStays(base, files, i + 1);
          return Raised(newDf.exc);
        }
        finalDf := Concat(finalDf, newDf.value);
      }
      i := i + 1;
    }
    assert files[..|files|] == files;
    r := DropDuplicatesById(finalDf);
  }

  lemma {:induction false} IntakeRaisedStays(base: Frame, files: seq<InputFile>, n: nat)
    requires n <= |files| && Intake(base, files[..n]).Raised?
    ensures Intake(base, files) == Intake(base, files[..n])
  {
    if n < |files| {
      assert files[..|files| - 1][..n] == files[..n];
      IntakeRaisedStays(base, files[..|files| - 1], n);
    } else {
      assert files[..n] == files;
    }
  }

  /** The .json files of a listing, in order. */
  function JsonFiles(files: seq<InputFile>): (js: seq<InputFile>)
    ensures forall f :: f in js <==> f in files && IsJson(f)
  {
    if |files| == 0 then []
    else JsonFiles(files[..|files| - 1]) + (if IsJson(files[|files| - 1]) then [files[|files| - 1]] else [])
  }

  /** Files that are not .json files make no difference to the intake. */
  lemma {:induction false} IntakeJsonOnly(base: Frame, files: seq<InputFile>)
    ensures Intake(base, files) == Intake(base, JsonFiles(files))
  {
    if |files| > 0 {
      var pre := files[..|files| - 1];
      var file := files[|files| - 1];
      IntakeJsonOnly(base, pre);
      if IsJson(file) {
        var js := JsonFiles(pre) + [file];
        assert JsonFiles(files) == js;
        assert js[..|js| - 1] == JsonFiles(pre) && js[|js| - 1] == file;
        assert Intake(base, js) == match Intake(base, JsonFiles(pre))
          case Raised(x) => Raised(x)
          case Ok(f) => (match ReadJsonFile(file.content)
            case Raised(x) => Raised(x)
            case Ok(nd) => Ok(Concat(f, nd)));
      } else {
        assert JsonFiles(files) == JsonFiles(pre) + [];
        assert JsonFiles(pre) + [] == JsonFiles(pre);
      }
    }
  }

  /** Every .json file of the listing holds a non-empty dictionary of scalars,
      as the records main stages do. */
  predicate ScalarRecords(files: seq<InputFile>) {
    forall i :: 0 <= i < |files| && IsJson(files[i]) ==> |files[i].content| > 0 && Scalar(files[i].content)
  }

  /** The rows the .json files contribute, in listing order. */
  function Records(files: seq<InputFile>): seq<Row> {
    if |files| == 0 then []
    else Records(files[..|files| - 1]) + (if IsJson(files[|files| - 1]) then [files[|files| - 1].content] else [])
  }

  /** The columns the .json files contribute. */
  function RecordColumns(files: seq<InputFile>): set<string> {
    if |files| == 0 then {}
    else RecordColumns(files[..|files| - 1]) + (if IsJson(files[|files| - 1]) then files[|files| - 1].content.Keys else {})
  }

  /** Reading records of scalars appends one row per .json file, holding
      exactly that file's dictionary, after the rows already there. */
  lemma {:induction false} IntakeRecords(base: Frame, files: seq<InputFile>)
    requires ScalarRecords(files)
    ensures Intake(base, files).Ok? && Intake(base, files).value.rows == base.rows + Records(files)
  {
    if |files| > 0 {
      var pre := files[..|files| - 1];
      var file := files[|files| - 1];
      ScalarRecordsPrefix(files);
      IntakeRecords(base, pre);
      IntakeLast(base, pre, file);
      assert pre + [file] == files;
      if IsJson(file) {
        assert base.rows + Records(pre) + [file.content] == base.rows + (Records(pre) + [file.content]);
      } else {
        assert Records(pre) + [] == Records(pre);
      }
    } else {
      assert base.rows + [] == base.rows;
    }
  }

  /** ... and adds exactly the columns of those dictionaries. */
  lemma {:induction false} IntakeColumns(base: Frame, files: seq<InputFile>)
    requires ScalarRecords(files)
    ensures Intake(base, files).Ok? && Intake(base, files).value.columns == base.columns + RecordColumns(files)
  {
    if |files| > 0 {
      var pre := files[..|files| - 1];
      var file := files[|files| - 1];
      ScalarRecordsPrefix(files);
      IntakeColumns(base, pre);
      IntakeLast(base, pre, file);
      assert pre + [file] == files;
      if IsJson(file) {
        assert base.columns + RecordColumns(pre) + file.content.Keys == base.columns + (RecordColumns(pre) + file.content.Keys);
      } else {
        assert RecordColumns(pre) + {} == RecordColumns(pre);
      }
    } else {
      assert base.columns + {} == base.columns;
    }
  }

  lemma ScalarRecordsPrefix(files: seq<InputFile>)
    requires |files| > 0 && ScalarRecords(files)
    ensures ScalarRecords(files[..|files| - 1])
  {
    var pre := files[..|files| - 1];
    forall i | 0 <= i < |pre| && IsJson(pre[i]) ensures |pre[i].content| > 0 && Scalar(pre[i].content) {
      assert pre[i] == files[i];
    }
  }

  /** Reading one more file, a record of scalars. */
  lemma IntakeLast(base: Frame, pre: seq<InputFile>, file: InputFile)
    requires Intake(base, pre).Ok?
    requires IsJson(file) ==> |file.content| > 0 && Scalar(file.content)
    ensures Intake(base, pre + [file]) ==
      if IsJson(file) then Ok(Concat(Intake(base, pre).value, SingleRow(file.content))) else Intake(base, pre)
    ensures Records(pre + [file]) == Records(pre) + (if IsJson(file) then [file.content] else [])
    ensures RecordColumns(pre + [file]) == RecordColumns(pre) + (if IsJson(file) then file.content.Keys else {})
  {
    assert (pre + [file])[..|pre|] == pre;
    if IsJson(file) {
      ReadScalarRecord(file.content);
    }
  }

  /** The rows already there stay first, unchanged. */
  lemma {:induction false} IntakeKeeps(base: Frame, files: seq<InputFile>)
    requires Intake(base, files).Ok?
    ensures |base.rows| <= |Intake(base, files).value.rows|
    ensures Intake(base, files).value.rows[..|base.rows|] == base.rows
    ensures base.columns <= Intake(base, files).value.columns
  {
    if |files| > 0 {
      var pre := files[..|files| - 1];
      var file := files[|files| - 1];
      IntakeKeeps(base, pre);
      var f := Intake(base, pre).value;
      if IsJson(file) {
        var g := Concat(f, ReadJsonFile(file.content).value);
        assert g.rows[..|f.rows|] == f.rows;
        assert g.rows[..|base.rows|] == f.rows[..|base.rows|];
      }
    }
  }

  /** Every record of scalars read in is a row of the intake. */
  lemma {:induction false} IntakeHolds(base: Frame, files: seq<InputFile>)
    requires Intake(base, files).Ok?
    ensures forall j :: 0 <= j < |files| && IsJson(files[j]) && |files[j].content| > 0 && Scalar(files[j].content) ==>
      files[j].content in Intake(base, files).value.rows
  {
    if |files| > 0 {
      var pre := files[..|files| - 1];
      var file := files[|files| - 1];
      IntakeHolds(base, pre);
      var f := Intake(base, pre).value;
      assert forall j :: 0 <= j < |pre| ==> pre[j] == files[j];
      if IsJson(file) {
        var g := Concat(f, ReadJsonFile(file.content).value);
        assert forall r :: r in f.rows ==> r in g.rows;
        if |file.content| > 0 && Scalar(file.content) {
          ReadScalarRecord(file.content);
          assert g.rows[|f.rows|] == file.content;
        }
      }
    }
  }

  /** A merge keeps one row per id: every id present before or read in
      survives, no id repeats once bulb.csv has columns, and existing rows
      that were already unique stay first, unchanged and in order. */
  lemma MergeContents(existing: Frame, files: seq<InputFile>)
    requires MergeOutcome(Some(existing), files).Ok?
    ensures existing.columns != {} ==> DistinctIds(MergeOutcome(Some(existing), files).value.rows)
    ensures Ids(existing.rows) <= Ids(MergeOutcome(Some(existing), files).value.rows)
    ensures forall j :: 0 <= j < |files| && IsJson(files[j]) && |files[j].content| > 0 && Scalar(files[j].content) ==>
      IdOf(files[j].content) in Ids(MergeOutcome(Some(existing), files).value.rows)
    ensures DistinctIds(existing.rows) ==>
      |existing.rows| <= |MergeOutcome(Some(existing), files).value.rows| &&
      MergeOutcome(Some(existing), files).value.rows[..|existing.rows|] == existing.rows
  {
    var f := Intake(existing, files).value;
    var m := MergeOutcome(Some(existing), files).value;
    IntakeKeeps(existing, files);
    var rest := f.rows[|existing.rows|..];
    assert f.rows == existing.rows + rest;
    IdsAppend(existing.rows, rest);
    MergeReadsRecords(existing, files, f);
    if DistinctIds(existing.rows) && "id" in f.columns {
      DedupAppend(existing.rows, rest, {});
      DedupDistinctUnchanged(existing.rows, {});
      assert m.rows == existing.rows + DedupFrom(rest, Ids(existing.rows));
    }
  }

  /** Every id of the intake, and so every id read in, survives the merge. */
  lemma MergeReadsRecords(existing: Frame, files: seq<InputFile>, f: Frame)
    requires Intake(existing, files) == Ok(f) && MergeOutcome(Some(existing), files).Ok?
    ensures Ids(f.rows) == Ids(MergeOutcome(Some(existing), files).value.rows)
    ensures forall j :: 0 <= j < |files| && IsJson(files[j]) && |files[j].content| > 0 && Scalar(files[j].content) ==>
      IdOf(files[j].content) in Ids(f.rows)
  {
    IntakeHolds(existing, files);
    forall j | 0 <= j < |files| && IsJson(files[j]) && |files[j].content| > 0 && Scalar(files[j].content)
      ensures IdOf(files[j].content) in Ids(f.rows)
    {
      var k :| 0 <= k < |f.rows| && f.rows[k] == files[j].content;
      IdsMember(f.rows, IdOf(files[j].content));
    }
  }

  /** Merging a folder into the result of merging that folder changes
      nothing: a second run over the same files is harmless. */
  lemma RemergeIdempotent(existing: Frame, files: seq<InputFile>)
    requires ScalarRecords(files)
    requires MergeOutcome(Some(existing), files).Ok?
    ensures MergeOutcome(Some(MergeOutcome(Some(existing), files).value), files) == MergeOutcome(Some(existing), files)
  {
    var m := MergeOutcome(Some(existing), files).value;
    IntakeRecords(existing, files);
    IntakeColumns(existing, files);
    IntakeRecords(m, files);
    IntakeColumns(m, files);
    var all := existing.rows + Records(files);
    if "id" in m.columns {
      assert m.rows == DedupFrom(all, {});
      DedupIds(all, {});
      IdsAppend(existing.rows, Records(files));
      IdsAppend(m.rows, Records(files));
      DedupAbsorbs(m.rows, Records(files));
      DedupDistinct(all, {});
      DedupDistinctUnchanged(m.rows, {});
      assert m.columns + RecordColumns(files) == m.columns;
    } else {
      // The intake was empty and came back as it was, so nothing was read in.
      RecordsKeyed(files);
      assert Records(files) == [];
      assert m.rows + Records(files) == m.rows;
    }
  }

  /** Every record of scalars has a column, so records were read in only if
      their columns were. */
  lemma {:induction false} RecordsKeyed(files: seq<InputFile>)
    requires ScalarRecords(files)
    ensures RecordColumns(files) == {} ==> Records(files) == []
  {
    if |files| > 0 {
      ScalarRecordsPrefix(files);
      RecordsKeyed(files[..|files| - 1]);
      var last := files[|files| - 1];
      if IsJson(last) {
        var k :| k in last.content;
      }
    }
  }

  /** The records of two listings read one after the other. */
  lemma {:induction false} RecordsAppend(xs: seq<InputFile>, ys: seq<InputFile>)
    ensures Records(xs + ys) == Records(xs) + Records(ys)
  {
    if |ys| > 0 {
      var pre := ys[..|ys| - 1];
      assert (xs + ys)[..|xs + ys| - 1] == xs + pre;
      RecordsAppend(xs, pre);
    } else {
      assert xs + ys == xs;
    }
  }

  /** The records are exactly the contents of the .json files. */
  lemma {:induction false} RecordsMember(files: seq<InputFile>, r: Row)
    ensures r in Records(files) <==> exists f :: f in files && IsJson(f) && f.content == r
  {
    if |files| > 0 {
      var pre := files[..|files| - 1];
      RecordsMember(pre, r);
      assert files == pre + [files[|files| - 1]];
    }
  }

  lemma ScalarRecordsAppend(xs: seq<InputFile>, ys: seq<InputFile>)
    requires ScalarRecords(xs) && ScalarRecords(ys)
    ensures ScalarRecords(xs + ys)
  {
    forall i | 0 <= i < |xs + ys| && IsJson((xs + ys)[i])
      ensures |(xs + ys)[i].content| > 0 && Scalar((xs + ys)[i].content)
    {
      if i >= |xs| {
        assert (xs + ys)[i] == ys[i - |xs|];
      }
    }
  }

  /** A record read in whose id no other row of bulb.csv or of the listing
      carries is a row of the merge, exactly as it was read. */
  lemma MergeKeepsUniqueRecord(existing: Frame, files: seq<InputFile>, r: Row)
    requires ScalarRecords(files) && MergeOutcome(Some(existing), files).Ok?
    requires r in Records(files)
    requires forall y :: y in existing.rows + Records(files) && IdOf(y) == IdOf(r) ==> y == r
    ensures r in MergeOutcome(Some(existing), files).value.rows
  {
    IntakeRecords(existing, files);
    DropKeepsUnique(Intake(existing, files).value, r);
  }

  // ---------------------------------------------------------------------
  // main
  // ---------------------------------------------------------------------

  /** What main leaves behind: the intake folder's listing and bulb.csv. */
  datatype MainState = MainState(inputFolder: seq<InputFile>, bulb: Frame)

  /** main: the dataset snapshot is read when the script loads (a missing
      bulb.csv raises there); without CUDA nothing runs; then the sweep, and
      outside debug mode the merge of the folder (the files already there,
      then the newly staged ones) into bulb.csv. */
  function MainOutcome(h: Host, a: GgufArgs, bulb: Option<Frame>, folder: seq<InputFile>): Result<MainState>
  {
    if bulb.None? then Raised(FileNotFoundError("output/bulb.csv"))
    else if !h.cudaAvailable then Raised(EnvironmentError("cuda not avalable"))
    else match Sweep(h, a, bulb.value, Points(a))
      case Raised(x) => Raised(x)
      case Ok(staged) =>
        if a.debug then Ok(MainState(folder, bulb.value))
        else match MergeOutcome(bulb, folder + staged)
          case Raised(x) => Raised(x)
          case Ok(merged) => Ok(MainState(folder + staged, merged))
  }

  method RunMain(h: Host, a: GgufArgs, bulb: Option<Frame>, folder: seq<InputFile>) returns (r: Result<MainState>)
    ensures r == MainOutcome(h, a, bulb, folder)
  {
    if bulb.None? {
      return Raised(FileNotFoundError("output/bulb.csv"));
    }
    if !h.cudaAvailable {
      return Raised(EnvironmentError("cuda not avalable"));
    }
    var staged := RunSweep(h, a, bulb.value);
    if staged.Raised? {
      return Raised(staged.exc);
    }
    if a.debug {
      return Ok(MainState(folder, bulb.value));
    }
    var merged := ProcessJsonFilesInFolder(bulb, folder + staged.value);
    if merged.Raised? {
      return Raised(merged.exc);
    }
    r := Ok(MainState(folder + staged.value, merged.value));
  }

  lemma JsonSuffix(stamp: string)
    ensures EndsWith(stamp + ".json", ".json")
  {
    assert (stamp + ".json")[|stamp|..] == ".json";
  }

  /** A record staged by the sweep is read by the merge. */
  lemma MergeReadsStaged(bulb: Frame, folder: seq<InputFile>, staged: seq<InputFile>, f: InputFile)
    requires MergeOutcome(Some(bulb), folder + staged).Ok?
    requires f in staged && IsJson(f) && |f.content| > 0 && Scalar(f.content)
    ensures IdOf(f.content) in Ids(MergeOutcome(Some(bulb), folder + staged).value.rows)
  {
    var files := folder + staged;
    var k :| 0 <= k < |staged| && staged[k] == f;
    assert files[|folder| + k] == f;
    MergeContents(bulb, files);
  }

  /** A run point's log is a non-empty record of scalars in a .json file. */
  lemma RunLogIsRecord(h: Host, a: GgufArgs, snapshot: Frame, p: Point, i: nat, log: RunLog)
    requires PointStep(h, a, snapshot, p, i) == Ok(Some(log))
    ensures |LogRow(log)| > 0 && Scalar(LogRow(log)) && IdOf(LogRow(log)) == Some(Str(log.record.id))
    ensures IsJson(InputFile(StagedName(h, i), LogRow(log)))
  {
    LogRowIdentity(log);
    JsonSuffix(h.fileClock(i));
  }

  /** Every run of the sweep drew a completion id that no row of bulb.csv,
      no record already in the folder and no other run carries, as the
      per-call uuid4 ids of llama-cpp-python are; and the folder holds
      records of scalars. */
  ghost predicate FreshRunIds(h: Host, a: GgufArgs, bulb: Frame, pts: seq<Point>, folder: seq<InputFile>) {
    && ScalarRecords(folder)
    && (forall i, log: RunLog :: 0 <= i < |pts| && PointStep(h, a, bulb, pts[i], i) == Ok(Some(log)) ==>
          Some(Str(log.record.id)) !in Ids(bulb.rows + Records(folder)))
    && (forall i, j, li: RunLog, lj: RunLog ::
          (0 <= i < j < |pts| && PointStep(h, a, bulb, pts[i], i) == Ok(Some(li)) &&
           PointStep(h, a, bulb, pts[j], j) == Ok(Some(lj))) ==> li.record.id != lj.record.id)
  }

  /** After a completed run outside debug mode, bulb.csv holds the record of
      every point that was run, holds no id twice (when it had columns to
      begin with), and starts with the rows it held before when those had
      unique ids. When the runs drew fresh ids, the staged object of every
      run, memo and "GPU Layers" included, is itself a row of bulb.csv. In
      debug mode bulb.csv and the folder are left as they were. */
  lemma MainStoresEveryRun(h: Host, a: GgufArgs, bulb: Frame, folder: seq<InputFile>)
    requires MainOutcome(h, a, Some(bulb), folder).Ok?
    // The folder is a list of files: two logs staged in the same second, or
    // a log named like a file already there, would overwrite each other.
    requires forall i, j :: 0 <= i < j < |Points(a)| ==> h.fileClock(i) != h.fileClock(j)
    requires forall f, i :: f in folder && 0 <= i < |Points(a)| ==> f.name != StagedName(h, i)
    ensures a.debug ==> MainOutcome(h, a, Some(bulb), folder).value == MainState(folder, bulb)
    ensures !a.debug && bulb.columns != {} ==> DistinctIds(MainOutcome(h, a, Some(bulb), folder).value.bulb.rows)
    ensures !a.debug ==> forall i, log: RunLog :: 0 <= i < |Points(a)| && PointStep(h, a, bulb, Points(a)[i], i) == Ok(Some(log)) ==>
      Some(Str(log.record.id)) in Ids(MainOutcome(h, a, Some(bulb), folder).value.bulb.rows)
    ensures !a.debug && FreshRunIds(h, a, bulb, Points(a), folder) ==>
      forall i, log: RunLog :: 0 <= i < |Points(a)| && PointStep(h, a, bulb, Points(a)[i], i) == Ok(Some(log)) ==>
        LogRow(log) in MainOutcome(h, a, Some(bulb), folder).value.bulb.rows
    ensures !a.debug && DistinctIds(bulb.rows) ==>
      |bulb.rows| <= |MainOutcome(h, a, Some(bulb), folder).value.bulb.rows| &&
      MainOutcome(h, a, Some(bulb), folder).value.bulb.rows[..|bulb.rows|] == bulb.rows
  {
    var pts := Points(a);
    var staged := Sweep(h, a, bulb, pts).value;
    if !a.debug {
      var files := folder + staged;
      var m := MergeOutcome(Some(bulb), files).value;
      assert MainOutcome(h, a, Some(bulb), folder) == Ok(MainState(files, m));
      MergeContents(bulb, files);
      SweepStaged(h, a, bulb, pts);
      forall i, log: RunLog | 0 <= i < |pts| && PointStep(h, a, bulb, pts[i], i) == Ok(Some(log))
        ensures Some(Str(log.record.id)) in Ids(m.rows)
      {
        RunLogIsRecord(h, a, bulb, pts[i], i, log);
        MergeReadsStaged(bulb, folder, staged, InputFile(StagedName(h, i), LogRow(log)));
      }
      if FreshRunIds(h, a, bulb, pts, folder) {
        StagedRowsKept(h, a, bulb, folder);
      }
    }
  }

  /** The row-level half of MainStoresEveryRun: with fresh ids, the only row
      of the intake that carries a run's id is that run's staged object, so
      drop_duplicates keeps it. */
  lemma StagedRowsKept(h: Host, a: GgufArgs, bulb: Frame, folder: seq<InputFile>)
    requires MainOutcome(h, a, Some(bulb), folder).Ok? && !a.debug
    requires FreshRunIds(h, a, bulb, Points(a), folder)
    ensures forall i, log: RunLog :: 0 <= i < |Points(a)| && PointStep(h, a, bulb, Points(a)[i], i) == Ok(Some(log)) ==>
      LogRow(log) in MainOutcome(h, a, Some(bulb), folder).value.bulb.rows
  {
    var pts := Points(a);
    var staged := Sweep(h, a, bulb, pts).value;
    var files := folder + staged;
    var m := MergeOutcome(Some(bulb), files).value;
    assert MainOutcome(h, a, Some(bulb), folder) == Ok(MainState(files, m));
    StagedScalar(h, a, bulb, pts);
    ScalarRecordsAppend(folder, staged);
    RecordsAppend(folder, staged);
    var before := bulb.rows + Records(folder);
    assert bulb.rows + Records(files) == before + Records(staged);
    forall i, log: RunLog | 0 <= i < |pts| && PointStep(h, a, bulb, pts[i], i) == Ok(Some(log))
      ensures LogRow(log) in m.rows
    {
      var r := LogRow(log);
      RunLogIsRecord(h, a, bulb, pts[i], i, log);
      SweepStaged(h, a, bulb, pts);
      RecordsMember(staged, r);
      IdsMember(before, IdOf(r));
      forall y | y in before + Records(staged) && IdOf(y) == IdOf(r) ensures y == r {
        assert y !in before;
        StagedOnlyRow(h, a, bulb, pts, folder, i, log, y);
      }
      MergeKeepsUniqueRecord(bulb, files, r);
    }
  }

  /** The sweep stages records of scalars. */
  lemma StagedScalar(h: Host, a: GgufArgs, bulb: Frame, pts: seq<Point>)
    requires Sweep(h, a, bulb, pts).Ok? && !a.debug
    ensures ScalarRecords(Sweep(h, a, bulb, pts).value)
  {
    var staged := Sweep(h, a, bulb, pts).value;
    forall k | 0 <= k < |staged| && IsJson(staged[k]) ensures |staged[k].content| > 0 && Scalar(staged[k].content) {
      var j, log := StagedFileIsRun(h, a, bulb, pts, staged[k]);
      RunLogIsRecord(h, a, bulb, pts[j], j, log);
    }
  }

  /** Every staged file is the log of a run point, under its name. */
  lemma StagedFileIsRun(h: Host, a: GgufArgs, bulb: Frame, pts: seq<Point>, f: InputFile) returns (j: nat, log: RunLog)
    requires Sweep(h, a, bulb, pts).Ok? && !a.debug
    requires f in Sweep(h, a, bulb, pts).value
    ensures j < |pts| && PointStep(h, a, bulb, pts[j], j) == Ok(Some(log))
    ensures f == InputFile(StagedName(h, j), LogRow(log))
  {
    SweepStaged(h, a, bulb, pts);
    j :| 0 <= j < |pts| && f.name == StagedName(h, j) && PointStep(h, a, bulb, pts[j], j).Ok? &&
      PointStep(h, a, bulb, pts[j], j).value.Some? && f.content == LogRow(PointStep(h, a, bulb, pts[j], j).value.value);
    log := PointStep(h, a, bulb, pts[j], j).value.value;
  }

  /** With ids distinct between runs, the staged object of run i is the only
      staged object carrying run i's id. */
  lemma StagedOnlyRow(h: Host, a: GgufArgs, bulb: Frame, pts: seq<Point>, folder: seq<InputFile>, i: nat, log: RunLog, y: Row)
    requires Sweep(h, a, bulb, pts).Ok? && !a.debug
    requires FreshRunIds(h, a, bulb, pts, folder)
    requires i < |pts| && PointStep(h, a, bulb, pts[i], i) == Ok(Some(log))
    requires y in Records(Sweep(h, a, bulb, pts).value) && IdOf(y) == Some(Str(log.record.id))
    ensures y == LogRow(log)
  {
    var staged := Sweep(h, a, bulb, pts).value;
    RecordsMember(staged, y);
    var g :| g in staged && IsJson(g) && g.content == y;
    var j, lj := StagedFileIsRun(h, a, bulb, pts, g);
    RunLogIsRecord(h, a, bulb, pts[j], j, lj);
    assert lj.record.id == log.record.id;
    assert j == i;
  }
}
