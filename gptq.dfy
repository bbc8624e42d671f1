/** The GPTQ / transformers benchmark of lighthouse/benchmark_gptq.py: check
    for a single CUDA device, name the kernel and the log file from the
    quantization settings, and, when asked to, measure every combination of
    batch size, prompt length and new tokens, appending one row per
    combination to the bulb.csv table.

    The model, the GPU timers and the memory counters are collaborators: a
    value of type GptqEngine says what they report. */
module Gptq {
  import opened Outcomes
  import opened Numeric
  import opened Product
  import opened Text
  import opened Table

  // ---------------------------------------------------------------------
  // Device check
  // ---------------------------------------------------------------------

  /** The checks before anything is loaded: a CUDA device must be present,
      and CUDA_VISIBLE_DEVICES must be set (reading an unset variable from
      os.environ raises KeyError) and name a single device, i.e. split on ","
      into exactly one piece. */
  function CheckDevices(cudaAvailable: bool, visibleDevices: Option<string>): (r: Result<()>)
    ensures r.Ok? <==> cudaAvailable && visibleDevices.Some? && |Split(visibleDevices.value, ',')| == 1
    ensures !cudaAvailable ==> r.Raised? && r.exc.ValueError?
    ensures cudaAvailable && visibleDevices.None? ==> r == Raised(KeyError("CUDA_VISIBLE_DEVICES"))
    ensures cudaAvailable && visibleDevices.Some? && |Split(visibleDevices.value, ',')| != 1 ==>
      r.Raised? && r.exc.ValueError?
  {
    if !cudaAvailable then Raised(ValueError("A cuda device is necessary to benchmark GPTQ."))
    else if visibleDevices.None? then Raised(KeyError("CUDA_VISIBLE_DEVICES"))
    else if |Split(visibleDevices.value, ',')| != 1 then
      Raised(ValueError("Please set CUDA_VISIBLE_DEVICES variable to a single device index."))
    else Ok(())
  }

  /** The device list passes exactly when it holds no comma (an empty value
      passes too: "".split(",") is [""]). */
  lemma SingleDeviceIff(cudaAvailable: bool, visible: string)
    ensures CheckDevices(cudaAvailable, Some(visible)).Ok? <==> cudaAvailable && ',' !in visible
  {
    SplitLength(visible, ',');
    CountZero(visible, ',');
  }

  // ---------------------------------------------------------------------
  // Kernel, quantization label and log file name
  // ---------------------------------------------------------------------

  /** The fields of the model's GPTQ quantization_config that are read. */
  datatype QuantConfig = QuantConfig(descAct: bool, bits: int, groupSize: int, useExllama: bool, exllamaVersion: int)

  /** The kernel name recorded: none without --gptq; otherwise exllamav2 or
      exllama when ExLlama is used, else the AutoGPTQ CUDA kernel (act-order)
      or the old CUDA kernel. */
  function SelectKernel(gptq: bool, q: QuantConfig): (k: Option<string>)
    ensures k.None? <==> !gptq
    ensures gptq && q.useExllama ==> k == Some(if q.exllamaVersion == 2 then "exllamav2" else "exllama")
    ensures gptq && !q.useExllama ==> k == Some(if q.descAct then "autotogptq-cuda" else "autogptq-cuda-old")
  {
    if !gptq then None
    else if q.useExllama then
      if q.exllamaVersion == 2 then Some("exllamav2") else Some("exllama")
    else if q.descAct then Some("autotogptq-cuda")
    else Some("autogptq-cuda-old")
  }

  /** The recorded kernel tells the choices apart: two configurations with
      the same kernel agree on whether ExLlama is used, on whether it is
      version 2, and, without ExLlama, on act-order. */
  lemma KernelIdentifiesChoice(q1: QuantConfig, q2: QuantConfig)
    requires SelectKernel(true, q1) == SelectKernel(true, q2)
    ensures q1.useExllama == q2.useExllama
    ensures q1.useExllama ==> (q1.exllamaVersion == 2 <==> q2.exllamaVersion == 2)
    ensures !q1.useExllama ==> q1.descAct == q2.descAct
  {
    var k := SelectKernel(true, q1).value;
    assert |k| == 9 || |k| == 7 || |k| == 15 || |k| == 17;
    assert "exllamav2" != "exllama" && "exllamav2"[..7] == "exllama";
    assert "autotogptq-cuda"[0] != "exllama"[0] && "autogptq-cuda-old"[0] != "exllama"[0];
    assert "autotogptq-cuda"[0] != "exllamav2"[0] && "autogptq-cuda-old"[0] != "exllamav2"[0];
    assert |"autotogptq-cuda"| != |"autogptq-cuda-old"|;
  }

  /** How the model was quantized: --gptq wins over --bitsandbytes. */
  datatype Quantization = GptqQuant | BitsAndBytes | NoQuant

  function QuantizationOf(gptq: bool, bitsandbytes: bool): Quantization {
    if gptq then GptqQuant else if bitsandbytes then BitsAndBytes else NoQuant
  }

  /** The `quantization` label: "gptq", "bitsandbytes" or None. */
  function QuantLabel(q: Quantization): (l: Option<string>)
    ensures l.None? <==> q.NoQuant?
    ensures q.GptqQuant? ==> l == Some("gptq")
    ensures q.BitsAndBytes? ==> l == Some("bitsandbytes")
  {
    match q
    case GptqQuant => Some("gptq")
    case BitsAndBytes => Some("bitsandbytes")
    case NoQuant => None
  }

  /** Different quantizations get different labels. */
  lemma QuantLabelInjective(q1: Quantization, q2: Quantization)
    requires QuantLabel(q1) == QuantLabel(q2)
    ensures q1 == q2
  {
    assert "gptq" != "bitsandbytes" by {
      assert |"gptq"| != |"bitsandbytes"|;
    }
  }

  function Suffix(q: Quantization): string {
    match q
    case GptqQuant => "_gptq"
    case BitsAndBytes => "_bnb"
    case NoQuant => "_noquant"
  }

  /** file_name: "log_", the model path with every "/" turned into "-", and
      the quantization suffix. */
  function LogFileName(model: string, gptq: bool, bitsandbytes: bool): (name: string)
    ensures '/' !in name
    ensures |name| >= 4 && name[..4] == "log_"
    ensures EndsWith(name, Suffix(QuantizationOf(gptq, bitsandbytes)))
    ensures |name| == 4 + |model| + |Suffix(QuantizationOf(gptq, bitsandbytes))|
    ensures forall i :: 0 <= i < |model| ==> name[4 + i] == (if model[i] == '/' then '-' else model[i])
  {
    var name := "log_" + ReplaceChar(model, '/', '-') + Suffix(QuantizationOf(gptq, bitsandbytes));
    assert name[|name| - |Suffix(QuantizationOf(gptq, bitsandbytes))|..] == Suffix(QuantizationOf(gptq, bitsandbytes));
    name
  }

  /** The log file name of a model determines its quantization: the three
      suffixes cannot be confused. */
  lemma LogFileNameIdentifiesQuantization(model: string, g1: bool, b1: bool, g2: bool, b2: bool)
    requires LogFileName(model, g1, b1) == LogFileName(model, g2, b2)
    ensures QuantizationOf(g1, b1) == QuantizationOf(g2, b2)
    ensures QuantLabel(QuantizationOf(g1, b1)) == QuantLabel(QuantizationOf(g2, b2))
  {
    var q1, q2 := QuantizationOf(g1, b1), QuantizationOf(g2, b2);
    assert |Suffix(q1)| == |Suffix(q2)|;
    assert |"_gptq"| == 5 && |"_bnb"| == 4 && |"_noquant"| == 8;
  }

  // ---------------------------------------------------------------------
  // The configuration space
  // ---------------------------------------------------------------------

  /** The command-line arguments the script reads. */
  datatype GptqArgs = GptqArgs(
    model: string, replica: int, batchSize: seq<int>, promptLength: seq<int>, newTokens: seq<int>,
    prefill: bool, gptq: bool, bitsandbytes: bool, generate: bool, revision: string,
    debug: bool, memo: string)

  datatype GPoint = GPoint(batch: int, promptLength: int, newTokens: int)

  /** list(itertools.product(batch_size, prompt_length, new_tokens)). The
      --prefill flag only binds a local list that is never read, so it plays
      no part here. */
  function ParamCombinations(a: GptqArgs): (ps: seq<GPoint>)
    ensures |ps| == |a.batchSize| * (|a.promptLength| * |a.newTokens|)
  {
    var c := Cross(a.batchSize, Cross(a.promptLength, a.newTokens));
    seq(|c|, i requires 0 <= i < |c| => GPoint(c[i].0, c[i].1.0, c[i].1.1))
  }

  /** Combination (i, j, l) is visited at position i*|P|*|N| + j*|N| + l:
      lexicographic order, new tokens varying fastest. */
  lemma CombinationAt(a: GptqArgs, i: nat, j: nat, l: nat) returns (k: nat)
    requires i < |a.batchSize| && j < |a.promptLength| && l < |a.newTokens|
    ensures k == i * (|a.promptLength| * |a.newTokens|) + (j * |a.newTokens| + l)
    ensures k < |ParamCombinations(a)|
    ensures ParamCombinations(a)[k] == GPoint(a.batchSize[i], a.promptLength[j], a.newTokens[l])
  {
    k := CrossAt3(a.batchSize, a.promptLength, a.newTokens, i, j, l);
  }

  /** --prefill changes nothing in the combinations measured. */
  lemma PrefillIgnored(a: GptqArgs, prefill: bool)
    ensures ParamCombinations(a.(prefill := prefill)) == ParamCombinations(a)
  {
  }

  // ---------------------------------------------------------------------
  // Measurements
  // ---------------------------------------------------------------------

  /** The counters torch.cuda.memory_stats and the NVML tracker report. */
  datatype MemoryStats = MemoryStats(allocatedPeakBytes: real, reservedPeakBytes: real, nvmlPeakMb: real)

  /** benchmark_memory: PyTorch's peak allocation plus the memory outside
      PyTorch (NVML's peak minus PyTorch's peak reservation), in MB. */
  function PeakMemoryMb(m: MemoryStats): (mb: real)
    ensures mb - m.nvmlPeakMb == (m.allocatedPeakBytes - m.reservedPeakBytes) / 1000000.0
  {
    var allocatedMb := m.allocatedPeakBytes * 0.000001;
    var reservedMb := m.reservedPeakBytes * 0.000001;
    var externalMb := m.nvmlPeakMb - reservedMb;
    allocatedMb + externalMb
  }

  /** PyTorch never allocates more than it reserves, so the estimate is at
      most NVML's peak; when NVML saw at least PyTorch's reservation, it is at
      least PyTorch's own peak allocation. */
  lemma PeakMemoryBounds(m: MemoryStats)
    ensures m.allocatedPeakBytes <= m.reservedPeakBytes ==> PeakMemoryMb(m) <= m.nvmlPeakMb
    ensures m.nvmlPeakMb >= m.reservedPeakBytes / 1000000.0 ==> PeakMemoryMb(m) >= m.allocatedPeakBytes / 1000000.0
  {
  }

  /** The generation settings warmup builds: min and max new tokens both set
      to new_tokens for a decoder, none for any other model. */
  datatype GenConfig = GenConfig(minNewTokens: int, maxNewTokens: int)

  function Warmup(isDecoder: bool, newTokens: int): (g: Option<GenConfig>)
    ensures g.Some? <==> isDecoder
    ensures g.Some? ==> g.value.minNewTokens == g.value.maxNewTokens == newTokens
  {
    if isDecoder then Some(GenConfig(newTokens, newTokens)) else None
  }

  /** The task names that make the model a decoder. */
  predicate IsDecoder(task: string) {
    task == "text-generation" || task == "text2text-generation"
  }

  /** The replica latencies, each the CUDA events' elapsed milliseconds over
      1000; range(replica) is empty for replica <= 0. */
  function Latencies(replica: int, elapsedMs: nat -> real): (ls: seq<real>)
    ensures |ls| == if replica < 0 then 0 else replica
    ensures forall i :: 0 <= i < |ls| ==> ls[i] * 1000.0 == elapsedMs(i)
  {
    var n := if replica < 0 then 0 else replica;
    seq(n, i requires 0 <= i < n => elapsedMs(i) / 1000.0)
  }

  /** get_timings as written: the assertion reads generation_config's
      fields, so a model that is not a decoder (whose warmup returned None)
      raises AttributeError; a decoder's min and max always agree; each
      replica prints its latency over min_new_tokens, a float division that
      raises for zero new tokens; the result is np.mean of the latencies. */
  function GetTimingsAsWritten(gen: Option<GenConfig>, replica: int, elapsedMs: nat -> real): (r: Result<Float>)
    ensures gen.None? ==> r == Raised(AttributeError("min_new_tokens"))
  {
    if gen.None? then Raised(AttributeError("min_new_tokens"))
    else if gen.value.minNewTokens != gen.value.maxNewTokens then Raised(AssertionError)
    else if replica >= 1 && gen.value.minNewTokens == 0 then Raised(ZeroDivisionError)
    else Ok(NpMean(Latencies(replica, elapsedMs)))
  }

  /** get_timings with the generation checks applied only when there is a
      generation config: the mean of `replica` latencies for every kind of
      model. */
  function TimingsOutcome(gen: Option<GenConfig>, replica: int, elapsedMs: nat -> real): (r: Result<Float>)
    ensures r.Raised? <==> gen.Some? && (gen.value.minNewTokens != gen.value.maxNewTokens ||
                                         (replica >= 1 && gen.value.minNewTokens == 0))
    ensures r.Ok? ==> r.value == NpMean(Latencies(replica, elapsedMs))
    ensures r.Ok? && replica >= 1 ==> r.value.Finite? && r.value.x * replica as real == Sum(Latencies(replica, elapsedMs))
  {
    if gen.Some? && gen.value.minNewTokens != gen.value.maxNewTokens then Raised(AssertionError)
    else if gen.Some? && replica >= 1 && gen.value.minNewTokens == 0 then Raised(ZeroDivisionError)
    else Ok(NpMean(Latencies(replica, elapsedMs)))
  }

  /** The two agree whenever there is a generation config; without one the
      code as written raises where the corrected version measures. */
  lemma GetTimingsAsWrittenDiffers(gen: Option<GenConfig>, replica: int, elapsedMs: nat -> real)
    ensures gen.Some? ==> GetTimingsAsWritten(gen, replica, elapsedMs) == TimingsOutcome(gen, replica, elapsedMs)
    ensures gen.None? ==> GetTimingsAsWritten(gen, replica, elapsedMs).Raised? &&
                          TimingsOutcome(gen, replica, elapsedMs).Ok?
  {
  }

  /** Every benchmarked model that is not a decoder hits the AttributeError. */
  lemma NonDecoderAlwaysRaises(task: string, newTokens: int, replica: int, elapsedMs: nat -> real)
    requires !IsDecoder(task)
    ensures GetTimingsAsWritten(Warmup(IsDecoder(task), newTokens), replica, elapsedMs).Raised?
  {
  }

  /** The latency loop of get_timings as written. */
  method GetTimings(gen: Option<GenConfig>, replica: int, elapsedMs: nat -> real) returns (r: Result<Float>)
    ensures r == GetTimingsAsWritten(gen, replica, elapsedMs)
  {
    if gen.None? {
      return Raised(AttributeError("min_new_tokens"));
    }
    if gen.value.minNewTokens != gen.value.maxNewTokens {
      return Raised(AssertionError);
    }
    var latencies: seq<real> := [];
    var i := 0;
    while i < replica
      invariant 0 <= i && (i <= replica || i == 0)
      invariant latencies == Latencies(i, elapsedMs)
      invariant gen.value.minNewTokens == 0 ==> i == 0
    {
      var latency := elapsedMs(i) / 1000.0;
      if gen.value.minNewTokens == 0 {
        return Raised(ZeroDivisionError);
      }
      latencies := latencies + [latency];
      i := i + 1;
    }
    assert latencies == Latencies(replica, elapsedMs);
    r := Ok(NpMean(latencies));
  }

  /** per_token_latency: the mean latency over the new tokens, as float64. */
  function PerTokenLatency(meanLatency: Float, newTokens: int): (ptl: Float)
    ensures meanLatency.Finite? && newTokens != 0 ==> ptl.Finite? && ptl.x * newTokens as real == meanLatency.x
  {
    Div(meanLatency, Finite(newTokens as real))
  }

  /** throughput as written: batch_size / (per_token_latency * 1e-3), a
      conversion from milliseconds although the latency is in seconds. */
  function ThroughputAsWritten(batch: int, ptl: Float): (t: Float)
    ensures ptl.Finite? && ptl.x != 0.0 ==> t.Finite? && t.x * ptl.x == batch as real * 1000.0
  {
    var scaled := Mul(ptl, Finite(0.001));
    var t := Div(Finite(batch as real), scaled);
    assert ptl.Finite? && ptl.x != 0.0 ==> scaled == Finite(ptl.x * 0.001) && t.x * (ptl.x * 0.001) == batch as real;
    t
  }

  /** Tokens per second: batch_size tokens every per-token latency seconds. */
  function Throughput(batch: int, ptl: Float): (t: Float)
    ensures ptl.Finite? && ptl.x != 0.0 ==> t.Finite? && t.x * ptl.x == batch as real
    ensures ptl.NaN? ==> t.NaN?
  {
    Div(Finite(batch as real), ptl)
  }

  /** The figure as written is a thousand times the throughput. */
  lemma ThroughputThousandfold(batch: int, ptl: Float)
    requires ptl.Finite? && ptl.x != 0.0
    ensures ThroughputAsWritten(batch, ptl).x == 1000.0 * Throughput(batch, ptl).x
  {
    var t := Throughput(batch, ptl).x;
    var w := ThroughputAsWritten(batch, ptl).x;
    assert w * ptl.x == (1000.0 * t) * ptl.x;
  }

  /** One second for 100 tokens at batch size 1 is 100 tokens per second;
      the code as written records 100000. */
  lemma ThroughputExample()
    ensures PerTokenLatency(NpMean(Latencies(1, _ => 1000.0)), 100) == Finite(0.01)
    ensures Throughput(1, Finite(0.01)) == Finite(100.0)
    ensures ThroughputAsWritten(1, Finite(0.01)) == Finite(100000.0)
  {
    assert Latencies(1, _ => 1000.0) == [1.0];
  }

  // ---------------------------------------------------------------------
  // The experiment row and the sweep
  // ---------------------------------------------------------------------

  /** Which program a composite describes: the script as written, or the
      script with its three slips repaired (get_timings checks the generation
      settings only when there are some, the throughput is batch over the
      per-token latency, and a missing bulb.csv starts an empty table). */
  datatype Version = AsWritten | Corrected

  /** get_timings in either version. */
  function LatencyOutcome(v: Version, gen: Option<GenConfig>, replica: int, elapsedMs: nat -> real): Result<Float> {
    if v.AsWritten? then GetTimingsAsWritten(gen, replica, elapsedMs) else TimingsOutcome(gen, replica, elapsedMs)
  }

  /** The throughput figure in either version. */
  function RowThroughput(v: Version, batch: int, ptl: Float): Float {
    if v.AsWritten? then ThroughputAsWritten(batch, ptl) else Throughput(batch, ptl)
  }

  /** The table loaded at start in either version. */
  function LoadBulb(v: Version, existing: Option<Frame>): Result<Frame> {
    if v.AsWritten? then LoadBulbAsWritten(existing) else Ok(LoadExistingDataframe(existing))
  }

  /** The machine fields of a row. */
  datatype Machine = Machine(device: string, vramGb: real, ramGb: real, cpuCount: int)

  /** The model and GPU as the sweep sees them: the load time, the
      auto_gptq version, the model's quantization config, its task, the
      machine, the elapsed milliseconds of each replica at a combination, and
      the memory counters after the memory run of a combination. */
  datatype GptqEngine = GptqEngine(
    loadTime: real, autoGptqVersion: string, quant: QuantConfig, task: string, machine: Machine,
    elapsedMs: GPoint -> nat -> real, memory: GPoint -> MemoryStats)

  /** The measured fields of a row, each formatted with two decimals. */
  function MeasuredFields(loadTime: real, meanLatency: Float, ptl: Float, throughput: Float, maxMem: real): (r: Row)
    ensures Scalar(r)
    ensures "Model" !in r && "Quant. Method" !in r && "Kernel" !in r && "Batch" !in r
    ensures "Prompt Length" !in r && "New Tokens" !in r
    ensures "Load Time (s)" in r && r["Load Time (s)"] == Str(Format2(Finite(loadTime)))
    ensures "Latency (s)" in r && r["Latency (s)"] == Str(Format2(meanLatency))
    ensures "Latency (Tk/s)" in r && r["Latency (Tk/s)"] == Str(Format2(ptl))
    ensures "Throughput (s/Tk)" in r && r["Throughput (s/Tk)"] == Str(Format2(throughput))
    ensures "Mem. Usage" in r && r["Mem. Usage"] == Str(Format2(Finite(maxMem)))
    ensures r.Keys == MeasuredColumns
  {
    map[
      "Load Time (s)" := Str(Format2(Finite(loadTime))),
      "Latency (s)" := Str(Format2(meanLatency)),
      "Latency (Tk/s)" := Str(Format2(ptl)),
      "Throughput (s/Tk)" := Str(Format2(throughput)),
      "Mem. Usage" := Str(Format2(Finite(maxMem)))]
  }

  /** The columns of a row that describe the run, the machine and the
      combination. */
  const DescriptiveColumns: set<string> := {
    "memo", "auto_gptq_v", "Run Name", "Device", "VRAM (GB)", "RAM (GB)", "CPU Count",
    "Model", "Batch", "Prompt Length", "New Tokens", "Kernel", "Quant. Method"}

  /** The columns of a row that hold measurements. */
  const MeasuredColumns: set<string> := {
    "Load Time (s)", "Latency (s)", "Latency (Tk/s)", "Throughput (s/Tk)", "Mem. Usage"}

  /** The descriptive fields of a row. */
  function DescriptiveFields(a: GptqArgs, e: GptqEngine, runName: string, p: GPoint, kernel: Option<string>): (r: Row)
    ensures Scalar(r)
    ensures "Model" in r && r["Model"] == Str(Basename(a.model) + "-" + a.revision)
    ensures "Quant. Method" in r && r["Quant. Method"] == Str("gptq")
    ensures "Kernel" in r && r["Kernel"] == (if kernel.Some? then Str(kernel.value) else Null)
    ensures "Batch" in r && r["Batch"] == Num(p.batch as real)
    ensures "Prompt Length" in r && r["Prompt Length"] == Num(p.promptLength as real)
    ensures "New Tokens" in r && r["New Tokens"] == Num(p.newTokens as real)
  {
    map[
      "memo" := Str(a.memo), "auto_gptq_v" := Str(e.autoGptqVersion), "Run Name" := Str(runName),
      "Device" := Str(e.machine.device), "VRAM (GB)" := Num(e.machine.vramGb),
      "RAM (GB)" := Num(e.machine.ramGb), "CPU Count" := Num(e.machine.cpuCount as real),
      "Model" := Str(Basename(a.model) + "-" + a.revision),
      "Batch" := Num(p.batch as real), "Prompt Length" := Num(p.promptLength as real),
      "New Tokens" := Num(p.newTokens as real),
      "Kernel" := (if kernel.Some? then Str(kernel.value) else Null),
      "Quant. Method" := Str("gptq")]
  }

  /** The descriptive fields also carry the run's memo, the auto_gptq
      version and the run name. */
  lemma DescriptiveRun(a: GptqArgs, e: GptqEngine, runName: string, p: GPoint, kernel: Option<string>)
    ensures var r := DescriptiveFields(a, e, runName, p, kernel);
      && "memo" in r && r["memo"] == Str(a.memo)
      && "auto_gptq_v" in r && r["auto_gptq_v"] == Str(e.autoGptqVersion)
      && "Run Name" in r && r["Run Name"] == Str(runName)
  {
  }

  /** The descriptive fields also carry the machine. */
  lemma DescriptiveMachine(a: GptqArgs, e: GptqEngine, runName: string, p: GPoint, kernel: Option<string>)
    ensures var r := DescriptiveFields(a, e, runName, p, kernel);
      && "Device" in r && r["Device"] == Str(e.machine.device)
      && "VRAM (GB)" in r && r["VRAM (GB)"] == Num(e.machine.vramGb)
      && "RAM (GB)" in r && r["RAM (GB)"] == Num(e.machine.ramGb)
      && "CPU Count" in r && r["CPU Count"] == Num(e.machine.cpuCount as real)
  {
  }

  /** The descriptive fields are exactly these columns. */
  lemma DescriptiveKeys(a: GptqArgs, e: GptqEngine, runName: string, p: GPoint, kernel: Option<string>)
    ensures DescriptiveFields(a, e, runName, p, kernel).Keys == DescriptiveColumns
  {
  }

  /** The `experiment` dictionary of one combination. */
  function Experiment(v: Version, a: GptqArgs, e: GptqEngine, runName: string, p: GPoint, kernel: Option<string>,
                      meanLatency: Float, maxMem: real): (r: Row)
    ensures Scalar(r)
    ensures "Model" in r && r["Model"] == Str(Basename(a.model) + "-" + a.revision)
    ensures "Quant. Method" in r && r["Quant. Method"] == Str("gptq")
    ensures "Kernel" in r && r["Kernel"] == (if kernel.Some? then Str(kernel.value) else Null)
    ensures "Batch" in r && r["Batch"] == Num(p.batch as real)
    ensures "Prompt Length" in r && r["Prompt Length"] == Num(p.promptLength as real)
    ensures "New Tokens" in r && r["New Tokens"] == Num(p.newTokens as real)
    ensures "Load Time (s)" in r && r["Load Time (s)"] == Str(Format2(Finite(e.loadTime)))
    ensures "Latency (s)" in r && r["Latency (s)"] == Str(Format2(meanLatency))
    ensures "Latency (Tk/s)" in r && r["Latency (Tk/s)"] == Str(Format2(PerTokenLatency(meanLatency, p.newTokens)))
    ensures "Throughput (s/Tk)" in r &&
      r["Throughput (s/Tk)"] == Str(Format2(RowThroughput(v, p.batch, PerTokenLatency(meanLatency, p.newTokens))))
    ensures "Mem. Usage" in r && r["Mem. Usage"] == Str(Format2(Finite(maxMem)))
  {
    var ptl := PerTokenLatency(meanLatency, p.newTokens);
    var measured := MeasuredFields(e.loadTime, meanLatency, ptl, RowThroughput(v, p.batch, ptl), maxMem);
    var described := DescriptiveFields(a, e, runName, p, kernel);
    ScalarUnion(described, measured);
    described + measured
  }

  /** The experiment row carries the run's memo, the auto_gptq version, the
      run name and the machine, and has exactly the descriptive and the
      measured columns. */
  lemma ExperimentRun(v: Version, a: GptqArgs, e: GptqEngine, runName: string, p: GPoint, kernel: Option<string>,
                      meanLatency: Float, maxMem: real)
    ensures var r := Experiment(v, a, e, runName, p, kernel, meanLatency, maxMem);
      && "memo" in r && r["memo"] == Str(a.memo)
      && "auto_gptq_v" in r && r["auto_gptq_v"] == Str(e.autoGptqVersion)
      && "Run Name" in r && r["Run Name"] == Str(runName)
      && "Device" in r && r["Device"] == Str(e.machine.device)
      && "VRAM (GB)" in r && r["VRAM (GB)"] == Num(e.machine.vramGb)
      && "RAM (GB)" in r && r["RAM (GB)"] == Num(e.machine.ramGb)
      && "CPU Count" in r && r["CPU Count"] == Num(e.machine.cpuCount as real)
      && r.Keys == DescriptiveColumns + MeasuredColumns
  {
    var ptl := PerTokenLatency(meanLatency, p.newTokens);
    var d := DescriptiveFields(a, e, runName, p, kernel);
    var m := MeasuredFields(e.loadTime, meanLatency, ptl, RowThroughput(v, p.batch, ptl), maxMem);
    ExperimentSplit(v, a, e, runName, p, kernel, meanLatency, maxMem);
    DescriptiveRun(a, e, runName, p, kernel);
    DescriptiveMachine(a, e, runName, p, kernel);
    DescriptiveKeys(a, e, runName, p, kernel);
    ColumnsDisjoint();
  }

  /** No column is both descriptive and measured. */
  lemma ColumnsDisjoint()
    ensures DescriptiveColumns !! MeasuredColumns
  {
  }

  /** One combination: random prompts of a negative size are refused by
      torch.randint; otherwise the memory run, then the latency run, then
      the row. As written, a model that is not a decoder raises in the
      latency run. */
  function CombinationOutcome(v: Version, a: GptqArgs, e: GptqEngine, runName: string, p: GPoint): (r: Result<Row>)
    ensures p.batch < 0 || p.promptLength < 0 ==> r.Raised? && r.exc.RuntimeError?
    ensures r.Ok? <==> (0 <= p.batch && 0 <= p.promptLength && (v.AsWritten? ==> IsDecoder(e.task)) &&
      TimingsOutcome(Warmup(IsDecoder(e.task), p.newTokens), a.replica, e.elapsedMs(p)).Ok?)
    ensures (v.AsWritten? && 0 <= p.batch && 0 <= p.promptLength && !IsDecoder(e.task)) ==>
      r == Raised(AttributeError("min_new_tokens"))
    ensures r.Ok? ==> Scalar(r.value)
    ensures r.Ok? ==> "Batch" in r.value && r.value["Batch"] == Num(p.batch as real)
    ensures r.Ok? ==> "Prompt Length" in r.value && r.value["Prompt Length"] == Num(p.promptLength as real)
    ensures r.Ok? ==> "New Tokens" in r.value && r.value["New Tokens"] == Num(p.newTokens as real)
    ensures r.Ok? ==> "Model" in r.value && r.value["Model"] == Str(Basename(a.model) + "-" + a.revision)
    ensures r.Ok? ==> ("Kernel" in r.value &&
      r.value["Kernel"] == (if a.gptq then Str(SelectKernel(a.gptq, e.quant).value) else Null))
  {
    if p.batch < 0 || p.promptLength < 0 then Raised(RuntimeError("Trying to create tensor with negative dimension"))
    else
      var gen := Warmup(IsDecoder(e.task), p.newTokens);
      var maxMem := PeakMemoryMb(e.memory(p));
      match LatencyOutcome(v, gen, a.replica, e.elapsedMs(p))
      case Raised(x) => Raised(x)
      case Ok(meanLatency) =>
        Ok(Experiment(v, a, e, runName, p, SelectKernel(a.gptq, e.quant), meanLatency, maxMem))
  }

  /** The measured cells of a combination's row: the mean of the replica
      latencies, the per-token latency, the throughput figure of the version,
      the peak memory estimate and the load time. */
  lemma CombinationMeasured(v: Version, a: GptqArgs, e: GptqEngine, runName: string, p: GPoint)
    requires CombinationOutcome(v, a, e, runName, p).Ok?
    ensures var row := CombinationOutcome(v, a, e, runName, p).value;
      var mean := NpMean(Latencies(a.replica, e.elapsedMs(p)));
      && "Latency (s)" in row && row["Latency (s)"] == Str(Format2(mean))
      && "Latency (Tk/s)" in row && row["Latency (Tk/s)"] == Str(Format2(PerTokenLatency(mean, p.newTokens)))
      && "Throughput (s/Tk)" in row
      && row["Throughput (s/Tk)"] == Str(Format2(RowThroughput(v, p.batch, PerTokenLatency(mean, p.newTokens))))
      && "Mem. Usage" in row && row["Mem. Usage"] == Str(Format2(Finite(PeakMemoryMb(e.memory(p)))))
      && "Load Time (s)" in row && row["Load Time (s)"] == Str(Format2(Finite(e.loadTime)))
  {
    var gen := Warmup(IsDecoder(e.task), p.newTokens);
    assert LatencyOutcome(v, gen, a.replica, e.elapsedMs(p)) == Ok(NpMean(Latencies(a.replica, e.elapsedMs(p))));
  }

  /** For a decoder the two versions succeed or fail together and their rows
      differ only in the throughput figure, which as written is a thousand
      times the tokens per second whenever the per-token latency is a
      non-zero number. */
  lemma CombinationVersions(a: GptqArgs, e: GptqEngine, runName: string, p: GPoint)
    requires IsDecoder(e.task)
    ensures CombinationOutcome(AsWritten, a, e, runName, p).Ok? <==> CombinationOutcome(Corrected, a, e, runName, p).Ok?
    ensures CombinationOutcome(AsWritten, a, e, runName, p).Ok? ==>
      var ptl := PerTokenLatency(NpMean(Latencies(a.replica, e.elapsedMs(p))), p.newTokens);
      CombinationOutcome(AsWritten, a, e, runName, p).value ==
        CombinationOutcome(Corrected, a, e, runName, p).value["Throughput (s/Tk)" := Str(Format2(ThroughputAsWritten(p.batch, ptl)))]
  {
    if CombinationOutcome(AsWritten, a, e, runName, p).Ok? {
      var gen := Warmup(IsDecoder(e.task), p.newTokens);
      var mean := NpMean(Latencies(a.replica, e.elapsedMs(p)));
      assert LatencyOutcome(AsWritten, gen, a.replica, e.elapsedMs(p)) == Ok(mean);
      assert LatencyOutcome(Corrected, gen, a.replica, e.elapsedMs(p)) == Ok(mean);
      ExperimentVersions(a, e, runName, p, SelectKernel(a.gptq, e.quant), mean, PeakMemoryMb(e.memory(p)));
    }
  }

  /** The two versions' experiment rows differ only in the throughput. */
  lemma ExperimentVersions(a: GptqArgs, e: GptqEngine, runName: string, p: GPoint, kernel: Option<string>,
                           mean: Float, maxMem: real)
    ensures var ptl := PerTokenLatency(mean, p.newTokens);
      Experiment(AsWritten, a, e, runName, p, kernel, mean, maxMem) ==
        Experiment(Corrected, a, e, runName, p, kernel, mean, maxMem)["Throughput (s/Tk)" := Str(Format2(ThroughputAsWritten(p.batch, ptl)))]
  {
    var ptl := PerTokenLatency(mean, p.newTokens);
    var k, tw := "Throughput (s/Tk)", Str(Format2(ThroughputAsWritten(p.batch, ptl)));
    var d := DescriptiveFields(a, e, runName, p, kernel);
    var mw := MeasuredFields(e.loadTime, mean, ptl, ThroughputAsWritten(p.batch, ptl), maxMem);
    var mc := MeasuredFields(e.loadTime, mean, ptl, Throughput(p.batch, ptl), maxMem);
    ExperimentSplit(AsWritten, a, e, runName, p, kernel, mean, maxMem);
    ExperimentSplit(Corrected, a, e, runName, p, kernel, mean, maxMem);
    MeasuredThroughput(e.loadTime, mean, ptl, ThroughputAsWritten(p.batch, ptl), Throughput(p.batch, ptl), maxMem);
    UnionUpdate(d, mc, k, tw);
  }

  /** An experiment row is its descriptive fields followed by its measured ones. */
  lemma ExperimentSplit(v: Version, a: GptqArgs, e: GptqEngine, runName: string, p: GPoint, kernel: Option<string>,
                        mean: Float, maxMem: real)
    ensures var ptl := PerTokenLatency(mean, p.newTokens);
      Experiment(v, a, e, runName, p, kernel, mean, maxMem) ==
        DescriptiveFields(a, e, runName, p, kernel) + MeasuredFields(e.loadTime, mean, ptl, RowThroughput(v, p.batch, ptl), maxMem)
  {
  }

  /** The measured fields for two throughput figures differ only in that cell. */
  lemma MeasuredThroughput(loadTime: real, meanLatency: Float, ptl: Float, t1: Float, t2: Float, maxMem: real)
    ensures MeasuredFields(loadTime, meanLatency, ptl, t1, maxMem) ==
      MeasuredFields(loadTime, meanLatency, ptl, t2, maxMem)["Throughput (s/Tk)" := Str(Format2(t1))]
  {
  }

  /** Updating a key of the right operand of a union updates the union. */
  lemma UnionUpdate(l: Row, r: Row, k: string, x: Value)
    ensures l + r[k := x] == (l + r)[k := x]
  {
  }

  /** The outcome of every combination of `ps`, in order. */
  function RowOutcomes(v: Version, a: GptqArgs, e: GptqEngine, runName: string, ps: seq<GPoint>): (os: seq<Result<Row>>)
    ensures |os| == |ps|
    ensures forall i :: 0 <= i < |ps| ==> os[i] == CombinationOutcome(v, a, e, runName, ps[i])
  {
    seq(|ps|, i requires 0 <= i < |ps| => CombinationOutcome(v, a, e, runName, ps[i]))
  }

  /** The table after a sequence of row outcomes: one row appended per
      outcome unless in debug mode, or the first exception. */
  function Append(debug: bool, bulb: Frame, outcomes: seq<Result<Row>>): Result<Frame>
  {
    if |outcomes| == 0 then Ok(bulb)
    else
      match Append(debug, bulb, outcomes[..|outcomes| - 1])
      case Raised(x) => Raised(x)
      case Ok(f) =>
        match outcomes[|outcomes| - 1]
        case Raised(x) => Raised(x)
        case Ok(row) => Ok(if debug then f else Concat(f, SingleRow(row)))
  }

  /** The --generate sweep over `ps`. */
  function Generate(v: Version, a: GptqArgs, e: GptqEngine, runName: string, bulb: Frame, ps: seq<GPoint>): Result<Frame>
  {
    Append(a.debug, bulb, RowOutcomes(v, a, e, runName, ps))
  }

  /** A completed append had no exception; it leaves the table as it was in
      debug mode, and otherwise adds exactly one row per outcome, in order,
      after the rows already there. */
  lemma {:induction false} AppendRows(debug: bool, bulb: Frame, outcomes: seq<Result<Row>>)
    requires Append(debug, bulb, outcomes).Ok?
    ensures forall i :: 0 <= i < |outcomes| ==> outcomes[i].Ok?
    ensures debug ==> Append(debug, bulb, outcomes).value == bulb
    ensures !debug ==>
      var f := Append(debug, bulb, outcomes).value;
      && |f.rows| == |bulb.rows| + |outcomes|
      && f.rows[..|bulb.rows|] == bulb.rows
      && forall i :: 0 <= i < |outcomes| ==> outcomes[i] == Ok(f.rows[|bulb.rows| + i])
  {
    if |outcomes| > 0 {
      var pre := outcomes[..|outcomes| - 1];
      AppendRows(debug, bulb, pre);
      assert forall j :: 0 <= j < |pre| ==> pre[j] == outcomes[j];
      if !debug {
        var f := Append(debug, bulb, pre).value;
        var row := outcomes[|outcomes| - 1].value;
        assert Concat(f, SingleRow(row)).rows == f.rows + [row];
      }
    }
  }

  /** Appending one more outcome. */
  lemma AppendNext(debug: bool, bulb: Frame, outcomes: seq<Result<Row>>, i: nat)
    requires i < |outcomes| && Append(debug, bulb, outcomes[..i]).Ok?
    ensures Append(debug, bulb, outcomes[..i + 1]) ==
      match outcomes[i]
      case Raised(x) => Raised(x)
      case Ok(row) =>
        Ok(if debug then Append(debug, bulb, outcomes[..i]).value
           else Concat(Append(debug, bulb, outcomes[..i]).value, SingleRow(row)))
  {
    assert outcomes[..i + 1][..i] == outcomes[..i];
  }

  /** Appending stops at the first exception. */
  lemma {:induction false} AppendRaisedStays(debug: bool, bulb: Frame, outcomes: seq<Result<Row>>, n: nat)
    requires n <= |outcomes| && Append(debug, bulb, outcomes[..n]).Raised?
    ensures Append(debug, bulb, outcomes) == Append(debug, bulb, outcomes[..n])
  {
    if n < |outcomes| {
      assert outcomes[..|outcomes| - 1][..n] == outcomes[..n];
      AppendRaisedStays(debug, bulb, outcomes[..|outcomes| - 1], n);
    } else {
      assert outcomes[..n] == outcomes;
    }
  }

  /** A completed sweep leaves the table as it was in debug mode; otherwise
      it appends exactly one row per combination, in order, after the rows
      already there, the i-th being the row of the i-th combination. */
  lemma GenerateRows(v: Version, a: GptqArgs, e: GptqEngine, runName: string, bulb: Frame, ps: seq<GPoint>)
    requires Generate(v, a, e, runName, bulb, ps).Ok?
    ensures a.debug ==> Generate(v, a, e, runName, bulb, ps).value == bulb
    ensures !a.debug ==>
      var f := Generate(v, a, e, runName, bulb, ps).value;
      && |f.rows| == |bulb.rows| + |ps|
      && f.rows[..|bulb.rows|] == bulb.rows
      && forall i :: 0 <= i < |ps| ==> CombinationOutcome(v, a, e, runName, ps[i]) == Ok(f.rows[|bulb.rows| + i])
  {
    AppendRows(a.debug, bulb, RowOutcomes(v, a, e, runName, ps));
  }

  /** As written, a sweep with at least one combination over a model that
      is not a decoder never completes. */
  lemma NonDecoderSweepRaises(a: GptqArgs, e: GptqEngine, runName: string, bulb: Frame, ps: seq<GPoint>)
    requires !IsDecoder(e.task) && |ps| > 0
    ensures Generate(AsWritten, a, e, runName, bulb, ps).Raised?
  {
    if Generate(AsWritten, a, e, runName, bulb, ps).Ok? {
      GenerateRows(AsWritten, a, e, runName, bulb, ps);
    }
  }

  /** One pass of the sweep's loop body, as written. */
  method RunCombination(a: GptqArgs, e: GptqEngine, runName: string, p: GPoint) returns (r: Result<Row>)
    ensures r == CombinationOutcome(AsWritten, a, e, runName, p)
  {
    if p.batch < 0 || p.promptLength < 0 {
      return Raised(RuntimeError("Trying to create tensor with negative dimension"));
    }
    var maxMem := PeakMemoryMb(e.memory(p));
    var gen := Warmup(IsDecoder(e.task), p.newTokens);
    var meanLatency := GetTimings(gen, a.replica, e.elapsedMs(p));
    if meanLatency.Raised? {
      return Raised(meanLatency.exc);
    }
    r := Ok(Experiment(AsWritten, a, e, runName, p, SelectKernel(a.gptq, e.quant), meanLatency.value, maxMem));
  }

  /** The --generate loop as written: every combination in turn, the table
      growing by one row per combination unless in debug mode. */
  method RunGenerate(a: GptqArgs, e: GptqEngine, runName: string, bulb: Frame) returns (r: Result<Frame>)
    ensures r == Generate(AsWritten, a, e, runName, bulb, ParamCombinations(a))
  {
    var ps := ParamCombinations(a);
    ghost var os := RowOutcomes(AsWritten, a, e, runName, ps);
    var table := bulb;
    var i := 0;
    while i < |ps|
      invariant 0 <= i <= |ps|
      invariant Append(a.debug, bulb, os[..i]) == Ok(table)
    {
      var row := RunCombination(a, e, runName, ps[i]);
      assert row == os[i];
      AppendNext(a.debug, bulb, os, i);
      if row.Raised? {
        AppendRaisedStays(a.debug, bulb, os, i + 1);
        return Raised(row.exc);
      }
      if !a.debug {
        table := Concat(table, SingleRow(row.value));
      }
      i := i + 1;
    }
    assert os[..|ps|] == os;
    r := Ok(table);
  }

  // ---------------------------------------------------------------------
  // The script
  // ---------------------------------------------------------------------

  /** The table loaded at start as written: `pd.Dataframe` is not a pandas
      attribute, so a missing bulb.csv raises AttributeError. */
  function LoadBulbAsWritten(existing: Option<Frame>): (r: Result<Frame>)
    ensures existing.None? ==> r == Raised(AttributeError("Dataframe"))
    ensures existing.Some? ==> r == Ok(existing.value)
  {
    if existing.None? then Raised(AttributeError("Dataframe")) else Ok(existing.value)
  }

  /** The loader as written agrees with load_existing_dataframe exactly when
      bulb.csv exists. */
  lemma LoadBulbAgrees(existing: Option<Frame>)
    ensures existing.Some? <==> LoadBulbAsWritten(existing) == Ok(LoadExistingDataframe(existing))
  {
  }

  /** What the script's surroundings provide: CUDA, the CUDA_VISIBLE_DEVICES
      variable, the model and GPU, and the run name. */
  datatype GptqHost = GptqHost(cudaAvailable: bool, visibleDevices: Option<string>, engine: GptqEngine, runName: string)

  /** The script: load the table, check the device, and with --generate run
      the sweep. The result is the table written to bulb.csv, or None when
      nothing is written (no --generate, or debug mode). */
  function GptqMainOutcome(v: Version, h: GptqHost, a: GptqArgs, existing: Option<Frame>): Result<Option<Frame>>
  {
    match LoadBulb(v, existing)
    case Raised(x) => Raised(x)
    case Ok(bulb) =>
      match CheckDevices(h.cudaAvailable, h.visibleDevices)
      case Raised(x) => Raised(x)
      case Ok(_) =>
        if !a.generate then Ok(None)
        else match Generate(v, a, h.engine, h.runName, bulb, ParamCombinations(a))
          case Raised(x) => Raised(x)
          case Ok(f) => Ok(if a.debug then None else Some(f))
  }

  /** The script as written. */
  method RunGptqMain(h: GptqHost, a: GptqArgs, existing: Option<Frame>) returns (r: Result<Option<Frame>>)
    ensures r == GptqMainOutcome(AsWritten, h, a, existing)
  {
    if existing.None? {
      return Raised(AttributeError("Dataframe"));
    }
    var bulb := existing.value;
    var check := CheckDevices(h.cudaAvailable, h.visibleDevices);
    if check.Raised? {
      return Raised(check.exc);
    }
    if !a.generate {
      return Ok(None);
    }
    var table := RunGenerate(a, h.engine, h.runName, bulb);
    if table.Raised? {
      return Raised(table.exc);
    }
    r := Ok(if a.debug then None else Some(table.value));
  }

  /** As written, a first run (no bulb.csv) raises before anything else,
      whatever the arguments and the machine. */
  lemma FirstRunRaisesAsWritten(h: GptqHost, a: GptqArgs)
    ensures GptqMainOutcome(AsWritten, h, a, None) == Raised(AttributeError("Dataframe"))
  {
  }

  /** A completed --generate run outside debug mode writes the old table
      followed by one row per combination; with the repairs a first run (no
      bulb.csv) writes exactly one row per combination. Debug mode writes
      nothing. */
  lemma MainWritesOneRowPerCombination(v: Version, h: GptqHost, a: GptqArgs, existing: Option<Frame>)
    requires GptqMainOutcome(v, h, a, existing).Ok?
    ensures a.debug || !a.generate ==> GptqMainOutcome(v, h, a, existing).value.None?
    ensures a.generate && !a.debug ==>
      var w := GptqMainOutcome(v, h, a, existing).value;
      && w.Some?
      && |w.value.rows| == |LoadExistingDataframe(existing).rows| + |ParamCombinations(a)|
      && w.value.rows[..|LoadExistingDataframe(existing).rows|] == LoadExistingDataframe(existing).rows
    ensures a.generate && !a.debug && existing.None? ==>
      v.Corrected? && |GptqMainOutcome(v, h, a, existing).value.value.rows| == |ParamCombinations(a)|
  {
    assert LoadBulb(v, existing) == Ok(LoadExistingDataframe(existing));
    if a.generate {
      GenerateRows(v, a, h.engine, h.runName, LoadExistingDataframe(existing), ParamCombinations(a));
    }
  }
}
