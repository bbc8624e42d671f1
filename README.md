# lighthouse benchmark orchestration, in Dafny

lighthouse measures how fast language models run on a machine. It has two
benchmark scripts, and this project models their deterministic orchestration.
The inference engines, GPUs, clocks and files they talk to are parameters of
the model.

- **`lighthouse/benchmark_gguf.py`: the llama.cpp sweep.**
  - It walks the Cartesian product of six setting lists.
  - It converts the offload fraction into a layer count.
  - It skips a configuration when the dataset snapshot `output/bulb.csv`
    already has a row with the same threads, batch threads, batch and offload
    fraction.
  - For every configuration it runs, it performs `k_folds` trials. It converts
    each trial's millisecond counters into seconds and tokens per second,
    averages them field by field, and stages one JSON record per
    configuration under `input/`.
  - Finally it merges every staged record into the dataset, keeping the first
    row of each `id`.
- **`lighthouse/benchmark_gptq.py`: the transformers / AutoGPTQ sweep.**
  - It checks that a single CUDA device is visible.
  - It names the kernel and the log file from the quantization settings.
  - With `--generate`, it measures memory and latency for every combination
    of batch size, prompt length and new tokens, and appends one row per
    combination to `bulb.csv` unless in debug mode.

## Project layout

| file | module | contents |
|---|---|---|
| `outcomes.dfy` | `Outcomes` | `Option`, the Python exceptions the scripts can raise, and `Result` (a value or a raised exception) |
| `numeric.dfy` | `Numeric` | Python `int()` truncation, `round(x, 2)` with ties to even, means, numpy float64 values (finite, nan, ±inf) with numpy division and multiplication, and `f"{x:.2f}"` |
| `product.dfy` | `Product` | `itertools.product` as nested pairs, with position lemmas |
| `text.dfy` | `Text` | `str.split` and `str.replace` on one character, `str.endswith`, `os.path.basename` |
| `table.dfy` | `Table` | the pandas frame (a column set and rows of cells), `pd.DataFrame.from_dict`, `pd.concat`, `drop_duplicates(subset=["id"])`, and `load_existing_dataframe` |
| `gguf.dfy` | `Gguf` | `benchmark_gguf.py`: `get_timings`, the trial loop, the record, the sweep, the skip rule, the merge and `main` |
| `gptq.dfy` | `Gptq` | `benchmark_gptq.py`: the device check, kernel and file name, `get_timings`, latency, throughput and memory, the experiment row, the `--generate` loop and the script |

### How the code is modelled

- **Exceptions.** A Python exception is a `Raised(...)` result, and each
  operation's contract says exactly when it is raised.
- **Loops.** The source's loops become methods with `while` loops:
  - the `k_folds` trial loop;
  - the configuration loop of `main`;
  - the folder loop of the merge;
  - the replica loop of the GPTQ `get_timings`;
  - the GPTQ `--generate` loop.

  Each method is proved equal to a pure function, and the
  properties are proved about that function.
- **Tables.** A pandas frame is a set of columns and a sequence of rows. A row
  is a map from column name to cell, and a column missing from a row is a NaN
  cell. The dictionary benchmark_gguf returns is first a `Record` value with
  one field per entry; `RecordRow` and `LogRow` lay it out as the row that is
  written to JSON.
- **The script and its repairs.** Three slips in `benchmark_gptq.py` are
  listed under Findings. The composite functions of `Gptq` take a `Version`:
  `AsWritten` is the script, and `Corrected` is the script with the three
  slips repaired. The methods (`RunCombination`, `RunGenerate`,
  `RunGptqMain`) model the script as written. The row-count lemmas hold for
  both versions.
- **Numbers.** Times and rates are exact reals. numpy results are the `Float`
  datatype, so a division by zero gives nan or inf where numpy would, and a
  Python `ZeroDivisionError` where Python would.
- **Engine calls.** `Gguf.Engine.trial` takes the index of the point whose
  benchmark makes the call, as the two clock readings of `Gguf.Host` do. Two
  points with the same settings (a repeated axis value, or two offload
  fractions that truncate to the same layer count) therefore make separate
  calls, each with its own completion id; when the ids are fresh, both
  rows reach bulb.csv (`Gguf.MainStoresEveryRun`).

### Two details of the llama.cpp sweep

- **Offload layers.** The layer count is `int()` of
  (block_count + 1) × fraction (`benchmark_gguf.py:214`). That truncates
  rather than rounds, so 0.9 of 40 blocks gives 36 layers, not 37
  (`Gguf.OffloadExamples`).
- **Skip rule.** The comment at `benchmark_gguf.py:216` and the message at
  :223 speak of a configuration already tested "on this machine". The test
  at :217-220 compares only Threads, Batch Threads, Batch and the offload
  fraction stored as "GPU Layers". No machine or model column takes part, so
  a row from another machine or another model with the same four values also
  causes a skip (`Gguf.SkipIgnoresMachine`). The model follows the test.

## Model

| member | source | states |
|---|---|---|
| Numeric.Trunc | lighthouse/benchmark_gguf.py:214 | `int()` of a float: for x ≥ 0 the largest integer not above x, for x < 0 the smallest not below it |
| Numeric.Round2 | lighthouse/benchmark_gguf.py:158-161 | `round(x, 2)` is a whole number of hundredths within 0.005 of x |
| Numeric.Round2Fixes | lighthouse/benchmark_gguf.py:158-161 | rounding a value that already has two decimals returns it unchanged |
| Numeric.Round2Idempotent | lighthouse/benchmark_gguf.py:158-161 | rounding twice equals rounding once |
| Numeric.Mean | lighthouse/benchmark_gguf.py:154-161 | `sum(xs) / len(xs)` times the count is the sum |
| Numeric.MeanConstant | lighthouse/benchmark_gguf.py:154-161 | the mean of identical samples is that sample |
| Numeric.NpMean | lighthouse/benchmark_gptq.py:125 | `np.mean` is nan exactly for an empty list; otherwise it times the count is the sum |
| Numeric.Div | lighthouse/benchmark_gptq.py:418 | float64 division: the exact quotient for a non-zero divisor; nan when either side is nan or for 0/0; never an exception |
| Numeric.Mul | lighthouse/benchmark_gptq.py:421 | float64 product: exact on finite values, nan when either side is nan |
| Numeric.Format2 | lighthouse/benchmark_gptq.py:459-464 | `f"{x:.2f}"` of a finite value has a minus sign exactly when x < 0, then digits, a point and exactly two digits |
| Product.Cross | lighthouse/benchmark_gguf.py:211 | `itertools.product` of two axes has len(xs) × len(ys) elements |
| Product.CrossAt | lighthouse/benchmark_gguf.py:211 | the pair (xs[i], ys[j]) is at position i × len(ys) + j: lexicographic order, second axis fastest |
| Product.CrossAt3 | lighthouse/benchmark_gptq.py:366-370 | for three axes, (i, j, l) is at the mixed-radix position i × len(ys) × len(zs) + j × len(zs) + l |
| Product.CrossAt4 | lighthouse/benchmark_gguf.py:211 | the same for four axes |
| Product.CrossIndex | lighthouse/benchmark_gguf.py:211 | conversely, position k holds (xs[k div len(ys)], ys[k mod len(ys)]) |
| Product.CrossMembership | lighthouse/benchmark_gguf.py:211 | a pair is enumerated iff each component is on its axis |
| Text.Split | lighthouse/benchmark_gptq.py:257 | `str.split` on one character returns at least one piece; `"".split(",")` is `[""]`; a string without the separator is its own only piece |
| Text.SplitJoin | lighthouse/benchmark_gptq.py:257 | joining the pieces with the separator gives back the string, so no character is lost or moved |
| Text.SplitLength | lighthouse/benchmark_gptq.py:257 | the number of pieces is one more than the number of separators |
| Text.SplitPiecesFree | lighthouse/benchmark_gptq.py:257 | no piece contains the separator |
| Text.CountZero | lighthouse/benchmark_gptq.py:257 | a character has count zero iff it does not occur |
| Text.ReplaceChar | lighthouse/benchmark_gptq.py:333 | `replace("/", "-")` keeps the length, leaves no "/", puts "-" where each "/" was, and keeps every other character in place |
| Text.Basename | lighthouse/benchmark_gptq.py:453 | `os.path.basename` has no "/", is a suffix of the path, and what precedes it is a "/" |
| Table.Normalise | lighthouse/benchmark_gguf.py:180 | the same keys; a scalar becomes a one-element list; a list is kept |
| Table.FromDict | lighthouse/benchmark_gguf.py:181 | ValueError iff two lists differ in length; otherwise one row per list position, where row i holds element i of every column |
| Table.ReadScalarRecord | lighthouse/benchmark_gguf.py:176-181 | a non-empty dictionary of scalars reads back as the one-row frame holding exactly that dictionary |
| Table.Concat | lighthouse/benchmark_gguf.py:183-185 | `pd.concat` puts the rows of the first frame, then those of the second, over the union of the columns |
| Table.SingleRow | lighthouse/benchmark_gptq.py:468 | `pd.DataFrame([d])` is one row holding d |
| Table.LoadExistingDataframe | lighthouse/benchmark_gguf.py:169-174 | the stored frame, or a frame with no columns and no rows when the file is missing |
| Table.DropDuplicatesById | lighthouse/benchmark_gguf.py:198 | a frame with no rows or no columns comes back as it is (pandas returns a copy before looking at the subset); otherwise KeyError iff there is no "id" column; the columns and the set of ids are kept; with columns, the rows are exactly the first occurrences of each id in input order, ids are unique, and every kept row is the first row with its id |
| Table.DedupFirstOccurrences | lighthouse/benchmark_gguf.py:198 | deduplicating from the front equals the independent definition: keep a row iff no earlier row has its id |
| Table.DedupAppend | lighthouse/benchmark_gguf.py:196-198 | deduplicating a concatenation deduplicates the first part, then drops from the second part every id the first part had |
| Table.DedupDistinctUnchanged | lighthouse/benchmark_gguf.py:198 | rows whose ids are already unique pass through unchanged |
| Table.DedupIdempotent | lighthouse/benchmark_gguf.py:198 | dropping duplicates twice equals dropping them once |
| Table.DedupAbsorbs | lighthouse/benchmark_gguf.py:198 | appending rows whose ids are all present changes nothing after deduplication |
| Table.DedupKeepsUnique | lighthouse/benchmark_gguf.py:198 | a row that shares its id with no other row survives deduplication |
| Table.DropKeepsUnique | lighthouse/benchmark_gguf.py:198 | `drop_duplicates(subset=["id"])` keeps every row whose id no other row carries |
| Gguf.GetTimings | lighthouse/benchmark_gguf.py:87-98 | ZeroDivisionError iff a sample, prompt-eval or eval time is 0; otherwise each time × 1000 is its counter, total × 1000 is end − start, and each rate × its time is tokens × 1000 |
| Gguf.Column | lighthouse/benchmark_gguf.py:132-139 | the per-field list has one entry per sample, the sample's field |
| Gguf.Averaged | lighthouse/benchmark_gguf.py:154-161 | a phase time times k is the sum of its samples; total time and the three rates are two-decimal values within 0.005 of their mean |
| Gguf.Aggregate | lighthouse/benchmark_gguf.py:154-161 | each field of the record is averaged from that field's own samples only |
| Gguf.AggregateIdentical | lighthouse/benchmark_gguf.py:154-161 | k identical samples average to that sample with only the four rounded fields rounded, and to the sample itself when those already have two decimals |
| Gguf.Trials | lighthouse/benchmark_gguf.py:123-142 | n completed trials give exactly n samples |
| Gguf.TrialsSamples | lighthouse/benchmark_gguf.py:123-139 | sample i is the conversion of trial i's own counters |
| Gguf.TrialsRaisedStays | lighthouse/benchmark_gguf.py:123-131 | once a trial raises, the loop's outcome is that exception |
| Gguf.ConfigRow | lighthouse/benchmark_gguf.py:74-85 | the engine's description carries its threads, batch threads and batch, and no id |
| Gguf.ConfigRowCells | lighthouse/benchmark_gguf.py:74-85 | the engine's description also carries the device, VRAM, RAM, CPU count, model, model size and the context window it reports |
| Gguf.ConfigRowKeys | lighthouse/benchmark_gguf.py:74-85 | the engine's description has exactly its ten columns |
| Gguf.Averages | lighthouse/benchmark_gguf.py:153-160 | each of the eight averaged fields is written under its own column (`MetricColumn`), holding that field of the record |
| Gguf.Measurements | lighthouse/benchmark_gguf.py:150-160 | the script's own columns hold the record's context window, prompt length, new tokens and each of the eight averaged fields under its column, and none of the id, run, thread or batch columns |
| Gguf.RecordRow | lighthouse/benchmark_gguf.py:144-161 | the dictionary holds the record's id, run name and run time, its context window (overriding the engine's), prompt length, new tokens, each averaged field under its column, and the engine's thread and batch settings |
| Gguf.BenchmarkOutcome | lighthouse/benchmark_gguf.py:100-162 | a record iff the prompt size is ≥ 0, k_folds ≥ 1 and every trial converts (no trial leaves `output` unbound); the record carries the last trial's id, the prompt size plus one, new tokens, the context window argument, the engine's description and the averages of all trials |
| Gguf.RunTrials | lighthouse/benchmark_gguf.py:123-141 | the k_folds loop yields the samples of all trials, or the first conversion error, and the id of the last trial run |
| Gguf.BenchmarkGguf | lighthouse/benchmark_gguf.py:111-162 | benchmark_gguf returns or raises exactly what `BenchmarkOutcome` says |
| Gguf.Points | lighthouse/benchmark_gguf.py:211-212 | the sweep has as many points as the product of the six list lengths |
| Gguf.PointAt | lighthouse/benchmark_gguf.py:211-212 | the point of axis positions i1..i6 is visited at their mixed-radix index: lexicographic order, new_tokens fastest |
| Gguf.PointsMembership | lighthouse/benchmark_gguf.py:211-212 | a point is visited iff each coordinate is on its axis |
| Gguf.OffloadLayers | lighthouse/benchmark_gguf.py:214 | the layer count is the truncation of (block_count+1)·fraction: within [0, block_count+1] for a fraction in [0, 1], 0 for 0, block_count+1 for 1 |
| Gguf.OffloadExamples | lighthouse/benchmark_gguf.py:214 | half of 39 blocks gives 20 layers; 0.9 of 40 blocks gives 36, where rounding would give 37 |
| Gguf.ConfigAlreadyTried | lighthouse/benchmark_gguf.py:217-220 | KeyError iff one of the four compared columns is missing from the snapshot; otherwise true iff some row has equal threads, batch threads, batch and offload fraction |
| Gguf.SkipIgnoresMachine | lighthouse/benchmark_gguf.py:216-220 | changing any column other than the four compared ones (the device, the model, the memo, ...) never changes whether a row matches a point |
| Gguf.SkipIgnoresLengths | lighthouse/benchmark_gguf.py:217-222 | points that differ only in prompt length or new tokens are skipped alike |
| Gguf.PointLog | lighthouse/benchmark_gguf.py:225-227 | the log of a run point has the requested prompt length (the −1 and the +1 cancel), new tokens, the context window, the description of the engine loaded with the point's settings, the offload fraction as "GPU Layers", the memo and the id of the last trial of that point's own calls |
| Gguf.LogRow | lighthouse/benchmark_gguf.py:226-230 | the JSON object staged for a run holds scalars only |
| Gguf.LogRowIdentity | lighthouse/benchmark_gguf.py:226-230 | the staged object keeps the record's id and carries the memo |
| Gguf.LogRowSkipColumns | lighthouse/benchmark_gguf.py:226-227 | the staged object carries the four columns the skip rule compares: the engine's threads, batch threads and batch, and the offload fraction |
| Gguf.RunPointIsTriedLater | lighthouse/benchmark_gguf.py:216-227 | when the engine reports the thread and batch settings it was loaded with, a run point's record matches that point under the skip rule, so a later sweep over a dataset holding it skips the point |
| Gguf.PointStep | lighthouse/benchmark_gguf.py:216-227 | a point is skipped iff it was already tried and `--force` is off; otherwise it is run and its log is `PointLog` |
| Gguf.Fates | lighthouse/benchmark_gguf.py:211-227 | each point's fate depends only on the snapshot loaded at start and on that point, never on earlier points of the sweep |
| Gguf.AsJson | lighthouse/benchmark_gguf.py:228-230 | a fate keeps its kind (raised, skipped, run) when a run's log is laid out as the JSON object written |
| Gguf.StageContents | lighthouse/benchmark_gguf.py:228-230 | a completed staging had no exception; outside debug mode it holds exactly the run points' logs, each under its own file name; in debug mode nothing |
| Gguf.StageNext | lighthouse/benchmark_gguf.py:222-230 | staging one more point adds its file when it is run (and not in debug mode), nothing when it is skipped, and stops on an exception |
| Gguf.StageCount | lighthouse/benchmark_gguf.py:228-230 | outside debug mode one file is staged per run point |
| Gguf.ForcedSweepRunsAll | lighthouse/benchmark_gguf.py:222-230 | with `--force` every point is run, and outside debug mode one file per point is staged |
| Gguf.RunPoint | lighthouse/benchmark_gguf.py:212-227 | one pass of the loop body computes exactly the point's fate, its benchmark drawing the completion ids of the point's own generation calls |
| Gguf.RunSweep | lighthouse/benchmark_gguf.py:211-230 | the configuration loop stages exactly what the function `Sweep` stages |
| Gguf.SweepStaged | lighthouse/benchmark_gguf.py:211-230 | after a completed sweep, no point raised, and outside debug mode the staged files are exactly the run points' logs under their own names |
| Gguf.ProcessJsonFilesInFolder | lighthouse/benchmark_gguf.py:187-198 | the merge loop returns or raises exactly what `MergeOutcome` says |
| Gguf.IntakeRaisedStays | lighthouse/benchmark_gguf.py:192-196 | the first file that cannot be read decides the outcome |
| Gguf.JsonFiles | lighthouse/benchmark_gguf.py:193 | a file is kept iff its name ends in ".json" |
| Gguf.IntakeJsonOnly | lighthouse/benchmark_gguf.py:192-196 | files not ending in ".json" make no difference |
| Gguf.IntakeRecords | lighthouse/benchmark_gguf.py:190-196 | reading records of scalars appends exactly one row per .json file, holding that record, after the existing rows |
| Gguf.IntakeColumns | lighthouse/benchmark_gguf.py:190-196 | reading records of scalars adds exactly the keys of those records to the columns |
| Gguf.IntakeKeeps | lighthouse/benchmark_gguf.py:190-196 | whatever is read, the existing rows stay first, unchanged, and the existing columns stay |
| Gguf.IntakeHolds | lighthouse/benchmark_gguf.py:190-196 | every record of scalars read in is among the rows |
| Gguf.MergeContents | lighthouse/benchmark_gguf.py:187-198 | after the merge ids are unique when bulb.csv has columns; every existing id and every record's id survives; existing rows with unique ids stay first, in order |
| Gguf.RemergeIdempotent | lighthouse/benchmark_gguf.py:187-198 | merging the same folder into the merged table changes nothing |
| Gguf.RunMain | lighthouse/benchmark_gguf.py:200-234 | the script returns or raises exactly what `MainOutcome` says: FileNotFoundError without bulb.csv, EnvironmentError without CUDA, then the sweep and, outside debug mode, the merge |
| Gguf.RunLogIsRecord | lighthouse/benchmark_gguf.py:225-230 | a run point's log is a non-empty record of scalars with an id, staged under a ".json" name |
| Gguf.MergeReadsStaged | lighthouse/benchmark_gguf.py:229-232 | a staged record's id is in the merged table |
| Gguf.MainStoresEveryRun | lighthouse/benchmark_gguf.py:200-234 | when the staged file names are distinct from each other and from the folder's: in debug mode nothing changes; otherwise bulb.csv holds every run point's id, holds no id twice (when it had columns), and keeps its old rows first when their ids were unique; when the runs drew fresh completion ids (`FreshRunIds`), every run point's staged object, memo and "GPU Layers" included, is itself a row of bulb.csv |
| Gguf.StagedRowsKept | lighthouse/benchmark_gguf.py:196-234 | with fresh completion ids, the staged object of every run point survives `drop_duplicates` as a row of bulb.csv |
| Gguf.StagedOnlyRow | lighthouse/benchmark_gguf.py:222-230 | with ids distinct between runs, the only staged object carrying run i's id is run i's own |
| Gguf.StagedFileIsRun | lighthouse/benchmark_gguf.py:222-230 | every staged file is the log of a run point under that point's file name |
| Gguf.StagedScalar | lighthouse/benchmark_gguf.py:225-230 | the sweep stages only non-empty records of scalars |
| Gguf.MergeKeepsUniqueRecord | lighthouse/benchmark_gguf.py:187-198 | a record read in whose id no other row of bulb.csv or of the folder carries is a row of the merged table, exactly as read |
| Gguf.RecordsAppend | lighthouse/benchmark_gguf.py:192-196 | the records of two listings read one after the other are the records of the first, then those of the second |
| Gguf.RecordsMember | lighthouse/benchmark_gguf.py:192-196 | a row is a record of the listing iff it is the content of one of its .json files |
| Gguf.ScalarRecordsAppend | lighthouse/benchmark_gguf.py:192-196 | two listings of records of scalars together are a listing of records of scalars |
| Gptq.CheckDevices | lighthouse/benchmark_gptq.py:255-260 | ValueError without CUDA; KeyError when CUDA_VISIBLE_DEVICES is unset; ValueError when it splits on "," into more than one piece; passes iff it splits into exactly one piece |
| Gptq.SingleDeviceIff | lighthouse/benchmark_gptq.py:255-260 | the device check passes iff CUDA is available and the variable contains no comma (an empty value passes) |
| Gptq.SelectKernel | lighthouse/benchmark_gptq.py:300-319 | None iff `--gptq` is off; with ExLlama "exllamav2" for version 2, else "exllama"; without it "autotogptq-cuda" for act-order, else "autogptq-cuda-old" |
| Gptq.KernelIdentifiesChoice | lighthouse/benchmark_gptq.py:311-319 | equal kernel labels mean the same ExLlama choice, the same version-2 choice, and without ExLlama the same act-order |
| Gptq.QuantLabel | lighthouse/benchmark_gptq.py:335-343 | "gptq" for `--gptq`, else "bitsandbytes" for `--bitsandbytes`, else None |
| Gptq.QuantLabelInjective | lighthouse/benchmark_gptq.py:335-343 | equal labels mean the same quantization choice |
| Gptq.LogFileName | lighthouse/benchmark_gptq.py:333-343 | "log_", then character i of the model at position 4 + i with "/" turned into "-", then the suffix of the chosen quantization: no "/" remains, and the length is 4 + model + suffix |
| Gptq.LogFileNameIdentifiesQuantization | lighthouse/benchmark_gptq.py:333-343 | the file name of a model determines its quantization and label; gptq takes precedence over bitsandbytes |
| Gptq.ParamCombinations | lighthouse/benchmark_gptq.py:366-370 | the number of combinations is the product of the three list lengths |
| Gptq.CombinationAt | lighthouse/benchmark_gptq.py:366-370 | combination (i, j, l) is at i × len(P) × len(N) + j × len(N) + l, for prompt lengths P and new tokens N: lexicographic order, new tokens fastest |
| Gptq.PrefillIgnored | lighthouse/benchmark_gptq.py:251-253 | `--prefill` changes nothing in the combinations measured; this holds by construction, since the script only binds an unused local `new_tokens = [1]` |
| Gptq.PeakMemoryMb | lighthouse/benchmark_gptq.py:219-233 | the estimate minus NVML's peak is (allocated peak − reserved peak) bytes in MB |
| Gptq.PeakMemoryBounds | lighthouse/benchmark_gptq.py:219-233 | the estimate is at most NVML's peak when allocation ≤ reservation, and at least PyTorch's own peak when NVML saw at least the reservation |
| Gptq.Warmup | lighthouse/benchmark_gptq.py:127-155 | a generation config exists iff the model is a decoder, with min = max = new_tokens |
| Gptq.Latencies | lighthouse/benchmark_gptq.py:107-123 | exactly max(replica, 0) latencies, each 1000 times smaller than its elapsed milliseconds |
| Gptq.GetTimingsAsWritten | lighthouse/benchmark_gptq.py:93-125 | as written, a model without a generation config raises AttributeError |
| Gptq.TimingsOutcome | lighthouse/benchmark_gptq.py:101-125 | raises iff there is a config and its min ≠ max, or there is a replica and min_new_tokens is 0; otherwise the mean of the replica latencies, which times replica is their sum |
| Gptq.GetTimingsAsWrittenDiffers | lighthouse/benchmark_gptq.py:101-125 | the written and corrected versions agree whenever there is a config; without one the written version raises and the corrected one measures |
| Gptq.NonDecoderAlwaysRaises | lighthouse/benchmark_gptq.py:101 | for every task that is not text or text-to-text generation, the written `get_timings` raises |
| Gptq.GetTimings | lighthouse/benchmark_gptq.py:93-125 | the replica loop, as written, returns or raises exactly what `GetTimingsAsWritten` says |
| Gptq.PerTokenLatency | lighthouse/benchmark_gptq.py:418 | per-token latency times new tokens is the mean latency |
| Gptq.ThroughputAsWritten | lighthouse/benchmark_gptq.py:421 | as written, throughput times per-token latency is 1000 × batch |
| Gptq.Throughput | lighthouse/benchmark_gptq.py:421 | throughput times per-token latency is batch, i.e. tokens per second; nan latency gives nan |
| Gptq.ThroughputThousandfold | lighthouse/benchmark_gptq.py:421 | the written figure is exactly 1000 times the throughput |
| Gptq.ThroughputExample | lighthouse/benchmark_gptq.py:418-421 | one second for 100 tokens at batch 1 is 100 tokens/s; the written code gives 100000 |
| Gptq.MeasuredFields | lighthouse/benchmark_gptq.py:458-464 | "Load Time (s)", "Latency (s)", "Latency (Tk/s)", "Throughput (s/Tk)" and "Mem. Usage" are the two-decimal texts of the load time, mean latency, per-token latency, throughput and peak memory |
| Gptq.DescriptiveFields | lighthouse/benchmark_gptq.py:446-457 | Model is basename + "-" + revision, Quant. Method is "gptq", Kernel is the label or null, and Batch, Prompt Length and New Tokens are the combination's |
| Gptq.DescriptiveRun | lighthouse/benchmark_gptq.py:446-448 | the descriptive fields carry the memo, the auto_gptq version and the run name |
| Gptq.DescriptiveMachine | lighthouse/benchmark_gptq.py:449-452 | the descriptive fields carry the device name, VRAM, RAM and CPU count of the machine |
| Gptq.DescriptiveKeys | lighthouse/benchmark_gptq.py:445-465 | the descriptive fields are exactly the thirteen descriptive columns of the `experiment` dictionary |
| Gptq.Experiment | lighthouse/benchmark_gptq.py:445-465 | the row has the descriptive fields and the measured ones: the per-token latency is the mean over new tokens, and the throughput is that of the version (as written, batch / (per-token latency × 1e-3)) |
| Gptq.ExperimentRun | lighthouse/benchmark_gptq.py:445-465 | the row also carries the memo, the auto_gptq version, the run name and the four machine cells, and its columns are exactly the eighteen of the `experiment` dictionary: the descriptive ones and the five measured ones |
| Gptq.CombinationOutcome | lighthouse/benchmark_gptq.py:383-465 | RuntimeError for a negative batch or prompt length; as written, AttributeError for a model that is not a decoder; otherwise a row iff timing succeeds; the row carries the batch, prompt length, new tokens, the model name and the kernel |
| Gptq.CombinationMeasured | lighthouse/benchmark_gptq.py:414-464 | a combination's row holds the formatted mean of its replica latencies, the per-token latency, the version's throughput, the peak memory estimate and the load time |
| Gptq.CombinationVersions | lighthouse/benchmark_gptq.py:414-421 | for a decoder the script and the repaired program succeed together and their rows differ only in the throughput cell |
| Gptq.ExperimentVersions | lighthouse/benchmark_gptq.py:421 | the two versions' experiment rows differ only in the throughput cell |
| Gptq.RowOutcomes | lighthouse/benchmark_gptq.py:383-465 | one outcome per combination, in order |
| Gptq.AppendRows | lighthouse/benchmark_gptq.py:467-468 | in debug mode the table is unchanged; otherwise exactly one row per outcome is appended, in order, after the existing rows |
| Gptq.AppendNext | lighthouse/benchmark_gptq.py:467-468 | appending one more outcome concatenates its row (not in debug mode) or stops on an exception |
| Gptq.AppendRaisedStays | lighthouse/benchmark_gptq.py:383-468 | the first combination that raises decides the outcome |
| Gptq.GenerateRows | lighthouse/benchmark_gptq.py:364-468 | in either version, a completed sweep leaves the table unchanged in debug mode; otherwise the old rows come first, then the i-th new row is the i-th combination's row |
| Gptq.NonDecoderSweepRaises | lighthouse/benchmark_gptq.py:101 | as written, a sweep with at least one combination over a model that is not a decoder raises |
| Gptq.RunCombination | lighthouse/benchmark_gptq.py:384-465 | one pass of the loop body computes exactly the combination's outcome as written |
| Gptq.RunGenerate | lighthouse/benchmark_gptq.py:364-468 | the `--generate` loop returns or raises exactly what `Generate` says for the script as written |
| Gptq.LoadBulbAsWritten | lighthouse/benchmark_gptq.py:249 | as written, a missing bulb.csv raises AttributeError; an existing one is loaded |
| Gptq.LoadBulbAgrees | lighthouse/benchmark_gptq.py:249 | the written loader agrees with `load_existing_dataframe` iff bulb.csv exists |
| Gptq.RunGptqMain | lighthouse/benchmark_gptq.py:246-471 | the script returns or raises exactly what `GptqMainOutcome` says for the script as written |
| Gptq.FirstRunRaisesAsWritten | lighthouse/benchmark_gptq.py:249 | as written, a run without bulb.csv raises AttributeError whatever the arguments and the machine |
| Gptq.MainWritesOneRowPerCombination | lighthouse/benchmark_gptq.py:364-471 | in either version, debug mode or no `--generate` writes nothing; otherwise the written table is the old rows plus one row per combination; a completed first run happens only in the repaired program, and writes exactly one row per combination |

## Left out

- Inference, GPU and model calls are inputs of the model, not modelled. This covers `Llama(...)`, `llm(...)`, `llm.reset`, `from_pretrained`, `model.generate`, CUDA events, `torch.cuda.memory_stats` and the NVML tracker. `Gguf.Engine` and `Gptq.GptqEngine` say what they report.
- Gguf.Engine: the engine calls are taken never to raise. A missing or unreadable model file in `Llama(...)` (`benchmark_gguf.py:111`, :214), a prompt longer than the context window in `llm(...)` (:124), or any other llama.cpp error would end the whole sweep in the script: files already staged stay in `input/`, and neither the merge nor the write of bulb.csv runs. `BenchmarkOutcome`, `Sweep` and `MainOutcome` do not describe those runs.
- Gptq.GptqEngine: the model and GPU calls are taken never to raise. A failing `from_pretrained`, or `model.generate` running out of CUDA memory (`benchmark_gptq.py:115`, :147, :211), would end the script before bulb.csv is written. `CombinationOutcome`, `Generate` and `GptqMainOutcome` do not describe those runs.
- Machine introspection (device name, VRAM, RAM, CPU count, model size) is an opaque record. The `round(..., 2)` applied to VRAM and RAM is part of that record.
- File and CSV I/O are not modelled: bulb.csv and the JSON files are in-memory frames and dictionaries. The order of `os.listdir` is taken to be the files already in `input/`, then the newly staged ones in sweep order.
- Two configurations staged within the same second get the same file name. The script overwrites the first file; the model keeps both.
- Gguf.MainStoresEveryRun: requires the staged file names to be distinct, from each other and from the files already in `input/`, because the folder is modelled as a list and an overwrite is not.
- Gguf.MainStoresEveryRun: the row-level clause holds under `FreshRunIds`, i.e. when every run's completion id differs from the ids already in bulb.csv and in the folder and from every other run's. llama-cpp-python draws a fresh uuid4 for each call (`output["id"]`, `benchmark_gguf.py:146`); that library is not part of this model, so the freshness is a hypothesis here, and `Gguf.Engine` lets two calls return equal ids.
- Clocks and randomness are parameters: the run time, the file stamps, the WordNet run name, and the random prompt token ids with the vocabulary-range check of `torch.randint`.
- `Gptq.CombinationOutcome`: only negative sizes raise. A zero batch or prompt length is passed to the model, whose behaviour is not modelled.
- The warmup's output-shape assertion (`benchmark_gptq.py:148`) belongs to the model's behaviour and is not modelled.
- Perplexity evaluation (`benchmark_gptq.py:345-362`) is a library call plus a file write.
- Several loop products are never read after the loop and are not modelled: the `line` string and the `latencies`, `throughputs` and `all_max_mem` dictionaries of the GPTQ loop.
- Printing, tqdm, argparse defaults and `create_unique_id` are not modelled; that function's only call is commented out. `lighthouse/parallel_coordinates.py` (plotting) is not part of this model.
- `Gguf.Engine` takes the block count as a number. Reading `llama.block_count` from the model metadata and converting it with `int()` is not modelled.
- llama.cpp may adjust `n_batch` and other settings it reports. The model takes whatever `describe` returns.
- `Gguf.RunPointIsTriedLater` holds only for an engine that reports the thread and batch settings it was loaded with, because the record stores the reported values and the skip rule compares them with the requested ones.
- Floating-point rounding error is not modelled. Times and rates are exact reals, signed zeros are not distinguished, and `f"{x:.2f}"` rounds the exact value half to even.
- `Numeric.Format2`: the contract states the sign, the point and the two decimals, but not the integer digits' value.

## Findings

| source | as written | input that shows it | evidently intended | confidence | as-written member | corrected member |
|---|---|---|---|---|---|---|
| lighthouse/benchmark_gptq.py:249 | `pd.Dataframe()` is not a pandas attribute, so a first run without bulb.csv raises AttributeError | no bulb.csv in the working directory | start from an empty frame (`pd.DataFrame()`), as `load_existing_dataframe` does in the other script | high, not executed | Gptq.LoadBulbAsWritten | Table.LoadExistingDataframe |
| lighthouse/benchmark_gptq.py:101 | `get_timings` reads `generation_config.min_new_tokens`, but the warmup returns None for a model that is not a decoder, so every such model raises AttributeError | `--task` other than text-generation or text2text-generation | check the generation settings only when there are some | high, not executed | Gptq.GetTimingsAsWritten | Gptq.TimingsOutcome |
| lighthouse/benchmark_gptq.py:421 | throughput = batch / (per-token latency × 1e-3); the latency is already in seconds, so the figure is 1000 times the tokens per second | elapsed 1000 ms, 100 new tokens, batch 1: 100000 instead of 100 | batch / per-token latency | medium, not executed | Gptq.ThroughputAsWritten | Gptq.Throughput |
