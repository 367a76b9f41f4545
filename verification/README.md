# BERTScore evaluation harness of the Llama 2 quantization study

This project models `evaluate_BERTScore`, the function that the Llama 2
quantization notebook uses to measure a causal language model. The function
walks the first `num_samples` record slots of a text corpus. It skips every
record shorter than `prompt_length + gen_length`. Every other record is cut
into a prompt (its first `prompt_length` characters) and a reference (the
next `gen_length` characters). The model generates from the prompt, and the
decoded output (for a causal model, the prompt followed by its continuation)
is the prediction; the generation call is timed and, on a CUDA device, its peak memory above the
baseline is recorded. At the end the BERTScore scorer is called once on all
predictions and references. The function then returns one report: the mean
precision, recall and F1, the average inference time, and the average and
maximum memory delta.

The model has three modules:

- `Selection` (selection.dfy) says which records are used and how each is
  cut. `Select` is the selection policy as a function of the inspected
  records.
- `Summary` (summary.dfy) holds the closing arithmetic: sum, maximum, and the
  average and maximum that fall back to 0.0 on an empty list.
- `Harness` (harness.dfy) holds the run itself:
  - `RunSamples` is the loop as an imperative method over the script's own
    running lists;
  - `EvaluateBERTScore` is the whole function: the loop, one scorer call and
    the summary;
  - `Evaluation` is the declarative description of the whole run, and
    `Collected` is the same for the loop alone.

The defining functions have no contracts of their own; the lemmas below
state their properties. They are, with the lines they model:

- `Cut` (lines 37-42) and `Select` (lines 30-42);
- `Megabytes`, the division by 10^6 at lines 34 and 59;
- `InferenceTime` (line 52) and `MemoryUsage` (lines 34, 59-60);
- `Extended`, one iteration's bookkeeping (lines 53 and 62-65), and
  `Tallied`, its repetition over the used samples (lines 30-65);
- `Sum`, Python's `sum` at line 71;
- `Summarize` (lines 68-80), `Collected` and `RunFrom` (lines 30-65), and
  `Evaluation` (lines 24-80).

The script raises and does not catch its failures. Each failure ends the run
as an `Err`:

- `IndexOutOfRange`: a record slot past the end of the corpus is read (line 36).
- `DeviceRejected`: the second peak-memory reset (line 48) is not guarded by
  the device test, so it runs on a non-CUDA device too, where the device
  check of `torch.cuda.reset_peak_memory_stats` raises.
- `DivisionByZero`: zero samples were requested (line 70). This happens
  after the scorer call.

Consequences of the code that the lemmas make explicit:

- A corpus shorter than `num_samples` is indexed past its end at line 36,
  and the run fails with `IndexOutOfRange` (`EvaluationIndexError`).
- Off CUDA, the unguarded reset at line 48 fails at the first used record,
  so a CPU run reports only when none of the requested records is long
  enough to be used (`EvaluationSucceedsIff`, `EvaluationDeviceRejected`).
- Record slots are consumed, not accepted samples: the loop inspects the
  first `num_samples` slots and never reads further to replace a skipped
  record (`SelectComplete`, `Inspected`).
- The average time divides the total by the requested count, not by the
  number of records used (`SummarizeReports`, `EvaluationReport`).

## Model

| member | source | states |
|---|---|---|
| Selection.CutSplits | text/llama2_quantization.py:37-42 | a record yields a sample exactly when it holds at least `prompt_length + gen_length` characters; the prompt then has `prompt_length` characters, the reference `gen_length`, and together they are the record's leading `prompt_length + gen_length` characters |
| Selection.SelectBound | text/llama2_quantization.py:30-38 | at most one sample per inspected record slot |
| Selection.SelectWellCut | text/llama2_quantization.py:36-42 | every selected sample comes from a long-enough inspected record and is an exact prompt/reference split of it |
| Selection.SelectInRecordOrder | text/llama2_quantization.py:30-42 | samples appear in strictly increasing record order, each naming an inspected slot |
| Selection.SelectComplete | text/llama2_quantization.py:30-38 | an inspected record is used if and only if it is long enough: short records are skipped and nothing else is |
| Selection.SelectPrefix | text/llama2_quantization.py:30-38 | inspecting more slots only appends samples; the samples of the first `i` records are a prefix |
| Selection.SelectAllLong | text/llama2_quantization.py:30-38 | when every inspected record is long enough, there is one sample per record |
| Selection.SelectNoneLong | text/llama2_quantization.py:30-38 | when no inspected record is long enough, nothing is selected |
| Selection.SelectFirst | text/llama2_quantization.py:30-42 | the first sample comes from the first long-enough record |
| Summary.Max | text/llama2_quantization.py:79 | the maximum of a non-empty list is one of its elements and no element exceeds it |
| Summary.MeanOrZero | text/llama2_quantization.py:71 | the average is 0.0 for an empty list and otherwise times the length gives the sum |
| Summary.MaxOrZero | text/llama2_quantization.py:79 | the maximum is 0.0 for an empty list and otherwise an element that no element exceeds |
| Summary.SumAtMost | text/llama2_quantization.py:71 | a sum of readings each at most `bound` is at most the count times `bound` |
| Summary.MeanAtMostMax | text/llama2_quantization.py:71-79 | the reported memory average never exceeds the reported maximum, also when both fall back to 0.0 |
| Harness.Inspected | text/llama2_quantization.py:30-36 | the loop can read at most `num_samples` records, all a prefix of the corpus: exactly `num_samples` when the corpus is long enough, and the whole corpus otherwise |
| Harness.CollectedLengths | text/llama2_quantization.py:25-65 | a loop that completes holds one prediction per reference, at most `num_samples` of each, and on CUDA one memory delta per prediction, none otherwise |
| Harness.TalliedClosedForm | text/llama2_quantization.py:49-65 | after the used samples the lists hold the decoded generation output for each prompt and each reference in sample order (so they stay parallel), the total is the sum of the inference times, and there is one memory delta per sample on CUDA and none otherwise |
| Harness.SummarizeReports | text/llama2_quantization.py:67-80 | the summary fails exactly when zero samples were requested; otherwise the quality figures are the means of the scorer outputs, the average time times the requested count is the total time, and the memory figures are 0.0 without deltas, else a true average and a true maximum with the average not above it |
| Harness.CollectedDeviceRejected | text/llama2_quantization.py:48 | on a non-CUDA device the loop fails at the first used record |
| Harness.EvaluationCompletes | text/llama2_quantization.py:30-80 | a run whose requested records all exist, on CUDA or with no usable record, summarizes the closed-form lists of the selected samples |
| Harness.EvaluationReport | text/llama2_quantization.py:67-77 | a run that reports gives the means of the scorer's outputs on the selected predictions and references, and as average time the sum of the used samples' times divided by the requested count |
| Harness.EvaluationMemory | text/llama2_quantization.py:58-79 | in a run that reports, off CUDA no record is used and both memory figures are 0.0; on CUDA without samples both are 0.0; with samples they are the average of the per-sample deltas and one of those deltas at least as large as each, with the average not above it |
| Harness.EvaluationSucceedsIff | text/llama2_quantization.py:30-70 | a run reports if and only if at least one record was requested, every requested record exists, and the device is CUDA or no requested record is long enough; zero requested records fail with a division by zero |
| Harness.EvaluationDeviceRejected | text/llama2_quantization.py:48 | off CUDA, the run fails at the first requested record long enough to be used, naming it |
| Harness.EvaluationIndexError | text/llama2_quantization.py:36 | requesting more records than the corpus holds fails at the first missing slot, unless a non-CUDA device has failed before |
| Harness.RunFromMatches | text/llama2_quantization.py:30-65 | from any slot reached without failure, the rest of the loop ends where `Collected` says and hands the model exactly the prompts of the selected samples |
| Harness.RunMatches | text/llama2_quantization.py:30-65 | the loop from slot 0 ends where `Collected` says and calls the model on exactly the selected prompts in record order, and on none off CUDA |
| Harness.RunSamples | text/llama2_quantization.py:25-65 | the imperative loop over the script's running lists ends in the state the loop-shaped function `RunFrom` gives from slot 0, and logs the same model calls |
| Harness.EvaluateBERTScore | text/llama2_quantization.py:24-80 | the whole function returns what `Evaluation` says, calls the model on exactly the selected prompts, and calls the scorer once on the full lists when the loop completes and never otherwise |

## Left out

- The tokenizer, `model.generate` and `tokenizer.decode` (lines 45, 51 and 56) are one parameter `model(prompt, genLength)`. Tokenization, truncation and how `max_length` counts prompt tokens are not modelled.
- The BERTScore scorer (line 68) and the tensor `mean().item()` (lines 74-76) are parameters.
- Harness.EvaluationSucceedsIff, Harness.EvaluationMemory, Harness.EvaluationReport, Harness.EvaluateBERTScore: the model, the scorer and the mean are total functions, assumed to return on every input, including the empty lists the scorer receives when no record is used. A failure inside a collaborator (generation running out of memory, or the scorer rejecting empty lists) is not modelled, so these results hold only for collaborators that return; with a scorer that rejects empty lists, a CPU run and a run with `num_samples == 0` would fail in the scorer instead.
- The wall clock (lines 49 and 52) and the CUDA allocator counters (lines 34 and 59) are a supplied `Reading` per record slot. The first peak reset (line 33) has no effect on the model.
- The module-level `device` choice (line 83) is the `cuda` parameter.
- Floating-point arithmetic is modelled with exact reals. Bytes are converted to megabytes by an exact division by 10^6.
- Corpus records are their `"text"` strings. `num_samples`, `prompt_length` and `gen_length` are natural numbers: a negative `num_samples` (an empty `range`, empty lists for the scorer, then `0.0 / num_samples`) and Python's negative-index slicing are not modelled.
- The default arguments `num_samples=10, prompt_length=400, gen_length=400` (line 24) are not modelled: the model's members take all three as parameters. The script's only call (line 115) passes `num_samples=100` and relies on the defaults `prompt_length = gen_length = 400`, which is one instance of the model.
- Package installation, hub login, the model loading and quantization settings, dataset loading, and the printing of results (lines 10-20, and everything after line 80) are not part of this model.
- Selection.Cut, Selection.Select, Summary.Sum, Harness.Megabytes, Harness.InferenceTime, Harness.MemoryUsage, Harness.Extended, Harness.Tallied, Harness.Summarize, Harness.Collected, Harness.Evaluation, Harness.RunFrom: defining functions without contracts of their own; the lemmas listed under "## Model" state their properties.
