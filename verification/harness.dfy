/**
 * The BERTScore evaluation harness: the per-record instrumented generation
 * loop, its bookkeeping (predictions, references, total inference time and
 * per-sample memory deltas) and the closing report.
 *
 * The language model (tokenizer, `generate` with `max_length` set to
 * `genLength`, `decode` of the first output sequence), the BERTScore scorer
 * and the tensor mean are parameters the harness calls but does not define;
 * they are taken to return on every input. The wall clock and the CUDA memory
 * counters are readings supplied per record index. Failures that the script
 * raises and does not catch end the run as an `Err`.
 */
module Harness {
  import opened Selection
  import opened Summary

  /** Why a run ends without a report. */
  datatype Error =
    | IndexOutOfRange(index: nat)  // the corpus holds fewer records than were requested
    | DeviceRejected(index: nat)   // the unguarded peak-memory reset ran on a non-CUDA device
    | DivisionByZero               // zero samples were requested

  datatype Result<T> = Ok(value: T) | Err(error: Error)

  /** Instrument readings for one record: the allocator level taken as the
      baseline, the clock just before and just after generation, and the
      allocator peak observed during generation (both memory values in bytes). */
  datatype Reading = Reading(allocatedBytes: nat, startClock: real, endClock: real, peakAllocatedBytes: nat)

  /** Bytes to megabytes, decimal (a factor of 10^6). */
  function Megabytes(bytes: nat): real
  {
    bytes as real / 1000000.0
  }

  /** Wall-clock seconds of one generation call. */
  function InferenceTime(r: Reading): real
  {
    r.endClock - r.startClock
  }

  /** Peak memory during generation minus the baseline, in megabytes. */
  function MemoryUsage(r: Reading): real
  {
    Megabytes(r.peakAllocatedBytes) - Megabytes(r.allocatedBytes)
  }

  /** The scorer's per-sample precision, recall and F1 values. */
  datatype Scores = Scores(precision: seq<real>, recall: seq<real>, f1: seq<real>)

  /** The dictionary the harness returns. */
  datatype Report = Report(
    precision: real, recall: real, f1: real,
    avgInferenceTime: real, avgMemoryUsageMB: real, maxMemoryUsageMB: real)

  /** The loop's running state: two parallel lists, the time accumulator and
      the list of memory deltas. */
  datatype Tally = Tally(
    predictions: seq<string>, references: seq<string>,
    totalInferenceTime: real, memoryUsages: seq<real>)

  /** The inference times of the given samples, in sample order. */
  function InferenceTimes(samples: seq<Sample>, readings: nat -> Reading): (ts: seq<real>)
    ensures |ts| == |samples|
  {
    seq(|samples|, k requires 0 <= k < |samples| => InferenceTime(readings(samples[k].index)))
  }

  /** The prompts of the given samples, in sample order. */
  function Prompts(samples: seq<Sample>): (ps: seq<string>)
    ensures |ps| == |samples|
  {
    seq(|samples|, k requires 0 <= k < |samples| => samples[k].prompt)
  }

  /** The records of `dataset` the loop can read before it either finishes or
      indexes past the end. */
  function Inspected(dataset: seq<string>, numSamples: nat): (records: seq<string>)
    ensures |records| <= numSamples && |records| <= |dataset| && records == dataset[..|records|]
    ensures numSamples <= |dataset| ==> |records| == numSamples
    ensures numSamples > |dataset| ==> records == dataset
  {
    dataset[..if numSamples <= |dataset| then numSamples else |dataset|]
  }

  /** The bookkeeping after one more generation call for sample `s`, whose
      instrument readings are `r`: its prediction and reference appended, its
      inference time added, and on a CUDA device its memory delta appended. */
  function Extended(t: Tally, model: (string, nat) -> string, s: Sample, genLength: nat,
                    cuda: bool, r: Reading): Tally
  {
    Tally(t.predictions + [model(s.prompt, genLength)],
          t.references + [s.reference],
          t.totalInferenceTime + InferenceTime(r),
          if cuda then t.memoryUsages + [MemoryUsage(r)] else t.memoryUsages)
  }

  /** The bookkeeping after generating for `samples` in order, starting empty. */
  function Tallied(model: (string, nat) -> string, samples: seq<Sample>, genLength: nat,
                   cuda: bool, readings: nat -> Reading): Tally
  {
    if samples == [] then Tally([], [], 0.0, [])
    else
      var s := samples[|samples| - 1];
      Extended(Tallied(model, samples[..|samples| - 1], genLength, cuda, readings),
               model, s, genLength, cuda, readings(s.index))
  }

  /** The decoded generation output for each sample's prompt (for a causal
      model the prompt followed by its continuation), in sample order. */
  function Predictions(model: (string, nat) -> string, samples: seq<Sample>, genLength: nat): (ps: seq<string>)
    ensures |ps| == |samples|
  {
    seq(|samples|, k requires 0 <= k < |samples| => model(samples[k].prompt, genLength))
  }

  /** The ground-truth continuation of each sample, in sample order. */
  function References(samples: seq<Sample>): (rs: seq<string>)
    ensures |rs| == |samples|
  {
    seq(|samples|, k requires 0 <= k < |samples| => samples[k].reference)
  }

  /** The memory delta of each sample's generation call, in sample order. */
  function MemoryUsages(samples: seq<Sample>, readings: nat -> Reading): (ms: seq<real>)
    ensures |ms| == |samples|
  {
    seq(|samples|, k requires 0 <= k < |samples| => MemoryUsage(readings(samples[k].index)))
  }

  /** Proof step: each closed form over `samples` is the closed form over all
      but the last sample, extended by the last sample's entry. */
  lemma ClosedFormsStep(model: (string, nat) -> string, samples: seq<Sample>, genLength: nat, readings: nat -> Reading)
    requires samples != []
    ensures var init, s := samples[..|samples| - 1], samples[|samples| - 1];
      Predictions(model, samples, genLength) == Predictions(model, init, genLength) + [model(s.prompt, genLength)] &&
      References(samples) == References(init) + [s.reference] &&
      MemoryUsages(samples, readings) == MemoryUsages(init, readings) + [MemoryUsage(readings(s.index))] &&
      InferenceTimes(samples, readings)[..|init|] == InferenceTimes(init, readings)
  {
    var init, s := samples[..|samples| - 1], samples[|samples| - 1];
    assert Predictions(model, samples, genLength) == Predictions(model, init, genLength) + [model(s.prompt, genLength)];
    assert References(samples) == References(init) + [s.reference];
    assert MemoryUsages(samples, readings) == MemoryUsages(init, readings) + [MemoryUsage(readings(s.index))];
    assert InferenceTimes(samples, readings)[..|init|] == InferenceTimes(init, readings);
  }

  /** What the bookkeeping holds after `samples`: the decoded generation
      output for each sample's prompt and each sample's reference, in sample order (the
      two lists stay parallel); the sum of their inference times; and on a
      CUDA device one memory delta per sample, none otherwise. */
  lemma {:induction false} TalliedClosedForm(model: (string, nat) -> string, samples: seq<Sample>, genLength: nat,
                                             cuda: bool, readings: nat -> Reading)
    ensures Tallied(model, samples, genLength, cuda, readings)
         == Tally(Predictions(model, samples, genLength), References(samples),
                  Sum(InferenceTimes(samples, readings)),
                  if cuda then MemoryUsages(samples, readings) else [])
  {
    if samples != [] {
      var init := samples[..|samples| - 1];
      var s := samples[|samples| - 1];
      TalliedClosedForm(model, init, genLength, cuda, readings);
      ClosedFormsStep(model, samples, genLength, readings);
    }
  }

  /** One more record slot adds that record's cut, if any, to the selection. */
  lemma SelectStep(dataset: seq<string>, i: nat, promptLength: nat, genLength: nat)
    requires i < |dataset|
    ensures Select(dataset[..i + 1], promptLength, genLength)
         == Select(dataset[..i], promptLength, genLength) + Cut(dataset[i], i, promptLength, genLength)
  {
    assert dataset[..i + 1][..i] == dataset[..i];
  }

  /** Unfolding aid for the loop proofs: `Tallied` over `samples + [s]` is one
      `Extended` step after `Tallied` over `samples`. */
  lemma TalliedStep(model: (string, nat) -> string, samples: seq<Sample>, s: Sample, genLength: nat,
                    cuda: bool, readings: nat -> Reading)
    ensures Tallied(model, samples + [s], genLength, cuda, readings)
         == Extended(Tallied(model, samples, genLength, cuda, readings), model, s, genLength, cuda, readings(s.index))
  {
  }

  /** The closing step: the scores' means, the total time over the REQUESTED
      sample count, and the memory average and maximum with their 0.0
      defaults. Zero requested samples is a division by zero. */
  function Summarize(tally: Tally, scores: Scores, meanItem: seq<real> -> real, numSamples: nat): Result<Report>
  {
    if numSamples == 0 then Err(DivisionByZero)
    else
      Ok(Report(meanItem(scores.precision), meanItem(scores.recall), meanItem(scores.f1),
                tally.totalInferenceTime / numSamples as real,
                MeanOrZero(tally.memoryUsages), MaxOrZero(tally.memoryUsages)))
  }

  /** The report fails exactly when no samples were requested; otherwise the
      average time times the requested count is the total time, whatever
      number of samples was actually used; the quality figures are the means
      of the scorer's outputs; and the memory figures are 0.0 when nothing was
      recorded, else a true average and a true maximum, the average never
      above the maximum. */
  lemma SummarizeReports(tally: Tally, scores: Scores, meanItem: seq<real> -> real, numSamples: nat)
    ensures var r := Summarize(tally, scores, meanItem, numSamples);
      (r.Err? <==> numSamples == 0) &&
      (r.Err? ==> r.error == DivisionByZero) &&
      (r.Ok? ==>
        r.value.precision == meanItem(scores.precision) &&
        r.value.recall == meanItem(scores.recall) &&
        r.value.f1 == meanItem(scores.f1) &&
        r.value.avgInferenceTime * numSamples as real == tally.totalInferenceTime) &&
      (r.Ok? && tally.memoryUsages == [] ==>
        r.value.avgMemoryUsageMB == 0.0 && r.value.maxMemoryUsageMB == 0.0) &&
      (r.Ok? && tally.memoryUsages != [] ==>
        r.value.avgMemoryUsageMB * |tally.memoryUsages| as real == Sum(tally.memoryUsages) &&
        r.value.maxMemoryUsageMB in tally.memoryUsages &&
        (forall k :: 0 <= k < |tally.memoryUsages| ==> tally.memoryUsages[k] <= r.value.maxMemoryUsageMB) &&
        r.value.avgMemoryUsageMB <= r.value.maxMemoryUsageMB)
  {
    MeanAtMostMax(tally.memoryUsages);
  }

  /** What the sample loop ends with. The first failure in loop order wins:
      on a non-CUDA device the first used record fails at the peak reset,
      which comes before any index past the end; otherwise reading past the
      end fails; otherwise every used record has been generated and timed. */
  function Collected(model: (string, nat) -> string, dataset: seq<string>, numSamples: nat,
                     promptLength: nat, genLength: nat, cuda: bool, readings: nat -> Reading): Result<Tally>
  {
    var samples := Select(Inspected(dataset, numSamples), promptLength, genLength);
    if !cuda && samples != [] then Err(DeviceRejected(samples[0].index))
    else if numSamples > |dataset| then Err(IndexOutOfRange(|dataset|))
    else Ok(Tallied(model, samples, genLength, cuda, readings))
  }

  /** What one whole run yields: a loop failure propagates; otherwise the
      scorer sees the full lists and the summary is taken. */
  function Evaluation(model: (string, nat) -> string, scorer: (seq<string>, seq<string>) -> Scores,
                      meanItem: seq<real> -> real, dataset: seq<string>, numSamples: nat,
                      promptLength: nat, genLength: nat, cuda: bool, readings: nat -> Reading): Result<Report>
  {
    match Collected(model, dataset, numSamples, promptLength, genLength, cuda, readings)
    case Err(e) => Err(e)
    case Ok(tally) => Summarize(tally, scorer(tally.predictions, tally.references), meanItem, numSamples)
  }

  /** A loop that reads past the end of the corpus fails there, unless a
      non-CUDA device has already rejected a used record. */
  lemma CollectedIndexError(model: (string, nat) -> string, dataset: seq<string>, numSamples: nat,
                            promptLength: nat, genLength: nat, cuda: bool, readings: nat -> Reading)
    requires |dataset| < numSamples
    requires !cuda ==> Select(dataset, promptLength, genLength) == []
    ensures Inspected(dataset, numSamples) == dataset
    ensures Collected(model, dataset, numSamples, promptLength, genLength, cuda, readings)
         == Err(IndexOutOfRange(|dataset|))
  {
  }

  /** A loop that completes holds one prediction per reference, at most
      `numSamples` of each, and on a CUDA device one memory delta per
      prediction, none otherwise. */
  lemma CollectedLengths(model: (string, nat) -> string, dataset: seq<string>, numSamples: nat,
                         promptLength: nat, genLength: nat, cuda: bool, readings: nat -> Reading)
    requires Collected(model, dataset, numSamples, promptLength, genLength, cuda, readings).Ok?
    ensures var t := Collected(model, dataset, numSamples, promptLength, genLength, cuda, readings).value;
      |t.predictions| == |t.references| <= numSamples &&
      (cuda ==> |t.memoryUsages| == |t.predictions|) &&
      (!cuda ==> t.memoryUsages == [])
  {
    var records := Inspected(dataset, numSamples);
    var samples := Select(records, promptLength, genLength);
    SelectBound(records, promptLength, genLength);
    TalliedClosedForm(model, samples, genLength, cuda, readings);
  }

  /** On a non-CUDA device the loop fails at the first used record. */
  lemma CollectedDeviceRejected(model: (string, nat) -> string, dataset: seq<string>, numSamples: nat,
                                promptLength: nat, genLength: nat, readings: nat -> Reading, i: nat)
    requires i < numSamples && i < |dataset|
    requires LongEnough(dataset[i], promptLength, genLength)
    requires Select(dataset[..i], promptLength, genLength) == []
    ensures Select(Inspected(dataset, numSamples), promptLength, genLength) != []
    ensures Collected(model, dataset, numSamples, promptLength, genLength, false, readings)
         == Err(DeviceRejected(i))
  {
    var records := Inspected(dataset, numSamples);
    var first := Cut(dataset[i], i, promptLength, genLength);
    SelectStep(dataset, i, promptLength, genLength);
    assert Select(dataset[..i + 1], promptLength, genLength) == first;
    assert records[..i + 1] == dataset[..i + 1];
    SelectPrefix(records, i + 1, promptLength, genLength);
    assert Select(records, promptLength, genLength)[..1] == first;
  }

  /** A run whose every requested record exists, and which is on a CUDA
      device or uses no record, reports: the quality figures are the means of
      the scorer's outputs on the predictions and references of the selected
      samples, and the average time is the sum of the used samples' times
      over the REQUESTED count, however many records were skipped. */
  lemma EvaluationReport(model: (string, nat) -> string, scorer: (seq<string>, seq<string>) -> Scores,
                         meanItem: seq<real> -> real, dataset: seq<string>, numSamples: nat,
                         promptLength: nat, genLength: nat, cuda: bool, readings: nat -> Reading)
    requires 0 < numSamples <= |dataset|
    requires cuda || forall i :: 0 <= i < numSamples ==> !LongEnough(dataset[i], promptLength, genLength)
    ensures var samples := Select(dataset[..numSamples], promptLength, genLength);
      var scores := scorer(Predictions(model, samples, genLength), References(samples));
      var r := Evaluation(model, scorer, meanItem, dataset, numSamples, promptLength, genLength, cuda, readings);
      r.Ok? &&
      r.value.precision == meanItem(scores.precision) &&
      r.value.recall == meanItem(scores.recall) &&
      r.value.f1 == meanItem(scores.f1) &&
      r.value.avgInferenceTime == Sum(InferenceTimes(samples, readings)) / numSamples as real
  {
    EvaluationCompletes(model, scorer, meanItem, dataset, numSamples, promptLength, genLength, cuda, readings);
  }

  /** The memory figures of a run that reports: off CUDA no record is used;
      without samples both figures are 0.0; on CUDA with samples they are the
      average and the maximum of the per-sample deltas, the maximum is one of
      the deltas and at least every one of them, and the average is not above
      it. */
  lemma EvaluationMemory(model: (string, nat) -> string, scorer: (seq<string>, seq<string>) -> Scores,
                         meanItem: seq<real> -> real, dataset: seq<string>, numSamples: nat,
                         promptLength: nat, genLength: nat, cuda: bool, readings: nat -> Reading)
    requires 0 < numSamples <= |dataset|
    requires cuda || forall i :: 0 <= i < numSamples ==> !LongEnough(dataset[i], promptLength, genLength)
    ensures var samples := Select(dataset[..numSamples], promptLength, genLength);
      var r := Evaluation(model, scorer, meanItem, dataset, numSamples, promptLength, genLength, cuda, readings);
      r.Ok? &&
      (!cuda ==> samples == []) &&
      (samples == [] ==> r.value.avgMemoryUsageMB == 0.0 && r.value.maxMemoryUsageMB == 0.0) &&
      (cuda && samples != [] ==>
        r.value.avgMemoryUsageMB == MeanOrZero(MemoryUsages(samples, readings)) &&
        r.value.maxMemoryUsageMB in MemoryUsages(samples, readings) &&
        (forall k :: 0 <= k < |samples| ==> MemoryUsage(readings(samples[k].index)) <= r.value.maxMemoryUsageMB) &&
        r.value.avgMemoryUsageMB <= r.value.maxMemoryUsageMB)
  {
    var samples := Select(dataset[..numSamples], promptLength, genLength);
    var memory := if cuda then MemoryUsages(samples, readings) else [];
    var tally := Tally(Predictions(model, samples, genLength), References(samples),
                       Sum(InferenceTimes(samples, readings)), memory);
    EvaluationCompletes(model, scorer, meanItem, dataset, numSamples, promptLength, genLength, cuda, readings);
    SummarizeReports(tally, scorer(tally.predictions, tally.references), meanItem, numSamples);
    if cuda && samples != [] {
      forall k | 0 <= k < |samples|
        ensures MemoryUsage(readings(samples[k].index)) == memory[k]
      {
      }
    }
  }

  /** A run whose every requested record exists, and which is on a CUDA
      device or uses no record, summarizes the closed-form bookkeeping of the
      selected samples. */
  lemma EvaluationCompletes(model: (string, nat) -> string, scorer: (seq<string>, seq<string>) -> Scores,
                            meanItem: seq<real> -> real, dataset: seq<string>, numSamples: nat,
                            promptLength: nat, genLength: nat, cuda: bool, readings: nat -> Reading)
    requires numSamples <= |dataset|
    requires cuda || forall i :: 0 <= i < numSamples ==> !LongEnough(dataset[i], promptLength, genLength)
    ensures var samples := Select(dataset[..numSamples], promptLength, genLength);
      var tally := Tally(Predictions(model, samples, genLength), References(samples),
                         Sum(InferenceTimes(samples, readings)),
                         if cuda then MemoryUsages(samples, readings) else []);
      (!cuda ==> samples == []) &&
      Evaluation(model, scorer, meanItem, dataset, numSamples, promptLength, genLength, cuda, readings)
      == Summarize(tally, scorer(tally.predictions, tally.references), meanItem, numSamples)
  {
    var records := dataset[..numSamples];
    assert Inspected(dataset, numSamples) == records;
    if !cuda {
      assert forall i :: 0 <= i < |records| ==> records[i] == dataset[i];
      SelectNoneLong(records, promptLength, genLength);
    }
    TalliedClosedForm(model, Select(records, promptLength, genLength), genLength, cuda, readings);
  }

  /** A run reports exactly when at least one record was requested, every
      requested record exists, and the device is CUDA or none of the
      requested records is long enough to be used. Zero requested records
      fail at the final division. */
  lemma EvaluationSucceedsIff(model: (string, nat) -> string, scorer: (seq<string>, seq<string>) -> Scores,
                              meanItem: seq<real> -> real, dataset: seq<string>, numSamples: nat,
                              promptLength: nat, genLength: nat, cuda: bool, readings: nat -> Reading)
    ensures Evaluation(model, scorer, meanItem, dataset, numSamples, promptLength, genLength, cuda, readings).Ok?
        <==> 0 < numSamples <= |dataset| &&
             (cuda || forall i :: 0 <= i < numSamples ==> !LongEnough(dataset[i], promptLength, genLength))
    ensures numSamples == 0 ==>
      Evaluation(model, scorer, meanItem, dataset, numSamples, promptLength, genLength, cuda, readings)
      == Err(DivisionByZero)
  {
    if numSamples == 0 {
      assert Inspected(dataset, numSamples) == [];
    } else if numSamples <= |dataset| {
      if cuda || forall i :: 0 <= i < numSamples ==> !LongEnough(dataset[i], promptLength, genLength) {
        EvaluationReport(model, scorer, meanItem, dataset, numSamples, promptLength, genLength, cuda, readings);
      } else {
        var i :| 0 <= i < numSamples && LongEnough(dataset[i], promptLength, genLength);
        var records := dataset[..numSamples];
        assert Inspected(dataset, numSamples) == records;
        assert records[i] == dataset[i];
        SelectComplete(records, promptLength, genLength);
        assert Used(Select(records, promptLength, genLength), i);
      }
    }
  }

  /** Off CUDA, the run fails at the first requested record long enough to
      be used, naming that record. */
  lemma EvaluationDeviceRejected(model: (string, nat) -> string, scorer: (seq<string>, seq<string>) -> Scores,
                                 meanItem: seq<real> -> real, dataset: seq<string>, numSamples: nat,
                                 promptLength: nat, genLength: nat, readings: nat -> Reading, i: nat)
    requires i < numSamples && i < |dataset|
    requires LongEnough(dataset[i], promptLength, genLength)
    requires forall j :: 0 <= j < i ==> !LongEnough(dataset[j], promptLength, genLength)
    ensures Evaluation(model, scorer, meanItem, dataset, numSamples, promptLength, genLength, false, readings)
         == Err(DeviceRejected(i))
  {
    var before := dataset[..i];
    assert forall j :: 0 <= j < |before| ==> before[j] == dataset[j];
    SelectNoneLong(before, promptLength, genLength);
    CollectedDeviceRejected(model, dataset, numSamples, promptLength, genLength, readings, i);
  }

  /** Requesting more records than the corpus holds fails at the first
      missing slot, unless a non-CUDA device has rejected a record before. */
  lemma EvaluationIndexError(model: (string, nat) -> string, scorer: (seq<string>, seq<string>) -> Scores,
                             meanItem: seq<real> -> real, dataset: seq<string>, numSamples: nat,
                             promptLength: nat, genLength: nat, cuda: bool, readings: nat -> Reading)
    requires |dataset| < numSamples
    requires cuda || forall i :: 0 <= i < |dataset| ==> !LongEnough(dataset[i], promptLength, genLength)
    ensures Evaluation(model, scorer, meanItem, dataset, numSamples, promptLength, genLength, cuda, readings)
         == Err(IndexOutOfRange(|dataset|))
  {
    if !cuda {
      SelectNoneLong(dataset, promptLength, genLength);
    }
    CollectedIndexError(model, dataset, numSamples, promptLength, genLength, cuda, readings);
  }

  /** Where the sample loop ends and which prompts it handed to the model. */
  datatype Trace = Trace(outcome: Result<Tally>, prompts: seq<string>)

  /** The sample loop run from record slot `i` with bookkeeping `tally` and
      the prompts handed to the model so far: slots are taken in order; a
      slot past the end of the corpus fails; a short record is skipped; a
      used record fails on a non-CUDA device at the peak reset and otherwise
      is generated for and booked. */
  function RunFrom(model: (string, nat) -> string, dataset: seq<string>, numSamples: nat,
                   promptLength: nat, genLength: nat, cuda: bool, readings: nat -> Reading,
                   i: nat, tally: Tally, prompts: seq<string>): Trace
    decreases numSamples - i
  {
    if i >= numSamples then Trace(Ok(tally), prompts)
    else if i >= |dataset| then Trace(Err(IndexOutOfRange(i)), prompts)
    else if !LongEnough(dataset[i], promptLength, genLength) then
      RunFrom(model, dataset, numSamples, promptLength, genLength, cuda, readings, i + 1, tally, prompts)
    else if !cuda then Trace(Err(DeviceRejected(i)), prompts)
    else
      var s := Sample(i, dataset[i][..promptLength], dataset[i][promptLength..promptLength + genLength]);
      RunFrom(model, dataset, numSamples, promptLength, genLength, cuda, readings, i + 1,
              Extended(tally, model, s, genLength, cuda, readings(i)), prompts + [s.prompt])
  }

  /** The prompts handed to the model on a device, given the samples used. */
  function PromptsOn(cuda: bool, samples: seq<Sample>): seq<string>
  {
    if cuda then Prompts(samples) else []
  }

  /** Proof step for a used record on a CUDA device: the record's cut joins
      the selection, one `Extended` step joins the bookkeeping, and its
      prompt joins the prompts handed to the model. */
  lemma UsedStep(model: (string, nat) -> string, dataset: seq<string>, promptLength: nat, genLength: nat,
                 readings: nat -> Reading, i: nat)
    requires i < |dataset| && LongEnough(dataset[i], promptLength, genLength)
    ensures var selected := Select(dataset[..i], promptLength, genLength);
      var s := Sample(i, dataset[i][..promptLength], dataset[i][promptLength..promptLength + genLength]);
      Select(dataset[..i + 1], promptLength, genLength) == selected + [s] &&
      Tallied(model, selected + [s], genLength, true, readings)
        == Extended(Tallied(model, selected, genLength, true, readings), model, s, genLength, true, readings(i)) &&
      PromptsOn(true, selected + [s]) == PromptsOn(true, selected) + [s.prompt]
  {
    var selected := Select(dataset[..i], promptLength, genLength);
    var s := Sample(i, dataset[i][..promptLength], dataset[i][promptLength..promptLength + genLength]);
    SelectStep(dataset, i, promptLength, genLength);
    TalliedStep(model, selected, s, genLength, true, readings);
    assert Prompts(selected + [s]) == Prompts(selected) + [s.prompt];
  }

  /** Once the first `i` slots have been handled without failure, the rest of
      the loop ends where `Collected` says and hands the model exactly the
      prompts of the selected samples (none on a non-CUDA device). */
  lemma {:induction false} RunFromMatches(model: (string, nat) -> string, dataset: seq<string>, numSamples: nat,
                                          promptLength: nat, genLength: nat, cuda: bool, readings: nat -> Reading,
                                          i: nat)
    requires i <= numSamples && i <= |dataset|
    requires !cuda ==> Select(dataset[..i], promptLength, genLength) == []
    ensures var selected := Select(dataset[..i], promptLength, genLength);
      RunFrom(model, dataset, numSamples, promptLength, genLength, cuda, readings, i,
              Tallied(model, selected, genLength, cuda, readings), PromptsOn(cuda, selected))
      == Trace(Collected(model, dataset, numSamples, promptLength, genLength, cuda, readings),
               PromptsOn(cuda, Select(Inspected(dataset, numSamples), promptLength, genLength)))
    decreases numSamples - i
  {
    var selected := Select(dataset[..i], promptLength, genLength);
    if i == numSamples {
      assert Inspected(dataset, numSamples) == dataset[..i];
    } else if i == |dataset| {
      assert dataset[..i] == dataset;
      CollectedIndexError(model, dataset, numSamples, promptLength, genLength, cuda, readings);
    } else if !LongEnough(dataset[i], promptLength, genLength) {
      SelectStep(dataset, i, promptLength, genLength);
      assert Select(dataset[..i + 1], promptLength, genLength) == selected;
      RunFromMatches(model, dataset, numSamples, promptLength, genLength, cuda, readings, i + 1);
    } else if !cuda {
      CollectedDeviceRejected(model, dataset, numSamples, promptLength, genLength, readings, i);
    } else {
      UsedStep(model, dataset, promptLength, genLength, readings, i);
      RunFromMatches(model, dataset, numSamples, promptLength, genLength, cuda, readings, i + 1);
    }
  }

  /** The loop from the start ends where `Collected` says and hands the model
      exactly the prompts of the selected samples, in record order. */
  lemma RunMatches(model: (string, nat) -> string, dataset: seq<string>, numSamples: nat,
                   promptLength: nat, genLength: nat, cuda: bool, readings: nat -> Reading)
    ensures RunFrom(model, dataset, numSamples, promptLength, genLength, cuda, readings, 0, Tally([], [], 0.0, []), [])
      == Trace(Collected(model, dataset, numSamples, promptLength, genLength, cuda, readings),
               PromptsOn(cuda, Select(Inspected(dataset, numSamples), promptLength, genLength)))
  {
    assert dataset[..0] == [];
    RunFromMatches(model, dataset, numSamples, promptLength, genLength, cuda, readings, 0);
  }

  /** The sample loop of the evaluation, over record slots 0 .. numSamples-1,
      with the script's own running lists. `generateCalls` logs the prompt of
      each call of the model, whose length cap is always `genLength`. */
  method RunSamples(model: (string, nat) -> string, dataset: seq<string>, numSamples: nat,
                    promptLength: nat, genLength: nat, cuda: bool, readings: nat -> Reading)
    returns (outcome: Result<Tally>, ghost generateCalls: seq<string>)
    ensures outcome
         == RunFrom(model, dataset, numSamples, promptLength, genLength, cuda, readings, 0, Tally([], [], 0.0, []), []).outcome
    ensures generateCalls
         == RunFrom(model, dataset, numSamples, promptLength, genLength, cuda, readings, 0, Tally([], [], 0.0, []), []).prompts
  {
    var predictions: seq<string> := [];
    var references: seq<string> := [];
    var totalInferenceTime := 0.0;
    var memoryUsages: seq<real> := [];
    generateCalls := [];

    var i := 0;
    while i < numSamples
      invariant i <= numSamples
      invariant RunFrom(model, dataset, numSamples, promptLength, genLength, cuda, readings, i,
                        Tally(predictions, references, totalInferenceTime, memoryUsages), generateCalls)
             == RunFrom(model, dataset, numSamples, promptLength, genLength, cuda, readings, 0, Tally([], [], 0.0, []), [])
    {
      // The counter reset and the baseline come before the length check,
      // so they are taken for skipped records too.
      var initialMemory := 0.0;
      if cuda {
        initialMemory := Megabytes(readings(i).allocatedBytes);
      }

      if i >= |dataset| {
        outcome := Err(IndexOutOfRange(i));
        return;
      }
      var text := dataset[i];
      if |text| < promptLength + genLength {
        i := i + 1;
        continue;
      }

      var prompt := text[..promptLength];
      var reference := text[promptLength..promptLength + genLength];

      // The second peak reset is not guarded by the device test.
      if !cuda {
        outcome := Err(DeviceRejected(i));
        return;
      }

      var startTime := readings(i).startClock;
      var prediction := model(prompt, genLength);
      generateCalls := generateCalls + [prompt];
      var inferenceTime := readings(i).endClock - startTime;
      totalInferenceTime := totalInferenceTime + inferenceTime;

      var memoryUsage := 0.0;
      if cuda {
        memoryUsage := Megabytes(readings(i).peakAllocatedBytes) - initialMemory;
      }
      predictions := predictions + [prediction];
      references := references + [reference];
      if cuda {
        memoryUsages := memoryUsages + [memoryUsage];
      }
      i := i + 1;
    }
    outcome := Ok(Tally(predictions, references, totalInferenceTime, memoryUsages));
  }

  /** The whole evaluation: the sample loop, then one call of the scorer on
      the collected lists and the summary. A failure of the loop propagates
      and the scorer is not called. `generateCalls` logs the prompt of each
      call of the model; `scorerCalls` logs each call of the scorer with the
      lists it was given. */
  method EvaluateBERTScore(model: (string, nat) -> string, scorer: (seq<string>, seq<string>) -> Scores,
                           meanItem: seq<real> -> real, dataset: seq<string>, numSamples: nat,
                           promptLength: nat, genLength: nat, cuda: bool, readings: nat -> Reading)
    returns (result: Result<Report>, ghost generateCalls: seq<string>,
             ghost scorerCalls: seq<(seq<string>, seq<string>)>)
    ensures result == Evaluation(model, scorer, meanItem, dataset, numSamples, promptLength, genLength, cuda, readings)
    ensures generateCalls == PromptsOn(cuda, Select(Inspected(dataset, numSamples), promptLength, genLength))
    ensures var collected := Collected(model, dataset, numSamples, promptLength, genLength, cuda, readings);
      scorerCalls == if collected.Ok? then [(collected.value.predictions, collected.value.references)] else []
  {
    var outcome;
    outcome, generateCalls := RunSamples(model, dataset, numSamples, promptLength, genLength, cuda, readings);
    RunMatches(model, dataset, numSamples, promptLength, genLength, cuda, readings);
    if outcome.Err? {
      result, scorerCalls := Err(outcome.error), [];
      return;
    }
    var tally := outcome.value;
    var scores := scorer(tally.predictions, tally.references);
    scorerCalls := [(tally.predictions, tally.references)];
    result := Summarize(tally, scores, meanItem, numSamples);
  }
}
