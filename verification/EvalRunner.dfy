/** EvalRunner.run and EvalReport.to_dict of eval/vox_eval/runner.py. */
module EvalRunner {
  import opened Api
  import opened Metrics
  import opened Normalization

  /** A dataset sample with what the transcription call does: a text, a VoxError, or another exception. */
  datatype Transcription =
    | Text(text: string, elapsed: real)
    | VoxError(code: string, message: string, requestID: string)
    | OtherError(message: string)

  datatype Job = Job(id: string, truth: string, result: Transcription)

  datatype ErrorEntry = ErrorEntry(id: string, code: string, message: string, requestID: string)

  /** What becomes of one sample: a metric, or an entry in the error list. */
  datatype Verdict = Metric(sample: Sample) | Error(entry: ErrorEntry)

  const JIWER_ERROR := "one or more references are empty strings"

  function Judge(job: Job, norm: string -> string): Verdict {
    match job.result
    case VoxError(code, message, rid) => Error(ErrorEntry(job.id, code, message, rid))
    case OtherError(message) => Error(ErrorEntry(job.id, "client_error", message, "unknown"))
    case Text(text, elapsed) =>
      match ComputeWer(job.truth, text, norm)
      case None => Error(ErrorEntry(job.id, "client_error", JIWER_ERROR, "unknown"))
      case Some(m) => Metric(Sample(job.id, job.truth, text, m, elapsed))
  }

  function Samples(jobs: seq<Job>, norm: string -> string): seq<Sample> {
    if jobs == [] then []
    else
      var v := Judge(jobs[|jobs| - 1], norm);
      Samples(jobs[..|jobs| - 1], norm) + if v.Metric? then [v.sample] else []
  }

  function ErrorList(jobs: seq<Job>, norm: string -> string): seq<ErrorEntry> {
    if jobs == [] then []
    else
      var v := Judge(jobs[|jobs| - 1], norm);
      ErrorList(jobs[..|jobs| - 1], norm) + if v.Error? then [v.entry] else []
  }

  datatype EvalReport = EvalReport(metrics: Aggregate, errors: seq<ErrorEntry>, passed: bool, threshold: real)

  /** All samples failed (RuntimeError), aggregation raised (ValueError), or a report. */
  datatype RunOutcome = AllFailed | Raised | Finished(report: EvalReport)

  /** The run as a whole: the gate is the unrounded corpus WER against the threshold. */
  function Outcome(jobs: seq<Job>, threshold: real, norm: string -> string): RunOutcome {
    var samples := Samples(jobs, norm);
    if samples == [] then AllFailed
    else
      match AggregateOf(samples, norm)
      case None => Raised
      case Some(a) => Finished(EvalReport(a, ErrorList(jobs, norm), a.corpusWer <= threshold, threshold))
  }

  lemma OneMore(jobs: seq<Job>, i: nat, norm: string -> string)
    requires i < |jobs|
    ensures var v := Judge(jobs[i], norm);
      && Samples(jobs[..i + 1], norm) == Samples(jobs[..i], norm) + (if v.Metric? then [v.sample] else [])
      && ErrorList(jobs[..i + 1], norm) == ErrorList(jobs[..i], norm) + (if v.Error? then [v.entry] else [])
  {
    assert jobs[..i + 1][..i] == jobs[..i];
  }

  method Run(jobs: seq<Job>, threshold: real, norm: string -> string) returns (outcome: RunOutcome)
    ensures outcome == Outcome(jobs, threshold, norm)
  {
    var samples: seq<Sample>, errors: seq<ErrorEntry> := [], [];
    for i := 0 to |jobs|
      invariant samples == Samples(jobs[..i], norm) && errors == ErrorList(jobs[..i], norm)
    {
      OneMore(jobs, i, norm);
      match jobs[i].result {
        case Text(text, elapsed) =>
          var measure := ComputeWer(jobs[i].truth, text, norm);
          if measure.None? {
            errors := errors + [ErrorEntry(jobs[i].id, "client_error", JIWER_ERROR, "unknown")];
          } else {
            samples := samples + [Sample(jobs[i].id, jobs[i].truth, text, measure.value, elapsed)];
          }
        case VoxError(code, message, rid) =>
          errors := errors + [ErrorEntry(jobs[i].id, code, message, rid)];
        case OtherError(message) =>
          errors := errors + [ErrorEntry(jobs[i].id, "client_error", message, "unknown")];
      }
    }
    assert jobs[..|jobs|] == jobs;
    if samples == [] {
      return AllFailed;
    }
    var metrics := AggregateOf(samples, norm);
    if metrics.None? {
      return Raised;
    }
    var passed := metrics.value.corpusWer <= threshold;
    return Finished(EvalReport(metrics.value, errors, passed, threshold));
  }

  /** Every sample is measured or listed as an error, exactly once, and what aggregation sees is what compute_wer gave. */
  lemma {:induction false} EverySampleCounts(jobs: seq<Job>, norm: string -> string)
    ensures |Samples(jobs, norm)| + |ErrorList(jobs, norm)| == |jobs|
    ensures Measured(Samples(jobs, norm), norm)
  {
    if jobs != [] {
      EverySampleCounts(jobs[..|jobs| - 1], norm);
    }
  }

  lemma {:induction false} JobsConcat(jobs: seq<Job>, more: seq<Job>, norm: string -> string)
    ensures Samples(jobs + more, norm) == Samples(jobs, norm) + Samples(more, norm)
    ensures ErrorList(jobs + more, norm) == ErrorList(jobs, norm) + ErrorList(more, norm)
  {
    if more == [] {
      assert jobs + more == jobs;
    } else {
      var n := |more| - 1;
      assert (jobs + more)[..|jobs + more| - 1] == jobs + more[..n];
      JobsConcat(jobs, more[..n], norm);
    }
  }

  /** What one job adds to samples and errors, by what its transcription did. */
  predicate Adds(job: Job, samples: seq<Sample>, errors: seq<ErrorEntry>, norm: string -> string) {
    match job.result
    case VoxError(code, message, rid) => samples == [] && errors == [ErrorEntry(job.id, code, message, rid)]
    case OtherError(message) => samples == [] && errors == [ErrorEntry(job.id, "client_error", message, "unknown")]
    case Text(text, elapsed) =>
      if norm(job.truth) == "" && !Blank(job.truth) && !Blank(text) then
        |errors| == 1 && errors[0].id == job.id && errors[0].code == "client_error" && errors[0].requestID == "unknown"
        && samples == []
      else
        |samples| == 1 && samples[0].id == job.id && samples[0].truth == job.truth && samples[0].prediction == text
        && samples[0].time == elapsed && Some(samples[0].measure) == ComputeWer(job.truth, text, norm) && errors == []
  }

  /** Samples and errors are those of the jobs one after the other, each in the order of the dataset. */
  lemma JobsTell(before: seq<Job>, job: Job, after: seq<Job>, norm: string -> string)
    requires Normalizer(norm)
    ensures var jobs := before + [job] + after;
      && Samples(jobs, norm) == Samples(before, norm) + Samples([job], norm) + Samples(after, norm)
      && ErrorList(jobs, norm) == ErrorList(before, norm) + ErrorList([job], norm) + ErrorList(after, norm)
      && Adds(job, Samples([job], norm), ErrorList([job], norm), norm)
  {
    JobsConcat(before + [job], after, norm);
    JobsConcat(before, [job], norm);
    OneJob(job, norm);
  }

  lemma OneJob(job: Job, norm: string -> string)
    requires Normalizer(norm)
    ensures Adds(job, Samples([job], norm), ErrorList([job], norm), norm)
  {
    var v := Judge(job, norm);
    assert [job][..0] == [];
    assert Samples([job], norm) == if v.Metric? then [v.sample] else [];
    assert ErrorList([job], norm) == if v.Error? then [v.entry] else [];
    assert Words("") == [];
  }

  // ----- How a run can end

  /** A sample that was transcribed, and whose reference normalises to nothing without being compared: its truth or its
      prediction is blank. */
  predicate Poisons(job: Job, norm: string -> string) {
    job.result.Text? && RefWords(job.truth, norm) == [] && (Blank(job.truth) || Blank(job.result.text))
  }

  lemma JudgeMeasures(job: Job, norm: string -> string)
    ensures Judge(job, norm).Metric? <==>
            job.result.Text? && (RefWords(job.truth, norm) != [] || Blank(job.truth) || Blank(job.result.text))
    ensures Judge(job, norm).Metric? && !HasWords(Judge(job, norm).sample, norm) <==> Poisons(job, norm)
  {
  }

  predicate NoPoison(jobs: seq<Job>, norm: string -> string) {
    forall job :: job in jobs ==> !Poisons(job, norm)
  }

  lemma {:induction false} MeasuredPoison(jobs: seq<Job>, norm: string -> string)
    ensures AllHaveWords(Samples(jobs, norm), norm) <==> NoPoison(jobs, norm)
  {
    if jobs != [] {
      var n := |jobs| - 1;
      MeasuredPoison(jobs[..n], norm);
      LastPoison(jobs, norm);
      LastSample(Samples(jobs[..n], norm), jobs[n], norm);
    }
  }

  lemma LastPoison(jobs: seq<Job>, norm: string -> string)
    requires jobs != []
    ensures var n := |jobs| - 1; NoPoison(jobs, norm) <==> NoPoison(jobs[..n], norm) && !Poisons(jobs[n], norm)
  {
    assert forall job :: job in jobs <==> job in jobs[..|jobs| - 1] || job == jobs[|jobs| - 1];
  }

  lemma LastSample(samples: seq<Sample>, job: Job, norm: string -> string)
    ensures var v := Judge(job, norm);
      AllHaveWords(samples + if v.Metric? then [v.sample] else [], norm) <==>
      AllHaveWords(samples, norm) && !Poisons(job, norm)
  {
    var v := Judge(job, norm);
    JudgeMeasures(job, norm);
    if v.Metric? {
      LastHasWords(samples, v.sample, norm);
    } else {
      assert samples + [] == samples;
    }
  }

  lemma LastHasWords(samples: seq<Sample>, last: Sample, norm: string -> string)
    ensures AllHaveWords(samples + [last], norm) <==> AllHaveWords(samples, norm) && HasWords(last, norm)
  {
    assert (samples + [last])[|samples|] == last;
    assert forall i :: 0 <= i < |samples| ==> (samples + [last])[i] == samples[i];
  }

  lemma {:induction false} NoneMeasured(jobs: seq<Job>, norm: string -> string)
    ensures Samples(jobs, norm) == [] <==> forall job :: job in jobs ==> Judge(job, norm).Error?
  {
    if jobs != [] {
      var n := |jobs| - 1;
      NoneMeasured(jobs[..n], norm);
      assert forall job :: job in jobs <==> job in jobs[..n] || job == jobs[n];
    }
  }

  /** A run has no result at all exactly when every sample is an error, raises exactly when some transcribed sample has a
      reference that normalises to nothing and a blank truth or prediction, and finishes otherwise. */
  lemma RunEnds(jobs: seq<Job>, threshold: real, norm: string -> string)
    ensures var outcome := Outcome(jobs, threshold, norm);
      && (outcome.AllFailed? <==> forall job :: job in jobs ==> Judge(job, norm).Error?)
      && (outcome.Raised? <==> exists job :: job in jobs && Poisons(job, norm))
      && (outcome.Finished? <==>
            (exists job :: job in jobs && Judge(job, norm).Metric?) && forall job :: job in jobs ==> !Poisons(job, norm))
  {
    NoneMeasured(jobs, norm);
    MeasuredPoison(jobs, norm);
    forall job | job in jobs && Poisons(job, norm) ensures Judge(job, norm).Metric? {
      JudgeMeasures(job, norm);
    }
  }

  /** A dataset holds no blank references; then a run raises exactly when some transcription is blank and its reference
      normalises to nothing, as one of punctuation alone does. */
  lemma LoadedRunRaises(jobs: seq<Job>, threshold: real, norm: string -> string)
    requires forall job :: job in jobs ==> !Blank(job.truth)
    ensures Outcome(jobs, threshold, norm).Raised? <==>
            exists job :: job in jobs && job.result.Text? && Blank(job.result.text) && RefWords(job.truth, norm) == []
  {
    RunEnds(jobs, threshold, norm);
    if job :| job in jobs && job.result.Text? && Blank(job.result.text) && RefWords(job.truth, norm) == [] {
      assert Poisons(job, norm);
    }
  }

  /** Such inputs: a reference of punctuation alone, where nothing was heard; one is enough to lose the report of all. */
  lemma PunctuationRaises(
    others: seq<Job>, job: Job, threshold: real, norm: string -> string, lower: string -> string, fixed: char -> bool)
    requires Lowercasing(lower, fixed) && norm(job.truth) == Normalize(job.truth, lower)
    requires job.truth != "" && AllPunctuation(job.truth) && job.result.Text? && Blank(job.result.text)
    ensures !Blank(job.truth) && Outcome(others + [job], threshold, norm).Raised?
  {
    assert norm(job.truth) == "" && !Blank(job.truth) by {
      PunctuationVanishes(job.truth, lower, fixed);
    }
    NothingPoisons(job, norm);
    PoisonRaises(others, job, threshold, norm);
  }

  lemma NothingPoisons(job: Job, norm: string -> string)
    requires norm(job.truth) == "" && job.result.Text? && Blank(job.result.text)
    ensures Poisons(job, norm)
  {
    assert Words("") == [];
  }

  lemma PoisonRaises(others: seq<Job>, job: Job, threshold: real, norm: string -> string)
    requires Poisons(job, norm)
    ensures Outcome(others + [job], threshold, norm).Raised?
  {
    assert (others + [job])[|others|] == job;
    RunEnds(others + [job], threshold, norm);
  }

  lemma DotRaises(threshold: real)
    ensures Outcome([Job("s", ".", Text("", 1.0))], threshold, s => Normalize(s, AsciiLower)).Raised?
  {
    var job, norm := Job("s", ".", Text("", 1.0)), s => Normalize(s, AsciiLower);
    AsciiLowercases();
    TrimOneSpace();
    assert PUNCTUATION[13] == '.';
    PunctuationRaises([], job, threshold, norm, AsciiLower, NotCapital);
    assert [] + [job] == [job];
  }

  // ----- The report as JSON

  /** round(x, 4), ties to even. */
  function Round4(x: real): real {
    var n := (x * 10000.0).Floor;
    var rest := x * 10000.0 - n as real;
    (if rest < 0.5 || (rest == 0.5 && n % 2 == 0) then n else n + 1) as real / 10000.0
  }

  /** Rounding gives a whole number of units of the fourth place, at most half a unit away, and an even one halfway. */
  lemma RoundingIsClose(x: real)
    ensures -0.00005 <= Round4(x) - x <= 0.00005
    ensures var n := (Round4(x) * 10000.0).Floor;
      Round4(x) == n as real / 10000.0 && (Round4(x) - x == 0.00005 || x - Round4(x) == 0.00005 ==> n % 2 == 0)
  {
    var y := x * 10000.0;
    var n := y.Floor;
    assert n as real <= y < n as real + 1.0;
    var m := if y - n as real < 0.5 || (y - n as real == 0.5 && n % 2 == 0) then n else n + 1;
    assert Round4(x) == m as real / 10000.0 && Round4(x) * 10000.0 == m as real;
  }

  /** The fields of to_dict that decide anything downstream. */
  datatype Dict = Dict(passed: bool, threshold: real, corpusWer: real, meanWer: real, totalSamples: int)

  function ToDict(r: EvalReport): Dict {
    Dict(r.passed, r.threshold, Round4(r.metrics.corpusWer), Round4(r.metrics.meanWer), r.metrics.totalSamples)
  }

  /** The verdict is about the unrounded WER. A passing report shows at most the threshold plus half a unit of the last
      place, and a failing one may show a WER that equals the threshold. */
  lemma VerdictIsUnrounded(jobs: seq<Job>, threshold: real, norm: string -> string)
    requires Outcome(jobs, threshold, norm).Finished?
    ensures var r := Outcome(jobs, threshold, norm).report;
      && (ToDict(r).passed <==> r.metrics.corpusWer <= threshold)
      && (ToDict(r).passed ==> ToDict(r).corpusWer <= threshold + 0.00005)
      && (!ToDict(r).passed ==> ToDict(r).corpusWer > threshold - 0.00005)
  {
    RoundingIsClose(Outcome(jobs, threshold, norm).report.metrics.corpusWer);
  }

  /** With an honest normalisation, a finished run's corpus WER lies between the WERs of its best and worst sample. */
  lemma FinishedRunIsBounded(jobs: seq<Job>, threshold: real, norm: string -> string)
    requires Normalizer(norm) && Outcome(jobs, threshold, norm).Finished?
    ensures var m := Outcome(jobs, threshold, norm).report.metrics;
      m.minWer <= m.corpusWer <= m.maxWer && m.totalSamples == |Samples(jobs, norm)|
  {
    EverySampleCounts(jobs, norm);
    CorpusWerIsWeightedMean(Samples(jobs, norm), norm);
  }
}
