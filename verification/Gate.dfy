/** The gate across both programs: an EvalRun that Succeeded was measured by the runner at or below its threshold. */
module Gate {
  import opened Api
  import ER = EvalRunner
  import opened EvalRunController
  import opened EvalRuns
  import opened Submissions

  /** What the controller reads from the runner's JSON. */
  function ReadBack(d: ER.Dict): Report {
    Report(d.passed, d.corpusWer, d.meanWer, d.totalSamples)
  }

  /** The report r was written by the runner, for some dataset, with the threshold it was started with. */
  ghost predicate FromRunner(parse: string -> real, norm: string -> string, spec: WorkflowSpec, r: Report) {
    exists jobs :: FromJobs(parse, norm, spec, r, jobs)
  }

  predicate FromJobs(parse: string -> real, norm: string -> string, spec: WorkflowSpec, r: Report, jobs: seq<ER.Job>) {
    var outcome := ER.Outcome(jobs, parse(ThresholdArg(spec)), norm);
    outcome.Finished? && r == ReadBack(ER.ToDict(outcome.report))
  }

  ghost predicate Genuine(parse: string -> real, norm: string -> string, wf: Workflow) {
    ReportOf(wf).Some? ==> FromRunner(parse, norm, wf.spec, ReportOf(wf).value)
  }

  /** Argo reports what the container wrote: whenever it sets outputs, a report among them is the runner's. */
  ghost predicate GenuineRun(parse: string -> real, norm: string -> string, steps: seq<Step>) {
    steps == [] ||
    var before, last := steps[..|steps| - 1], steps[|steps| - 1];
      && GenuineRun(parse, norm, before)
      && (last.Progress? && last.key in Execute(START, before).workflows ==>
            Genuine(parse, norm, Execute(START, steps).workflows[last.key]))
  }

  ghost predicate AllGenuine(parse: string -> real, norm: string -> string, s: State) {
    && (forall k :: k in s.workflows ==> Genuine(parse, norm, s.workflows[k]))
    && forall e :: e in s.seen ==> Genuine(parse, norm, e.1)
  }

  lemma {:induction false} GenuineStays(parse: string -> real, norm: string -> string, steps: seq<Step>)
    requires GenuineRun(parse, norm, steps)
    ensures AllGenuine(parse, norm, Execute(START, steps))
  {
    if steps != [] {
      var before, last := steps[..|steps| - 1], steps[|steps| - 1];
      GenuineStays(parse, norm, before);
      if CanStep(Execute(START, before), last) {
        GenuineStep(parse, norm, Execute(START, before), last);
      }
    }
  }

  lemma GenuineStep(parse: string -> real, norm: string -> string, s: State, step: Step)
    requires AllGenuine(parse, norm, s) && CanStep(s, step)
    requires step.Progress? ==> Genuine(parse, norm, Apply(s, step).workflows[step.key])
    ensures AllGenuine(parse, norm, Apply(s, step))
  {
    var t := Apply(s, step);
    forall k | k in t.workflows ensures Genuine(parse, norm, t.workflows[k]) {
      assert (k in s.workflows && t.workflows[k] == s.workflows[k]) || (step.Progress? && k == step.key)
             || t.workflows[k].outputs.None?;
    }
    if step.Look? {
      var wf := WorkflowFor(s.workflows, step.key, s.desks[step.key].run);
      assert wf.Some? ==> Genuine(parse, norm, wf.value);
    }
  }

  /** In every reachable state of the operator, phase Succeeded means that the runner measured an unrounded corpus WER of at
      most the threshold it was started with, that the persisted figure is that WER rounded, and that a reconcile of this
      very EvalRun read it. */
  lemma SucceededMeansWithinThreshold(parse: string -> real, norm: string -> string, steps: seq<Step>, k: Key)
    requires GenuineRun(parse, norm, steps)
    requires var s := Execute(START, steps); k in s.runs && s.runs[k].status.phase == RunSucceeded
    ensures var s := Execute(START, steps); s.runs[k].uid in s.submissions
    ensures var s := Execute(START, steps); var sub := s.submissions[s.runs[k].uid];
      exists e, jobs :: e in s.seen && e.0 == s.runs[k].uid
        && Within(parse, norm, e.1.spec, jobs, s.runs[k].status)
        && (ThresholdArg(e.1.spec) == Threshold(sub.spec) <==> OwnThreshold(sub))
  {
    GateIsSound(steps, k);
    var s := Execute(START, steps);
    var e :| e in s.seen && e.0 == s.runs[k].uid && Witness(s.runs[k].status, e.1);
    assert Genuine(parse, norm, e.1) by {
      GenuineStays(parse, norm, steps);
    }
    var jobs := WitnessIsWithin(parse, norm, e.1, s.runs[k].status);
    ThresholdAsSubmitted(steps, e);
  }

  predicate Measured(parse: string -> real, norm: string -> string, threshold: string, jobs: seq<ER.Job>) {
    var outcome := ER.Outcome(jobs, parse(threshold), norm);
    outcome.Finished? && outcome.report.metrics.corpusWer <= parse(threshold)
  }

  /** So, unless its submission found a leftover Workflow with another threshold, a Succeeded EvalRun was measured at or
      below the threshold that it was submitted with. */
  lemma SucceededMeansOwnThreshold(parse: string -> real, norm: string -> string, steps: seq<Step>, k: Key)
    requires GenuineRun(parse, norm, steps)
    requires var s := Execute(START, steps); k in s.runs && s.runs[k].status.phase == RunSucceeded
    ensures var s := Execute(START, steps); s.runs[k].uid in s.submissions
    ensures var s := Execute(START, steps); var sub := s.submissions[s.runs[k].uid];
      OwnThreshold(sub) ==> exists jobs :: Measured(parse, norm, Threshold(sub.spec), jobs)
  {
    SucceededMeansWithinThreshold(parse, norm, steps, k);
    var s := Execute(START, steps);
    var sub := s.submissions[s.runs[k].uid];
    var e, jobs :| e in s.seen && e.0 == s.runs[k].uid
      && Within(parse, norm, e.1.spec, jobs, s.runs[k].status)
      && (ThresholdArg(e.1.spec) == Threshold(sub.spec) <==> OwnThreshold(sub));
    if OwnThreshold(sub) {
      assert Measured(parse, norm, Threshold(sub.spec), jobs);
    }
  }

  lemma WitnessIsWithin(parse: string -> real, norm: string -> string, wf: Workflow, status: RunStatus)
    returns (jobs: seq<ER.Job>)
    requires Witness(status, wf) && Genuine(parse, norm, wf)
    ensures Within(parse, norm, wf.spec, jobs, status)
  {
    jobs :| FromJobs(parse, norm, wf.spec, ReportOf(wf).value, jobs);
  }

  predicate Within(
    parse: string -> real, norm: string -> string, spec: WorkflowSpec, jobs: seq<ER.Job>, status: RunStatus)
  {
    var threshold := parse(ThresholdArg(spec));
    var outcome := ER.Outcome(jobs, threshold, norm);
    && outcome.Finished?
    && outcome.report.metrics.corpusWer <= threshold
    && status.passed == Some(true)
    && status.corpusWER == Some(ER.Round4(outcome.report.metrics.corpusWer))
    && status.totalSamples == outcome.report.metrics.totalSamples
  }
}
