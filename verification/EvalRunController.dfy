/** operator/internal/controller/evalrun_controller.go: one reconcile of an EvalRun. */
module EvalRunController {
  import opened Api

  const REPORT_PARAM := "eval-report"
  const REPORT_PATH := "/tmp/outputs/report.json"

  /** The part of the runner's JSON report that the controller reads. */
  datatype Report = Report(passed: bool, corpusWER: real, meanWER: real, totalSamples: int)

  /** A parameter's value: absent or of another type, the empty string, text that is not the JSON of a report, or a report. */
  datatype ParamValue = NotText | EmptyText | Malformed | Json(report: Report)

  datatype Param = NotAMap | Param(name: Option<string>, value: ParamValue)

  /** The container, and the output parameter whose value Argo takes from a file of it. */
  datatype WorkflowSpec = WorkflowSpec(
    image: string, deadline: int, args: seq<string>, reportParam: string, reportPath: string)

  /** An Argo Workflow; `owner` is the uid of the EvalRun in its owner reference. */
  datatype Workflow = Workflow(owner: nat, spec: WorkflowSpec, phase: string, outputs: Option<seq<Param>>)

  datatype RunPhase = RunNoPhase | RunPending | RunRunning | RunSucceeded | RunFailed

  datatype Message =
    | NoMessage | SuspendedMessage | SubmittedMessage | GoneMessage
    | PhaseMessage(phase: string) | NoReportMessage(phase: string)
    | WithinMessage(wer: real) | ExceedsMessage(wer: real, threshold: string)

  datatype RunSpec = RunSpec(
    dataset: string, gatewayURL: string, model: string, image: string, werThreshold: string,
    timeoutSeconds: Option<int>, suspend: bool)

  datatype RunStatus = RunStatus(
    phase: RunPhase, workflowRef: string,
    corpusWER: Option<real>, meanWER: Option<real>, passed: Option<bool>, totalSamples: int,
    message: Message, startTime: Option<Time>, completionTime: Option<Time>)

  const FRESH_RUN_STATUS := RunStatus(RunNoPhase, "", None, None, None, 0, NoMessage, None, None)

  datatype EvalRun = EvalRun(spec: RunSpec, status: RunStatus, deleting: bool, uid: nat, version: nat)

  // ----- The pure parts

  predicate IsTerminalWorkflowPhase(phase: string) {
    phase == "Succeeded" || phase == "Failed" || phase == "Error"
  }

  function OrPending(phase: string): string {
    if phase == "" then "Pending" else phase
  }

  predicate Terminal(phase: RunPhase) {
    phase == RunSucceeded || phase == RunFailed
  }

  function Threshold(spec: RunSpec): string {
    if spec.werThreshold == "" then "0.3" else spec.werThreshold
  }

  /** What buildWorkflow makes of an EvalRun's spec. */
  function SpecFor(spec: RunSpec): WorkflowSpec {
    var args := ["run", spec.dataset, "--url", spec.gatewayURL, "--threshold", Threshold(spec),
                 "--report-path", REPORT_PATH]
                + if spec.model != "" then ["--model", spec.model] else [];
    WorkflowSpec(spec.image, spec.timeoutSeconds.GetOr(600), args, REPORT_PARAM, REPORT_PATH)
  }

  function BuildWorkflow(run: EvalRun): Workflow {
    Workflow(run.uid, SpecFor(run.spec), "", None)
  }

  predicate IsReportParam(p: Param) {
    p.Param? && p.name == Some(REPORT_PARAM)
  }

  function Held(p: Param): Option<Report> {
    if p.Param? && p.value.Json? then Some(p.value.report) else None
  }

  function ReportIn(params: seq<Param>): Option<Report> {
    if params == [] then None
    else if IsReportParam(params[0]) then Held(params[0])
    else ReportIn(params[1..])
  }

  function ReportOf(wf: Workflow): Option<Report> {
    if wf.outputs.None? then None else ReportIn(wf.outputs.value)
  }

  predicate FirstReportParam(params: seq<Param>, i: int) {
    0 <= i < |params| && IsReportParam(params[i]) && forall j :: 0 <= j < i ==> !IsReportParam(params[j])
  }

  /** The report is what the first eval-report parameter holds; later ones, even well-formed, are never looked at. */
  lemma {:induction false} ReportIsFirst(params: seq<Param>, i: int)
    requires FirstReportParam(params, i)
    ensures ReportIn(params) == Held(params[i])
  {
    if i > 0 {
      assert FirstReportParam(params[1..], i - 1);
      ReportIsFirst(params[1..], i - 1);
    }
  }

  lemma {:induction false} ReportNeedsParam(params: seq<Param>)
    requires forall j :: 0 <= j < |params| ==> !IsReportParam(params[j])
    ensures ReportIn(params) == None
  {
    if params != [] {
      ReportNeedsParam(params[1..]);
    }
  }

  /** setStatus, without the API call. */
  function Stamp(status: RunStatus, phase: RunPhase, ref: string, message: Message, now: Time): RunStatus {
    status.(phase := phase, workflowRef := ref, message := message,
            completionTime := if status.phase != phase && Terminal(phase) then Some(now) else status.completionTime)
  }

  function Submitted(status: RunStatus, name: string, now: Time): RunStatus {
    Stamp(status.(startTime := Some(now)), RunRunning, name, SubmittedMessage, now)
  }

  function Suspended(status: RunStatus, now: Time): RunStatus {
    Stamp(status, RunPending, status.workflowRef, SuspendedMessage, now)
  }

  /** reconcileWorkflow: the outcome of the Workflow projected into the status. */
  function Projected(run: EvalRun, wf: Option<Workflow>, now: Time): RunStatus {
    var status := run.status;
    match wf
    case None => Stamp(status, RunFailed, status.workflowRef, GoneMessage, now)
    case Some(w) =>
      if !IsTerminalWorkflowPhase(w.phase) then
        Stamp(status, RunRunning, status.workflowRef, PhaseMessage(OrPending(w.phase)), now)
      else
        match ReportOf(w)
        case None => Stamp(status, RunFailed, status.workflowRef, NoReportMessage(w.phase), now)
        case Some(r) =>
          var measured := status.(corpusWER := Some(r.corpusWER), meanWER := Some(r.meanWER),
                                  totalSamples := r.totalSamples, passed := Some(r.passed));
          Stamp(measured, if r.passed then RunSucceeded else RunFailed, status.workflowRef,
                if r.passed then WithinMessage(r.corpusWER) else ExceedsMessage(r.corpusWER, run.spec.werThreshold),
                now)
  }

  /** The Workflow has ended, and its first eval-report parameter holds the report r. */
  ghost predicate Reports(wf: Option<Workflow>, r: Report) {
    && wf.Some? && wf.value.phase in {"Succeeded", "Failed", "Error"} && wf.value.outputs.Some?
    && exists i :: FirstReportParam(wf.value.outputs.value, i) && wf.value.outputs.value[i].value == Json(r)
  }

  /** What counts is whether the Workflow is there, whether it has ended, and what its first report says; a failed Workflow
      with a passing report succeeds. Figures and verdict are those of the report, or stay. */
  lemma ProjectionMeans(run: EvalRun, wf: Option<Workflow>, now: Time)
    ensures var s := Projected(run, wf, now);
      && (s.phase == RunRunning <==> wf.Some? && wf.value.phase !in {"Succeeded", "Failed", "Error"})
      && (s.phase == RunSucceeded <==> exists r :: Reports(wf, r) && r.passed)
      && (s.phase == RunFailed <==> s.phase != RunRunning && s.phase != RunSucceeded)
      && (forall r :: Reports(wf, r) ==>
            s.corpusWER == Some(r.corpusWER) && s.meanWER == Some(r.meanWER) && s.passed == Some(r.passed)
            && s.totalSamples == r.totalSamples)
      && ((forall r :: !Reports(wf, r)) ==>
            s.corpusWER == run.status.corpusWER && s.meanWER == run.status.meanWER && s.passed == run.status.passed
            && s.totalSamples == run.status.totalSamples)
      && (wf.None? ==> s.message == GoneMessage)
      && (s.phase == RunRunning ==> s.message == PhaseMessage(if wf.value.phase == "" then "Pending" else wf.value.phase))
      && (forall r :: Reports(wf, r) ==>
            s.message == if r.passed then WithinMessage(r.corpusWER) else ExceedsMessage(r.corpusWER, run.spec.werThreshold))
      && (wf.Some? && s.phase == RunFailed && (forall r :: !Reports(wf, r)) ==> s.message == NoReportMessage(wf.value.phase))
      && s.workflowRef == run.status.workflowRef && s.startTime == run.status.startTime
      && s.completionTime ==
         (if s.phase in {RunSucceeded, RunFailed} && run.status.phase != s.phase then Some(now) else run.status.completionTime)
  {
    if wf.Some? && IsTerminalWorkflowPhase(wf.value.phase) && wf.value.outputs.Some? {
      ReportIsHeld(wf.value.outputs.value);
      var report := ReportIn(wf.value.outputs.value);
      assert report.Some? ==> Reports(wf, report.value);
      assert forall r :: Reports(wf, r) ==> report == Some(r);
    }
  }

  /** A suspended EvalRun waits with its Workflow's name and its figures as they are; a submission starts the clock. */
  lemma WaitingAndStarting(run: EvalRun, name: string, now: Time)
    ensures Suspended(run.status, now) == run.status.(phase := RunPending, message := SuspendedMessage)
    ensures Submitted(run.status, name, now) ==
            run.status.(phase := RunRunning, workflowRef := name, message := SubmittedMessage, startTime := Some(now))
  {
  }

  lemma ReportIsHeld(params: seq<Param>)
    ensures forall i :: FirstReportParam(params, i) ==> ReportIn(params) == Held(params[i])
    ensures ReportIn(params).Some? ==> exists i :: FirstReportParam(params, i) && params[i].value == Json(ReportIn(params).value)
  {
    forall i | FirstReportParam(params, i) ensures ReportIn(params) == Held(params[i]) {
      ReportIsFirst(params, i);
    }
    if ReportIn(params).Some? {
      var i := WhereHeld(params);
    }
  }

  lemma {:induction false} WhereHeld(params: seq<Param>) returns (i: int)
    requires ReportIn(params).Some?
    ensures FirstReportParam(params, i) && params[i].value == Json(ReportIn(params).value)
  {
    if IsReportParam(params[0]) {
      i := 0;
    } else {
      var j := WhereHeld(params[1..]);
      i := j + 1;
    }
  }

  function RunResult(phase: RunPhase): Result {
    if phase == RunRunning then RequeueAfter(10) else Done
  }

  /** A status update; one that changes nothing leaves the version alone. */
  function StoreStatus(runs: map<Key, EvalRun>, k: Key, status: RunStatus, version: nat): map<Key, EvalRun>
    requires k in runs
  {
    if runs[k].status == status then runs else runs[k := runs[k].(status := status, version := version)]
  }

  // ----- The controller code

  /** Finds the first eval-report parameter, whatever surrounds it, and gives up if that one does not hold a report. */
  method ExtractEvalReport(wf: Workflow) returns (report: Option<Report>)
    ensures report == ReportOf(wf)
  {
    if wf.outputs.None? {
      return None;
    }
    var params := wf.outputs.value;
    for i := 0 to |params|
      invariant forall j :: 0 <= j < i ==> !IsReportParam(params[j])
    {
      if params[i].NotAMap? {
        continue;
      }
      if params[i].name != Some(REPORT_PARAM) {
        continue;
      }
      ReportIsFirst(params, i);
      if !params[i].value.Json? {
        return None;
      }
      return Some(params[i].value.report);
    }
    ReportNeedsParam(params);
    return None;
  }

  /** The EvalRun as the reconciler holds it. */
  class RunObject {
    const key: Key
    const spec: RunSpec
    const uid: nat
    var status: RunStatus

    constructor (key: Key, run: EvalRun)
      ensures this.key == key && spec == run.spec && uid == run.uid && status == run.status
    {
      this.key, spec, uid, status := key, run.spec, run.uid, run.status;
    }
  }

  /** The API server that the reconciler talks to; `version` is the next resource version. */
  class Cluster {
    var runs: map<Key, EvalRun>
    var workflows: map<Key, Workflow>
    var version: nat

    constructor (runs: map<Key, EvalRun>, workflows: map<Key, Workflow>, version: nat)
      ensures this.runs == runs && this.workflows == workflows && this.version == version
    {
      this.runs, this.workflows, this.version := runs, workflows, version;
    }

    method SetStatus(o: RunObject, phase: RunPhase, ref: string, message: Message, now: Time, accepted: bool)
      returns (result: Result)
      requires o.key in runs
      modifies this`runs, o
      ensures o.status == Stamp(old(o.status), phase, ref, message, now)
      ensures runs == if accepted then StoreStatus(old(runs), o.key, o.status, version) else old(runs)
      ensures result == if accepted then RunResult(phase) else Failure
      ensures accepted ==> result == if phase == RunRunning then RequeueAfter(10) else Done
    {
      if o.status.phase != phase && (phase == RunSucceeded || phase == RunFailed) {
        o.status := o.status.(completionTime := Some(now));
      }
      o.status := o.status.(phase := phase);
      o.status := o.status.(workflowRef := ref);
      o.status := o.status.(message := message);
      if !accepted {
        return Failure;
      }
      runs := StoreStatus(runs, o.key, o.status, version);
      if phase == RunRunning {
        return RequeueAfter(10);
      }
      return Done;
    }

    /** A Workflow that already exists is taken over as it is. */
    method SubmitWorkflow(o: RunObject, now: Time, created: bool, accepted: bool) returns (result: Result)
      requires o.key in runs && runs[o.key].spec == o.spec && runs[o.key].uid == o.uid
      modifies this`runs, this`workflows, o
      ensures workflows ==
              if !created || o.key in old(workflows) then old(workflows)
              else old(workflows)[o.key := BuildWorkflow(old(runs)[o.key])]
      ensures runs ==
              if created && accepted then
                StoreStatus(old(runs), o.key, Submitted(old(o.status), o.key.name, now), version)
              else old(runs)
      ensures result == if created && accepted then RunResult(RunRunning) else Failure
    {
      if !created {
        return Failure;
      }
      if o.key !in workflows {
        workflows := workflows[o.key := BuildWorkflow(runs[o.key])];
      }
      o.status := o.status.(startTime := Some(now));
      result := SetStatus(o, RunRunning, o.key.name, SubmittedMessage, now, accepted);
    }

    /** `looked` says whether the Get of the Workflow worked; not finding it is an answer. */
    method ReconcileWorkflow(o: RunObject, now: Time, looked: bool, accepted: bool) returns (result: Result)
      requires o.key in runs && runs[o.key].spec == o.spec && runs[o.key].status == o.status
      modifies this`runs, o
      ensures var status := Projected(old(runs)[o.key], WorkflowFor(workflows, o.key, old(runs)[o.key]), now);
        && runs == (if looked && accepted then StoreStatus(old(runs), o.key, status, version) else old(runs))
        && result == if looked && accepted then RunResult(status.phase) else Failure
    {
      if !looked {
        return Failure;
      }
      var ref := o.status.workflowRef;
      if Key(o.key.ns, ref) !in workflows {
        result := SetStatus(o, RunFailed, ref, GoneMessage, now, accepted);
        return;
      }
      var wf := workflows[Key(o.key.ns, ref)];
      if !IsTerminalWorkflowPhase(wf.phase) {
        result := SetStatus(o, RunRunning, ref, PhaseMessage(OrPending(wf.phase)), now, accepted);
        return;
      }
      var report := ExtractEvalReport(wf);
      if report.None? {
        result := SetStatus(o, RunFailed, ref, NoReportMessage(wf.phase), now, accepted);
        return;
      }
      var phase, message := RunSucceeded, WithinMessage(report.value.corpusWER);
      if !report.value.passed {
        phase, message := RunFailed, ExceedsMessage(report.value.corpusWER, o.spec.werThreshold);
      }
      o.status := o.status.(corpusWER := Some(report.value.corpusWER));
      o.status := o.status.(meanWER := Some(report.value.meanWER));
      o.status := o.status.(totalSamples := report.value.totalSamples);
      o.status := o.status.(passed := Some(report.value.passed));
      result := SetStatus(o, phase, ref, message, now, accepted);
    }

    /** Reconcile: `fetched`, `reached` (the Create or Get of the Workflow) and `accepted` say which of its API calls
        succeed. */
    method Reconcile(k: Key, now: Time, fetched: bool, reached: bool, accepted: bool) returns (result: Result)
      modifies this
      ensures version == old(version)
      ensures fetched && k in old(runs) && !old(runs)[k].deleting ==>
                var run := old(runs)[k];
                && runs == (if (run.spec.suspend || reached) && accepted then
                              StoreStatus(old(runs), k, NextStatus(k, run, old(workflows), now), version)
                            else old(runs))
                && workflows == (if Submits(run) && reached && k !in old(workflows) then
                                   old(workflows)[k := BuildWorkflow(run)]
                                 else old(workflows))
      ensures !(fetched && k in old(runs) && !old(runs)[k].deleting) ==>
                runs == old(runs) && workflows == old(workflows)
      ensures result ==
              if !fetched then Failure
              else if k !in old(runs) || old(runs)[k].deleting then Done
              else if (old(runs)[k].spec.suspend || reached) && accepted then
                RunResult(NextStatus(k, old(runs)[k], old(workflows), now).phase)
              else Failure
      ensures result == RequeueAfter(10) ==> k in runs && runs[k].status.phase == RunRunning
      ensures result == Done && k in runs && !runs[k].deleting ==> runs[k].status.phase != RunRunning
    {
      if !fetched {
        return Failure;
      }
      if k !in runs || runs[k].deleting {
        return Done;
      }
      var o := new RunObject(k, runs[k]);
      if o.spec.suspend {
        result := SetStatus(o, RunPending, o.status.workflowRef, SuspendedMessage, now, accepted);
        return;
      }
      if o.status.workflowRef == "" {
        result := SubmitWorkflow(o, now, reached, accepted);
        return;
      }
      result := ReconcileWorkflow(o, now, reached, accepted);
    }
  }

  predicate Submits(run: EvalRun) {
    !run.spec.suspend && run.status.workflowRef == ""
  }

  function WorkflowFor(workflows: map<Key, Workflow>, k: Key, run: EvalRun): Option<Workflow> {
    var ref := Key(k.ns, run.status.workflowRef);
    if ref in workflows then Some(workflows[ref]) else None
  }

  /** The status that an undisturbed reconcile writes. */
  function NextStatus(k: Key, run: EvalRun, workflows: map<Key, Workflow>, now: Time): RunStatus {
    if run.spec.suspend then Suspended(run.status, now)
    else if run.status.workflowRef == "" then Submitted(run.status, k.name, now)
    else Projected(run, WorkflowFor(workflows, k, run), now)
  }
}
