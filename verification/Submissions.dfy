/** Which spec the Workflow of an EvalRun was built from. */
module Submissions {
  import opened Api
  import opened EvalRunController
  import opened EvalRuns
  import opened CommandLine

  /** What a submission leaves under the EvalRun's name: its own Workflow, or the leftover that was there. */
  function SubmittedSpec(sub: Submission): WorkflowSpec {
    match sub.leftover
    case None => SpecFor(sub.spec)
    case Some(wf) => wf.spec
  }

  predicate Follows(submissions: map<nat, Submission>, uid: nat, wf: Workflow) {
    uid in submissions && wf.spec == SubmittedSpec(submissions[uid])
  }

  /** No reconcile of uid has read a terminal Workflow. */
  predicate Unseen(s: State, uid: nat) {
    forall e :: e in s.seen ==> e.0 != uid
  }

  /** The reconcile has submitted, or found the EvalRun submitted. */
  predicate PastCreate(d: Desk) {
    d.run.status.workflowRef != "" || (d.Writing? && d.status.workflowRef != "")
  }

  predicate Linked(s: State, k: Key) {
    && (k in s.runs && s.runs[k].status.workflowRef != "" ==>
          s.runs[k].uid in s.submissions && (k in s.workflows ==> Follows(s.submissions, s.runs[k].uid, s.workflows[k])))
    && (k in s.desks && PastCreate(s.desks[k]) ==>
          s.desks[k].run.uid in s.submissions &&
          (k in s.workflows ==> Follows(s.submissions, s.desks[k].run.uid, s.workflows[k])))
    && (k in s.runs && s.runs[k].status.workflowRef == "" ==> Unseen(s, s.runs[k].uid))
    && (k in s.desks && s.desks[k].run.status.workflowRef == "" ==> Unseen(s, s.desks[k].run.uid))
  }

  predicate SeenFollow(s: State) {
    forall e :: e in s.seen ==> e.0 < s.next && Follows(s.submissions, e.0, e.1)
  }

  ghost predicate AllLinked(s: State) {
    SeenFollow(s) && forall k :: Linked(s, k)
  }

  lemma SeenGrowsByLook(s: State, step: Step)
    requires CanStep(s, step) && !step.Look?
    ensures Apply(s, step).seen == s.seen
  {
  }

  lemma SubmissionsGrowByCreate(s: State, step: Step)
    requires CanStep(s, step) && !step.Create?
    ensures Apply(s, step).submissions == s.submissions
  {
  }

  /** Uids tell names apart. */
  lemma LinkedElsewhere(s: State, step: Step, k: Key)
    requires CanStep(s, step) && k != step.key && KeyOk(s, k) && KeyOk(s, step.key) && Linked(s, k)
    ensures Linked(Apply(s, step), k)
  {
    var t := Apply(s, step);
    OthersStay(s, step, k);
    if !step.Look? {
      SeenGrowsByLook(s, step);
    }
    if !step.Create? {
      SubmissionsGrowByCreate(s, step);
    }
    if step.Look? || step.Create? {
      var uid := s.desks[step.key].run.uid;
      assert s.born[uid] == step.key;
    }
  }

  lemma LinkedCreate(s: State, k: Key, now: Time)
    requires CanStep(s, Create(k, now)) && KeyOk(s, k) && Linked(s, k)
    ensures Linked(Apply(s, Create(k, now)), k)
  {
  }

  lemma LinkedWrite(s: State, k: Key)
    requires CanStep(s, Write(k)) && KeyOk(s, k) && Linked(s, k)
    ensures Linked(Apply(s, Write(k)), k)
  {
  }

  lemma LinkedHere(s: State, step: Step)
    requires CanStep(s, step) && KeyOk(s, step.key) && Linked(s, step.key) && SeenFollow(s)
    ensures Linked(Apply(s, step), step.key)
  {
    if step.Create? {
      LinkedCreate(s, step.key, step.now);
    } else if step.Write? {
      LinkedWrite(s, step.key);
    } else {
      SubmissionsGrowByCreate(s, step);
    }
  }

  lemma SeenStaysFollowed(s: State, step: Step)
    requires CanStep(s, step) && KeyOk(s, step.key) && Linked(s, step.key) && SeenFollow(s)
    ensures SeenFollow(Apply(s, step))
  {
    HistoriesGrow(s, step);
    if step.Create? {
      SeenGrowsByLook(s, step);
    } else {
      SubmissionsGrowByCreate(s, step);
      if !step.Look? {
        SeenGrowsByLook(s, step);
      }
    }
  }

  lemma {:induction false} RunKeepsLinks(steps: seq<Step>)
    ensures AllLinked(Execute(START, steps))
  {
    if steps != [] {
      var s, step := Execute(START, steps[..|steps| - 1]), steps[|steps| - 1];
      RunKeepsLinks(steps[..|steps| - 1]);
      RunKeepsInv(steps[..|steps| - 1]);
      if CanStep(s, step) {
        assert KeyOk(s, step.key) && Linked(s, step.key);
        SeenStaysFollowed(s, step);
        forall k ensures Linked(Apply(s, step), k) {
          assert KeyOk(s, k) && Linked(s, k);
          if k == step.key {
            LinkedHere(s, step);
          } else {
            LinkedElsewhere(s, step, k);
          }
        }
      }
    }
  }

  // ----- Main results

  /** Every Workflow's spec is the one built from some version of its owner. */
  lemma {:induction false} WorkflowsAreBuilt(steps: seq<Step>, k: Key)
    requires k in Execute(START, steps).workflows
    ensures var s := Execute(START, steps); BuiltFrom(s.versions, s.workflows[k])
  {
    RunKeepsInv(steps);
    assert KeyOk(Execute(START, steps), k);
  }

  /** So in every reachable state a Workflow runs what some version of its owner asked for that was not suspended. */
  lemma {:induction false} WorkflowsExecuteTheirOwner(steps: seq<Step>, k: Key)
    requires k in Execute(START, steps).workflows
    ensures var s := Execute(START, steps);
      exists v :: v in s.versions && v.0 == s.workflows[k].owner && !v.1.suspend && Executes(v.1, s.workflows[k].spec)
  {
    WorkflowsAreBuilt(steps, k);
    var s := Execute(START, steps);
    var v :| v in s.versions && v.0 == s.workflows[k].owner && !v.1.suspend && s.workflows[k].spec == SpecFor(v.1);
    CommandReadsBack(v.1);
  }

  /** The value that the runner finds after `--threshold`. */
  function ThresholdArg(spec: WorkflowSpec): string {
    match ReadCommand(spec.args)
    case None => ""
    case Some(call) => if "--threshold" in call.options then call.options["--threshold"] else ""
  }

  /** A Create gives the EvalRun its own threshold if and only if no Workflow of that name is left over, or the leftover
      has the same threshold. */
  predicate OwnThreshold(sub: Submission) {
    sub.leftover.None? || ThresholdArg(sub.leftover.value.spec) == Threshold(sub.spec)
  }

  /** The container is started with the threshold of the spec, 0.3 when none is given. */
  lemma WorkflowCarriesThreshold(run: EvalRun)
    ensures ThresholdArg(BuildWorkflow(run).spec) == if run.spec.werThreshold == "" then "0.3" else run.spec.werThreshold
  {
    CommandReadsBack(run.spec);
  }

  lemma OwnArg(spec: RunSpec)
    ensures ThresholdArg(SpecFor(spec)) == Threshold(spec)
  {
    CommandReadsBack(spec);
  }

  /** The Workflow that decides an EvalRun runs with the threshold that the EvalRun was submitted with, if and only if the
      submission found no leftover with another one. */
  lemma {:induction false} ThresholdAsSubmitted(steps: seq<Step>, e: (nat, Workflow))
    requires e in Execute(START, steps).seen
    ensures var s := Execute(START, steps);
      && e.0 in s.submissions
      && (ThresholdArg(e.1.spec) == Threshold(s.submissions[e.0].spec) <==> OwnThreshold(s.submissions[e.0]))
  {
    RunKeepsLinks(steps);
    OwnArg(Execute(START, steps).submissions[e.0].spec);
  }

  // ----- The leftover is real

  function SpecWith(threshold: string): RunSpec {
    RunSpec("dataset", "gateway", "", "image", threshold, None, false)
  }

  predicate Idle(s: State, k: Key) {
    k !in s.runs && k !in s.desks && k.name != ""
  }

  lemma Submitting4(s: State, k: Key, threshold: string)
    requires Idle(s, k)
    ensures var t := After(After(After(After(s, CreateRun(k, SpecWith(threshold))), Get(k, 0.0)), Create(k, 0.0)), Write(k));
      && k in t.runs && t.runs[k].status.workflowRef == k.name && t.runs[k].spec == SpecWith(threshold) && k !in t.desks
      && t.runs[k].uid in t.submissions
      && t.submissions[t.runs[k].uid] ==
         Submission(SpecWith(threshold), if k in s.workflows then Some(s.workflows[k]) else None)
      && k in t.workflows
      && (if k in s.workflows then t.workflows[k] == s.workflows[k] else t.workflows[k].spec == SpecFor(SpecWith(threshold)))
  {
    var s1 := After(s, CreateRun(k, SpecWith(threshold)));
    SubmitReaches(s1, k, 0.0);
    var s3 := After(After(s1, Get(k, 0.0)), Create(k, 0.0));
    WriteLands(s1, s3, k, Submitted(s1.runs[k].status, k.name, 0.0));
  }

  lemma ExecuteSnoc(steps: seq<Step>, step: Step)
    ensures Execute(START, steps + [step]) == After(Execute(START, steps), step)
  {
    assert (steps + [step])[..|steps|] == steps;
  }

  lemma SubmitAfter(steps: seq<Step>, k: Key, threshold: string) returns (longer: seq<Step>)
    requires Idle(Execute(START, steps), k)
    ensures var s, t := Execute(START, steps), Execute(START, longer);
      && k in t.runs && t.runs[k].status.workflowRef == k.name && k !in t.desks && t.runs[k].uid in t.submissions
      && t.submissions[t.runs[k].uid] ==
         Submission(SpecWith(threshold), if k in s.workflows then Some(s.workflows[k]) else None)
      && k in t.workflows && t.runs[k].spec == SpecWith(threshold)
      && (if k in s.workflows then t.workflows[k] == s.workflows[k] else t.workflows[k].spec == SpecFor(SpecWith(threshold)))
  {
    Submitting4(Execute(START, steps), k, threshold);
    longer := steps + [CreateRun(k, SpecWith(threshold))];
    ExecuteSnoc(steps, CreateRun(k, SpecWith(threshold)));
    ExecuteSnoc(longer, Get(k, 0.0));
    longer := longer + [Get(k, 0.0)];
    ExecuteSnoc(longer, Create(k, 0.0));
    longer := longer + [Create(k, 0.0)];
    ExecuteSnoc(longer, Write(k));
    longer := longer + [Write(k)];
  }

  /** An EvalRun with threshold 0.1, created after one with threshold 0.9 was dropped and before its Workflow was collected,
      is judged by 0.9. */
  lemma TakeoverHappens(k: Key) returns (steps: seq<Step>)
    requires k.name != ""
    ensures var s := Execute(START, steps);
      && k in s.runs && s.runs[k].status.workflowRef == k.name && s.runs[k].spec.werThreshold == "0.1"
      && k in s.workflows && ThresholdArg(s.workflows[k].spec) == "0.9"
      && s.runs[k].uid in s.submissions && !OwnThreshold(s.submissions[s.runs[k].uid])
  {
    steps := SubmitAfter([], k, "0.9");
    ExecuteSnoc(steps, DropRun(k));
    steps := steps + [DropRun(k)];
    steps := SubmitAfter(steps, k, "0.1");
    OwnArg(SpecWith("0.9"));
    assert "0.9"[2] != "0.1"[2];
  }
}
