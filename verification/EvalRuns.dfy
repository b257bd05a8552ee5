/** EvalRuns, their Argo Workflows and the reconciles between them, call by call: one-shot submission and the gate. */
module EvalRuns {
  import opened Api
  import opened EvalRunController

  /** A reconcile under way: about to Create the Workflow, to Get it, or to update the status. */
  datatype Desk = Submitting(run: EvalRun) | Looking(run: EvalRun) | Writing(run: EvalRun, status: RunStatus)

  /** The last Create issued for an EvalRun: its spec then, and the Workflow that already had the name, if any. */
  datatype Submission = Submission(spec: RunSpec, leftover: Option<Workflow>)

  /** Four histories, by uid: `born` says under which name an EvalRun was created, `versions` which specs it has had,
      `submissions` what was last submitted for it, and `seen` which terminal Workflows its reconciles have read. */
  datatype State = State(
    runs: map<Key, EvalRun>,
    workflows: map<Key, Workflow>,
    desks: map<Key, Desk>,
    next: nat,
    born: map<nat, Key>,
    versions: set<(nat, RunSpec)>,
    submissions: map<nat, Submission>,
    seen: set<(nat, Workflow)>)

  const START := State(map[], map[], map[], 0, map[], {}, map[], {})

  datatype Step =
    // users and Argo
    | CreateRun(key: Key, spec: RunSpec)
    | EditRun(key: Key, spec: RunSpec)
    | MarkDeleting(key: Key)
    | DropRun(key: Key)
    | Progress(key: Key, phase: string, outputs: Option<seq<Param>>)
    | DropWorkflow(key: Key)
    // one Reconcile, call by call; it may be cut off between any two
    | Get(key: Key, now: Time)
    | Create(key: Key, now: Time)
    | Look(key: Key, now: Time)
    | Write(key: Key)
    | CutOff(key: Key)

  predicate CanStep(s: State, step: Step) {
    match step
    case CreateRun(k, _) => k !in s.runs && k.name != ""
    case EditRun(k, _) => k in s.runs
    case MarkDeleting(k) => k in s.runs
    case DropRun(k) => k in s.runs
    case Progress(k, _, _) => k in s.workflows
    case DropWorkflow(k) => k in s.workflows
    case Get(k, _) => k in s.runs && !s.runs[k].deleting && k !in s.desks
    case Create(k, _) => k in s.desks && s.desks[k].Submitting?
    case Look(k, _) => k in s.desks && s.desks[k].Looking?
    case Write(k) => k in s.desks && s.desks[k].Writing?
    case CutOff(k) => k in s.desks
  }

  function PutRun(s: State, k: Key, run: EvalRun): State {
    s.(runs := s.runs[k := run.(version := s.next)], next := s.next + 1,
       versions := s.versions + {(run.uid, run.spec)})
  }

  function Apply(s: State, step: Step): State
    requires CanStep(s, step)
  {
    match step
    case CreateRun(k, spec) =>
      PutRun(s, k, EvalRun(spec, FRESH_RUN_STATUS, false, s.next, 0)).(born := s.born[s.next := k])
    case EditRun(k, spec) => PutRun(s, k, s.runs[k].(spec := spec))
    case MarkDeleting(k) => PutRun(s, k, s.runs[k].(deleting := true))
    case DropRun(k) => s.(runs := s.runs - {k})
    case Progress(k, phase, outputs) =>
      s.(workflows := s.workflows[k := s.workflows[k].(phase := phase, outputs := outputs)])
    case DropWorkflow(k) => s.(workflows := s.workflows - {k})
    case Get(k, now) =>
      var run := s.runs[k];
      s.(desks := s.desks[k :=
           if run.spec.suspend then Writing(run, Suspended(run.status, now))
           else if run.status.workflowRef == "" then Submitting(run)
           else Looking(run)])
    case Create(k, now) =>
      // AlreadyExists is ignored
      var run := s.desks[k].run;
      s.(workflows := if k in s.workflows then s.workflows else s.workflows[k := BuildWorkflow(run)],
         desks := s.desks[k := Writing(run, Submitted(run.status, k.name, now))],
         submissions := s.submissions[run.uid :=
           Submission(run.spec, if k in s.workflows then Some(s.workflows[k]) else None)])
    case Look(k, now) =>
      var run := s.desks[k].run;
      var wf := WorkflowFor(s.workflows, k, run);
      s.(desks := s.desks[k := Writing(run, Projected(run, wf, now))],
         seen := if wf.Some? && IsTerminalWorkflowPhase(wf.value.phase) then s.seen + {(run.uid, wf.value)} else s.seen)
    case Write(k) =>
      var run, status := s.desks[k].run, s.desks[k].status;
      var t := s.(desks := s.desks - {k});
      if k !in s.runs || s.runs[k].version != run.version || status == run.status then t
      else PutRun(t, k, run.(status := status))
    case CutOff(k) => s.(desks := s.desks - {k})
  }

  function After(s: State, step: Step): State {
    if CanStep(s, step) then Apply(s, step) else s
  }

  function Execute(s: State, steps: seq<Step>): State {
    if steps == [] then s else After(Execute(s, steps[..|steps| - 1]), steps[|steps| - 1])
  }

  // ----- The invariant

  /** The metrics of a status all come from r. */
  predicate Carries(status: RunStatus, r: Report) {
    && status.passed == Some(r.passed) && status.corpusWER == Some(r.corpusWER)
    && status.meanWER == Some(r.meanWER) && status.totalSamples == r.totalSamples
  }

  predicate Witness(status: RunStatus, w: Workflow) {
    IsTerminalWorkflowPhase(w.phase) && ReportOf(w).Some? && ReportOf(w).value.passed && Carries(status, ReportOf(w).value)
  }

  predicate Gated(seen: set<(nat, Workflow)>, uid: nat, status: RunStatus) {
    status.phase == RunSucceeded ==> exists e :: e in seen && e.0 == uid && Witness(status, e.1)
  }

  predicate StatusOk(s: State, k: Key, uid: nat, status: RunStatus) {
    && (status.workflowRef == "" || status.workflowRef == k.name)
    && (Terminal(status.phase) ==> status.workflowRef != "")
    && Gated(s.seen, uid, status)
  }

  predicate RunOk(s: State, k: Key, run: EvalRun) {
    && run.uid < s.next && run.version < s.next && run.uid in s.born && s.born[run.uid] == k
    && StatusOk(s, k, run.uid, run.status)
    && (run.uid, run.spec) in s.versions
  }

  predicate DeskOk(s: State, k: Key, d: Desk) {
    && RunOk(s, k, d.run)
    && (k in s.runs && s.runs[k].version == d.run.version ==> s.runs[k] == d.run)
    && (k in s.runs ==> s.runs[k].status == if s.runs[k].uid == d.run.uid then d.run.status else FRESH_RUN_STATUS)
    && (d.Submitting? ==> !d.run.spec.suspend && d.run.status.workflowRef == "")
    && (d.Looking? ==> !d.run.spec.suspend && d.run.status.workflowRef != "")
    && (d.Writing? ==> StatusOk(s, k, d.run.uid, d.status))
    && (d.Writing? && d.run.status.workflowRef != "" ==> d.status.workflowRef != "")
    && (d.Writing? && (d.run.spec.suspend || d.run.status.workflowRef == "") ==> !Terminal(d.status.phase))
  }

  /** The Workflow was built from a version of its owner that was not suspended. */
  predicate BuiltFrom(versions: set<(nat, RunSpec)>, wf: Workflow) {
    exists v :: v in versions && v.0 == wf.owner && !v.1.suspend && wf.spec == SpecFor(v.1)
  }

  predicate OwnerOk(s: State, k: Key, wf: Workflow) {
    wf.owner < s.next && wf.owner in s.born && s.born[wf.owner] == k && BuiltFrom(s.versions, wf)
  }

  predicate KeyOk(s: State, k: Key) {
    && (k in s.runs ==> k.name != "" && RunOk(s, k, s.runs[k]))
    && (k in s.desks ==> k.name != "" && DeskOk(s, k, s.desks[k]))
    && (k in s.workflows ==> OwnerOk(s, k, s.workflows[k]))
  }

  ghost predicate Inv(s: State) {
    forall k :: KeyOk(s, k)
  }

  lemma StatusStays(s: State, t: State, k: Key, uid: nat, status: RunStatus)
    requires StatusOk(s, k, uid, status) && s.seen <= t.seen
    ensures StatusOk(t, k, uid, status)
  {
  }

  predicate Grown(s: State, t: State) {
    s.next <= t.next && forall u :: u in s.born && u < s.next ==> u in t.born && t.born[u] == s.born[u]
  }

  /** The part of the state that belongs to k. */
  predicate SameAt(s: State, t: State, k: Key) {
    && (k in s.runs <==> k in t.runs) && (k in s.runs ==> s.runs[k] == t.runs[k])
    && (k in s.desks <==> k in t.desks) && (k in s.desks ==> s.desks[k] == t.desks[k])
    && (k in s.workflows <==> k in t.workflows) && (k in s.workflows ==> s.workflows[k] == t.workflows[k])
  }

  /** Nothing at k has changed. */
  lemma Framed(s: State, t: State, k: Key)
    requires KeyOk(s, k) && Grown(s, t) && s.versions <= t.versions && s.seen <= t.seen && SameAt(s, t, k)
    ensures KeyOk(t, k)
  {
    if k in s.runs {
      StatusStays(s, t, k, s.runs[k].uid, s.runs[k].status);
    }
    if k in s.desks {
      StatusStays(s, t, k, s.desks[k].run.uid, s.desks[k].run.status);
      if s.desks[k].Writing? {
        StatusStays(s, t, k, s.desks[k].run.uid, s.desks[k].status);
      }
    }
  }

  /** What reconcileWorkflow writes as Succeeded is what it read. */
  lemma ProjectedIsGated(run: EvalRun, wf: Option<Workflow>, now: Time)
    ensures Projected(run, wf, now).phase == RunSucceeded ==>
              wf.Some? && Witness(Projected(run, wf, now), wf.value)
    ensures Projected(run, wf, now).workflowRef == run.status.workflowRef
  {
  }

  lemma LookStep(s: State, k: Key, now: Time)
    requires KeyOk(s, k) && CanStep(s, Look(k, now))
    ensures KeyOk(Apply(s, Look(k, now)), k)
  {
    var t := Apply(s, Look(k, now));
    var run := s.desks[k].run;
    StatusStays(s, t, k, run.uid, run.status);
    if k in s.runs {
      StatusStays(s, t, k, s.runs[k].uid, s.runs[k].status);
    }
    var wf := WorkflowFor(s.workflows, k, run);
    ProjectedIsGated(run, wf, now);
    assert wf.Some? && IsTerminalWorkflowPhase(wf.value.phase) ==> (run.uid, wf.value) in t.seen;
  }

  lemma WriteStep(s: State, k: Key)
    requires KeyOk(s, k) && CanStep(s, Write(k))
    ensures KeyOk(Apply(s, Write(k)), k)
  {
  }

  lemma UserStep(s: State, step: Step)
    requires CanStep(s, step) && (step.CreateRun? || step.EditRun? || step.MarkDeleting? || step.DropRun?)
    requires KeyOk(s, step.key)
    ensures KeyOk(Apply(s, step), step.key)
  {
    var k, t := step.key, Apply(s, step);
    if k in s.runs {
      StatusStays(s, t, k, s.runs[k].uid, s.runs[k].status);
    }
    if k in s.desks {
      StatusStays(s, t, k, s.desks[k].run.uid, s.desks[k].run.status);
      if s.desks[k].Writing? {
        StatusStays(s, t, k, s.desks[k].run.uid, s.desks[k].status);
      }
    }
  }

  lemma HistoriesGrow(s: State, step: Step)
    requires CanStep(s, step)
    ensures var t := Apply(s, step); Grown(s, t) && s.versions <= t.versions && s.seen <= t.seen
  {
  }

  lemma OthersStay(s: State, step: Step, k: Key)
    requires CanStep(s, step) && k != step.key
    ensures SameAt(s, Apply(s, step), k)
  {
  }

  lemma ElsewhereStep(s: State, step: Step, k: Key)
    requires KeyOk(s, k) && CanStep(s, step) && k != step.key
    ensures KeyOk(Apply(s, step), k)
  {
    Framed(s, Apply(s, step), k) by {
      HistoriesGrow(s, step);
      OthersStay(s, step, k);
    }
  }

  lemma CallStep(s: State, step: Step)
    requires CanStep(s, step) && (step.Get? || step.Create? || step.CutOff? || step.Progress? || step.DropWorkflow?)
    requires KeyOk(s, step.key)
    ensures KeyOk(Apply(s, step), step.key)
  {
  }

  lemma StepKeepsKey(s: State, step: Step, k: Key)
    requires KeyOk(s, k) && CanStep(s, step)
    ensures KeyOk(Apply(s, step), k)
  {
    if k != step.key {
      ElsewhereStep(s, step, k);
    } else if step.Look? {
      LookStep(s, k, step.now);
    } else if step.Write? {
      WriteStep(s, k);
    } else if step.CreateRun? || step.EditRun? || step.MarkDeleting? || step.DropRun? {
      UserStep(s, step);
    } else {
      CallStep(s, step);
    }
  }

  lemma {:induction false} RunKeepsInv(steps: seq<Step>)
    ensures Inv(Execute(START, steps))
  {
    if steps != [] {
      var s, step := Execute(START, steps[..|steps| - 1]), steps[|steps| - 1];
      RunKeepsInv(steps[..|steps| - 1]);
      forall k | CanStep(s, step) ensures KeyOk(Apply(s, step), k) {
        assert KeyOk(s, k);
        StepKeepsKey(s, step, k);
      }
    }
  }

  // ----- The steps and the code

  /** The calls of one Reconcile, in order. */
  function OnePass(run: EvalRun, k: Key, now: Time): seq<Step> {
    if run.spec.suspend then [Get(k, now), Write(k)]
    else if Submits(run) then [Get(k, now), Create(k, now), Write(k)]
    else [Get(k, now), Look(k, now), Write(k)]
  }

  lemma TwoSteps(s: State, a: Step, b: Step)
    ensures Execute(s, [a, b]) == After(After(s, a), b)
  {
    assert [a, b][..1] == [a] && [a][..0] == [];
    assert Execute(s, [a]) == After(Execute(s, []), a);
  }

  lemma ThreeSteps(s: State, a: Step, b: Step, c: Step)
    ensures Execute(s, [a, b, c]) == After(After(After(s, a), b), c)
  {
    assert [a, b, c][..2] == [a, b];
    TwoSteps(s, a, b);
  }

  /** With nothing in between, the steps of a reconcile do what the controller's Reconcile does when no call fails. */
  lemma StepsReconcile(s: State, k: Key, now: Time)
    requires k in s.runs && !s.runs[k].deleting && k !in s.desks
    ensures var run := s.runs[k]; var t := Execute(s, OnePass(run, k, now));
      && t.runs == StoreStatus(s.runs, k, NextStatus(k, run, s.workflows, now), s.next)
      && t.workflows == (if Submits(run) && k !in s.workflows then s.workflows[k := BuildWorkflow(run)]
                         else s.workflows)
      && t.desks == s.desks
  {
    var run := s.runs[k];
    if run.spec.suspend {
      TwoSteps(s, Get(k, now), Write(k));
      WriteLands(s, After(s, Get(k, now)), k, Suspended(run.status, now));
    } else if Submits(run) {
      ThreeSteps(s, Get(k, now), Create(k, now), Write(k));
      SubmitReaches(s, k, now);
      WriteLands(s, After(After(s, Get(k, now)), Create(k, now)), k, Submitted(run.status, k.name, now));
    } else {
      ThreeSteps(s, Get(k, now), Look(k, now), Write(k));
      LookReaches(s, k, now);
      WriteLands(s, After(After(s, Get(k, now)), Look(k, now)), k,
                 Projected(run, WorkflowFor(s.workflows, k, run), now));
    }
  }

  lemma SubmitReaches(s: State, k: Key, now: Time)
    requires k in s.runs && !s.runs[k].deleting && k !in s.desks && Submits(s.runs[k])
    ensures var t := After(After(s, Get(k, now)), Create(k, now));
      && t.runs == s.runs && t.next == s.next
      && t.desks == s.desks[k := Writing(s.runs[k], Submitted(s.runs[k].status, k.name, now))]
      && t.workflows == if k in s.workflows then s.workflows
                        else s.workflows[k := BuildWorkflow(s.runs[k])]
  {
    assert After(s, Get(k, now)) == s.(desks := s.desks[k := Submitting(s.runs[k])]);
  }

  lemma LookReaches(s: State, k: Key, now: Time)
    requires k in s.runs && !s.runs[k].deleting && k !in s.desks
    requires !s.runs[k].spec.suspend && s.runs[k].status.workflowRef != ""
    ensures var t := After(After(s, Get(k, now)), Look(k, now));
      && t.runs == s.runs && t.next == s.next && t.workflows == s.workflows
      && t.desks == s.desks[k := Writing(s.runs[k], Projected(s.runs[k], WorkflowFor(s.workflows, k, s.runs[k]), now))]
  {
    assert After(s, Get(k, now)) == s.(desks := s.desks[k := Looking(s.runs[k])]);
  }

  lemma WriteCall(t: State, k: Key, run: EvalRun, status: RunStatus)
    requires k in t.desks && t.desks[k] == Writing(run, status) && k in t.runs && t.runs[k] == run
    ensures var u := t.(desks := t.desks - {k});
      After(t, Write(k)) == if status == run.status then u else PutRun(u, k, run.(status := status))
  {
  }

  lemma WriteLands(s: State, t: State, k: Key, status: RunStatus)
    requires k in s.runs && k !in s.desks && t.runs == s.runs && t.next == s.next
    requires t.desks == s.desks[k := Writing(s.runs[k], status)]
    ensures var u := After(t, Write(k));
      u.runs == StoreStatus(s.runs, k, status, s.next) && u.workflows == t.workflows && u.desks == s.desks
  {
    assert t.desks - {k} == s.desks;
    WriteCall(t, k, s.runs[k], status);
  }

  // ----- One-shot submission

  /** Whenever a Create can be issued, the EvalRun is persisted without a Workflow name; so none is issued once the name
      is set, not even after the Workflow has been deleted. */
  lemma {:induction false} NoCreateOnceSubmitted(steps: seq<Step>, k: Key, now: Time)
    requires var s := Execute(START, steps);
      CanStep(s, Create(k, now)) && k in s.runs && s.runs[k].uid == s.desks[k].run.uid
    ensures Execute(START, steps).runs[k].status.workflowRef == ""
  {
    RunKeepsInv(steps);
    assert KeyOk(Execute(START, steps), k);
  }

  /** At any moment at most one Workflow belongs to an EvalRun, and it has the EvalRun's name. */
  lemma OneWorkflowPerRun(steps: seq<Step>, v: Key, w: Key)
    requires var s := Execute(START, steps);
      v in s.workflows && w in s.workflows && s.workflows[v].owner == s.workflows[w].owner
    ensures v == w
    ensures var s := Execute(START, steps); forall k :: k in s.runs && s.runs[k].uid == s.workflows[v].owner ==> k == v
  {
    RunKeepsInv(steps);
    var s := Execute(START, steps);
    assert KeyOk(s, v) && KeyOk(s, w);
    forall k | k in s.runs && s.runs[k].uid == s.workflows[v].owner ensures k == v {
      assert KeyOk(s, k);
    }
  }

  /** An EvalRun that was suspended in every state never gets a Workflow. */
  lemma {:induction false} SuspendedNeverSubmits(steps: seq<Step>, uid: nat, w: Key)
    requires forall v :: v in Execute(START, steps).versions && v.0 == uid ==> v.1.suspend
    ensures var s := Execute(START, steps); w in s.workflows ==> s.workflows[w].owner != uid
    ensures var s := Execute(START, steps); w in s.runs && s.runs[w].uid == uid ==> s.runs[w].spec.suspend
  {
    RunKeepsInv(steps);
    assert KeyOk(Execute(START, steps), w);
  }

  lemma StepKeepsRef(s: State, step: Step, k: Key)
    requires KeyOk(s, k) && CanStep(s, step)
    ensures var t := Apply(s, step);
      && s.next <= t.next
      && (k in t.runs ==> t.runs[k].uid == s.next || (k in s.runs && s.runs[k].uid == t.runs[k].uid))
      && (k in t.runs && k in s.runs && s.runs[k].uid == t.runs[k].uid && s.runs[k].status.workflowRef != "" ==>
            t.runs[k].status.workflowRef == s.runs[k].status.workflowRef)
  {
  }

  /** The persisted Workflow name is empty or the EvalRun's own name, and never goes away again: through crashes,
      retries, suspension and deletion of the Workflow, as long as it is the same EvalRun. */
  lemma {:induction false} RefNeverLost(first: seq<Step>, rest: seq<Step>, k: Key)
    requires var s, t := Execute(START, first), Execute(START, first + rest);
      k in s.runs && k in t.runs && s.runs[k].uid == t.runs[k].uid
    ensures var s, t := Execute(START, first), Execute(START, first + rest);
      && (t.runs[k].status.workflowRef == "" || t.runs[k].status.workflowRef == k.name)
      && (s.runs[k].status.workflowRef != "" ==> t.runs[k].status.workflowRef == s.runs[k].status.workflowRef == k.name)
  {
    RunKeepsInv(first);
    RunKeepsInv(first + rest);
    assert KeyOk(Execute(START, first), k) && KeyOk(Execute(START, first + rest), k);
    if rest == [] {
      assert first + rest == first;
    } else {
      var fewer := rest[..|rest| - 1];
      assert (first + rest)[..|first + rest| - 1] == first + fewer;
      var before, step := Execute(START, first + fewer), rest[|rest| - 1];
      UidsGrow(first, fewer);
      RunKeepsInv(first + fewer);
      assert KeyOk(before, k);
      if CanStep(before, step) {
        StepKeepsRef(before, step, k);
      }
      RefNeverLost(first, fewer, k);
    }
  }

  lemma StepGrows(s: State, step: Step)
    ensures s.next <= After(s, step).next
  {
    if CanStep(s, step) {
      HistoriesGrow(s, step);
    }
  }

  lemma {:induction false} UidsGrow(first: seq<Step>, rest: seq<Step>)
    ensures Execute(START, first).next <= Execute(START, first + rest).next
  {
    if rest == [] {
      assert first + rest == first;
    } else {
      assert (first + rest)[..|first + rest| - 1] == first + rest[..|rest| - 1];
      UidsGrow(first, rest[..|rest| - 1]);
      StepGrows(Execute(START, first + rest[..|rest| - 1]), rest[|rest| - 1]);
    }
  }

  // ----- The gate

  /** In every reachable state, Succeeded means that some reconcile of this very EvalRun, not of one that had its name
      before, read a terminal Workflow whose first eval-report parameter is a passing report, and Passed and the three
      metrics are that report's. */
  lemma GateIsSound(steps: seq<Step>, k: Key)
    requires var s := Execute(START, steps); k in s.runs && s.runs[k].status.phase == RunSucceeded
    ensures var s := Execute(START, steps);
      && s.runs[k].status.passed == Some(true)
      && exists e :: e in s.seen && e.0 == s.runs[k].uid && Witness(s.runs[k].status, e.1)
  {
    RunKeepsInv(steps);
    assert KeyOk(Execute(START, steps), k);
  }
}
