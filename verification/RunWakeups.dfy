/** The EvalRun controller among its watches, work queue and timers: no EvalRun is forgotten. The API objects and the calls
    of a reconcile are those of EvalRuns. */
module RunWakeups {
  import opened Api
  import opened EvalRunController
  import ER = EvalRuns

  /** `wakeups` holds the keys with an undelivered event, a queue entry, a dirty mark or a timer. */
  datatype State = State(base: ER.State, wakeups: set<Key>)

  const START := State(ER.START, {})

  datatype Step =
    // users and Argo; duplicate events and resyncs; a restart, which lists everything again
    | Outside(step: ER.Step)
    | Nudge(key: Key)
    | Restart
    // one Reconcile, call by call
    | Get(key: Key, now: Time)
    | Create(key: Key, now: Time)
    | Look(key: Key, now: Time)
    | Write(key: Key)
    | CallFails(key: Key)

  predicate IsOutside(e: ER.Step) {
    e.CreateRun? || e.EditRun? || e.MarkDeleting? || e.DropRun? || e.Progress? || e.DropWorkflow?
  }

  predicate CanStep(s: State, step: Step) {
    match step
    case Outside(e) => IsOutside(e) && ER.CanStep(s.base, e)
    case Nudge(_) => true
    case Restart => true
    case Get(k, _) => k in s.wakeups && k !in s.base.desks
    case Create(k, now) => ER.CanStep(s.base, ER.Create(k, now))
    case Look(k, now) => ER.CanStep(s.base, ER.Look(k, now))
    case Write(k) => ER.CanStep(s.base, ER.Write(k))
    case CallFails(k) => k in s.base.desks
  }

  predicate Stale(b: ER.State, k: Key)
    requires k in b.desks
  {
    k !in b.runs || b.runs[k].version != b.desks[k].run.version
  }

  /** Every error and the phase Running lead to another reconcile, and every change raises an event: of the EvalRun itself,
      or of a Workflow, whose owner reference carries the EvalRun's name. */
  function Apply(s: State, step: Step): State
    requires CanStep(s, step)
  {
    match step
    case Outside(e) => State(ER.Apply(s.base, e), s.wakeups + {e.key})
    case Nudge(k) => s.(wakeups := s.wakeups + {k})
    case Restart => State(s.base.(desks := map[]), s.base.runs.Keys)
    case Get(k, now) => State(ER.After(s.base, ER.Get(k, now)), s.wakeups - {k})
    case Create(k, now) =>
      State(ER.Apply(s.base, ER.Create(k, now)), if k in s.base.workflows then s.wakeups else s.wakeups + {k})
    case Look(k, now) => s.(base := ER.Apply(s.base, ER.Look(k, now)))
    case Write(k) =>
      var d := s.base.desks[k];
      State(ER.Apply(s.base, ER.Write(k)),
            if Stale(s.base, k) || d.status != d.run.status || d.status.phase == RunRunning then s.wakeups + {k}
            else s.wakeups)
    case CallFails(k) => State(ER.Apply(s.base, ER.CutOff(k)), s.wakeups + {k})
  }

  function After(s: State, step: Step): State {
    if CanStep(s, step) then Apply(s, step) else s
  }

  function Execute(s: State, steps: seq<Step>): State {
    if steps == [] then s else After(Execute(s, steps[..|steps| - 1]), steps[|steps| - 1])
  }

  // ----- What must hold of every EvalRun

  /** A reconcile would write what is there; Running is polled. */
  predicate Fixed(k: Key, run: EvalRun, workflows: map<Key, Workflow>) {
    NextStatus(k, run, workflows, 0.0) == run.status && run.status.phase != RunRunning
  }

  predicate Safe(s: State, k: Key) {
    k in s.base.runs && !s.base.runs[k].deleting ==>
      Fixed(k, s.base.runs[k], s.base.workflows) || k in s.wakeups || k in s.base.desks
  }

  predicate DeskFits(b: ER.State, k: Key, d: ER.Desk) {
    d.Writing? && d.status.phase != RunRunning ==> Fixed(k, d.run.(status := d.status), b.workflows)
  }

  predicate DeskOk(s: State, k: Key)
    requires k in s.base.desks
  {
    var d := s.base.desks[k];
    && d.run.version < s.base.next
    && (d.Looking? ==> !d.run.spec.suspend && d.run.status.workflowRef != "")
    && (!Stale(s.base, k) ==> s.base.runs[k] == d.run && (k in s.wakeups || DeskFits(s.base, k, d)))
  }

  predicate RefOk(k: Key, run: EvalRun) {
    k.name != "" && (run.status.workflowRef == "" || run.status.workflowRef == k.name)
  }

  predicate KeyOk(s: State, k: Key) {
    && Safe(s, k)
    && (k in s.base.desks ==> DeskOk(s, k) && RefOk(k, s.base.desks[k].run))
    && (k in s.base.desks && s.base.desks[k].Writing? ==>
          RefOk(k, s.base.desks[k].run.(status := s.base.desks[k].status)))
    && (k in s.base.runs ==> s.base.runs[k].version < s.base.next && RefOk(k, s.base.runs[k]))
  }

  ghost predicate Inv(s: State) {
    forall k :: KeyOk(s, k)
  }

  /** Only the Workflow of its own name matters to an EvalRun. */
  lemma OwnWorkflowOnly(k: Key, run: EvalRun, v: map<Key, Workflow>, w: map<Key, Workflow>)
    requires RefOk(k, run) && (k in v <==> k in w) && (k in v ==> v[k] == w[k])
    ensures Fixed(k, run, v) <==> Fixed(k, run, w)
  {
  }

  /** What a look projects is the final word on the Workflow as it is, or says that it is running. */
  lemma ProjectedIsFixed(k: Key, run: EvalRun, workflows: map<Key, Workflow>, now: Time)
    requires !run.spec.suspend && run.status.workflowRef != ""
    ensures var status := Projected(run, WorkflowFor(workflows, k, run), now);
      && status.workflowRef == run.status.workflowRef
      && (status.phase == RunRunning || Fixed(k, run.(status := status), workflows))
  {
  }

  lemma SuspendedIsFixed(k: Key, run: EvalRun, workflows: map<Key, Workflow>, now: Time)
    requires run.spec.suspend
    ensures Fixed(k, run.(status := Suspended(run.status, now)), workflows)
  {
  }

  // ----- The invariant is kept

  lemma Framed(s: State, t: State, k: Key)
    requires KeyOk(s, k) && ER.SameAt(s.base, t.base, k) && s.base.next <= t.base.next
    requires k in s.wakeups ==> k in t.wakeups
    ensures KeyOk(t, k)
  {
    if k in s.base.runs {
      OwnWorkflowOnly(k, s.base.runs[k], s.base.workflows, t.base.workflows);
    }
    if k in s.base.desks && s.base.desks[k].Writing? {
      OwnWorkflowOnly(k, s.base.desks[k].run.(status := s.base.desks[k].status), s.base.workflows, t.base.workflows);
    }
  }

  lemma BaseElsewhere(s: State, e: ER.Step, t: State, k: Key)
    requires KeyOk(s, k) && ER.CanStep(s.base, e) && e.key != k && t.base == ER.Apply(s.base, e)
    requires k in s.wakeups ==> k in t.wakeups
    ensures KeyOk(t, k)
  {
    ER.OthersStay(s.base, e, k);
    ER.HistoriesGrow(s.base, e);
    Framed(s, t, k);
  }

  lemma OutsideHere(s: State, e: ER.Step)
    requires IsOutside(e) && ER.CanStep(s.base, e) && KeyOk(s, e.key)
    ensures KeyOk(Apply(s, Outside(e)), e.key)
  {
  }

  lemma OutsideStep(s: State, e: ER.Step, k: Key)
    requires KeyOk(s, k) && CanStep(s, Outside(e))
    ensures KeyOk(Apply(s, Outside(e)), k)
  {
    if e.key == k {
      OutsideHere(s, e);
    } else {
      BaseElsewhere(s, e, Apply(s, Outside(e)), k);
    }
  }

  lemma RestartStep(s: State, k: Key)
    requires KeyOk(s, k)
    ensures KeyOk(Apply(s, Restart), k)
  {
  }

  lemma GetHere(s: State, k: Key, now: Time)
    requires KeyOk(s, k) && CanStep(s, Get(k, now))
    ensures KeyOk(Apply(s, Get(k, now)), k)
  {
    if k in s.base.runs && s.base.runs[k].spec.suspend {
      SuspendedIsFixed(k, s.base.runs[k], s.base.workflows, now);
    }
  }

  lemma CreateHere(s: State, k: Key, now: Time)
    requires KeyOk(s, k) && CanStep(s, Create(k, now))
    ensures KeyOk(Apply(s, Create(k, now)), k)
  {
  }

  lemma LookHere(s: State, k: Key, now: Time)
    requires KeyOk(s, k) && CanStep(s, Look(k, now))
    ensures KeyOk(Apply(s, Look(k, now)), k)
  {
    ProjectedIsFixed(k, s.base.desks[k].run, s.base.workflows, now);
  }

  lemma WriteHere(s: State, k: Key)
    requires KeyOk(s, k) && CanStep(s, Write(k))
    ensures KeyOk(Apply(s, Write(k)), k)
  {
  }

  lemma CallFailsHere(s: State, k: Key)
    requires KeyOk(s, k) && CanStep(s, CallFails(k))
    ensures KeyOk(Apply(s, CallFails(k)), k)
  {
  }

  /** The base step of a reconcile's call. */
  function BaseStep(step: Step): ER.Step
    requires !step.Outside? && !step.Nudge? && !step.Restart?
  {
    match step
    case Get(k, now) => ER.Get(k, now)
    case Create(k, now) => ER.Create(k, now)
    case Look(k, now) => ER.Look(k, now)
    case Write(k) => ER.Write(k)
    case CallFails(k) => ER.CutOff(k)
  }

  lemma CallElsewhere(s: State, step: Step, k: Key)
    requires !step.Outside? && !step.Nudge? && !step.Restart? && CanStep(s, step) && step.key != k && KeyOk(s, k)
    ensures KeyOk(Apply(s, step), k)
  {
    var t := Apply(s, step);
    if ER.CanStep(s.base, BaseStep(step)) {
      BaseElsewhere(s, BaseStep(step), t, k);
    } else {
      Framed(s, t, k);
    }
  }

  lemma StepKeepsKey(s: State, step: Step, k: Key)
    requires KeyOk(s, k) && CanStep(s, step)
    ensures KeyOk(Apply(s, step), k)
  {
    if step.Outside? {
      OutsideStep(s, step.step, k);
    } else if step.Nudge? {
      Framed(s, Apply(s, step), k);
    } else if step.Restart? {
      RestartStep(s, k);
    } else if step.key != k {
      CallElsewhere(s, step, k);
    } else {
      match step
      case Get(_, now) => GetHere(s, k, now);
      case Create(_, now) => CreateHere(s, k, now);
      case Look(_, now) => LookHere(s, k, now);
      case Write(_) => WriteHere(s, k);
      case CallFails(_) => CallFailsHere(s, k);
    }
  }

  lemma {:induction false} RunKeepsInv(steps: seq<Step>)
    ensures Inv(Execute(START, steps))
  {
    if steps != [] {
      var s, step := Execute(START, steps[..|steps| - 1]), steps[|steps| - 1];
      RunKeepsInv(steps[..|steps| - 1]);
      forall k | CanStep(s, step) ensures KeyOk(Apply(s, step), k) {
        assert KeyOk(s, k);
        StepKeepsKey(s, step, k);
      }
    }
  }

  // ----- Main results

  predicate Idle(s: State, k: Key) {
    k !in s.wakeups && k !in s.base.desks
  }

  /** In every reachable state an EvalRun for which nothing is pending has the status that a reconcile would write now, at any
      time, to the last field. There is no exception. */
  lemma {:induction false} IdleIsFixed(steps: seq<Step>, k: Key, now: Time)
    requires var s := Execute(START, steps); k in s.base.runs && !s.base.runs[k].deleting && Idle(s, k)
    ensures var b := Execute(START, steps).base; NextStatus(k, b.runs[k], b.workflows, now) == b.runs[k].status
  {
    RunKeepsInv(steps);
    assert KeyOk(Execute(START, steps), k);
    TimeIrrelevant(k, Execute(START, steps).base.runs[k], Execute(START, steps).base.workflows, now);
  }

  lemma TimeIrrelevant(k: Key, run: EvalRun, workflows: map<Key, Workflow>, now: Time)
    requires Fixed(k, run, workflows) && RefOk(k, run)
    ensures NextStatus(k, run, workflows, now) == run.status
  {
  }

  /** So an EvalRun is left alone only when it is suspended and says so, or when it is in a terminal phase and its Workflow
      has ended or is gone. */
  lemma {:induction false} IdleMeans(steps: seq<Step>, k: Key)
    requires var s := Execute(START, steps); k in s.base.runs && !s.base.runs[k].deleting && Idle(s, k)
    ensures var b := Execute(START, steps).base; var run := b.runs[k];
      if run.spec.suspend then run.status.phase == RunPending && run.status.message == SuspendedMessage
      else
        && Terminal(run.status.phase) && run.status.workflowRef == k.name
        && (k in b.workflows ==> IsTerminalWorkflowPhase(b.workflows[k].phase))
        && (k !in b.workflows ==> run.status.phase == RunFailed)
  {
    RunKeepsInv(steps);
    var s := Execute(START, steps);
    assert KeyOk(s, k);
    assert Fixed(k, s.base.runs[k], s.base.workflows);
  }

  /** Conversely, such a status is left alone: a reconcile changes nothing and leads to no other. */
  lemma FixedIsQuiet(s: State, k: Key, now: Time)
    requires k in s.base.runs && !s.base.runs[k].deleting && k in s.wakeups && k !in s.base.desks
    requires !s.base.runs[k].spec.suspend && RefOk(k, s.base.runs[k])
    requires Fixed(k, s.base.runs[k], s.base.workflows)
    ensures var t := After(After(After(s, Get(k, now)), Look(k, now)), Write(k));
      && t.base.runs == s.base.runs && t.base.workflows == s.base.workflows && t.base.desks == s.base.desks
      && t.wakeups == s.wakeups - {k}
  {
    var run := s.base.runs[k];
    TimeIrrelevant(k, run, s.base.workflows, now);
    assert run.status.workflowRef != "";
    ER.LookReaches(s.base, k, now);
    var u := After(After(s, Get(k, now)), Look(k, now));
    assert u.base == ER.After(ER.After(s.base, ER.Get(k, now)), ER.Look(k, now));
    ER.WriteLands(s.base, u.base, k, run.status);
  }
}
