/** Terminal phases of EvalRuns: once the Workflow has ended, a run concludes once and stays concluded, whatever reconciles
    were under way, and whatever edits follow that do not suspend it. */
module Conclusion {
  import opened Api
  import opened EvalRunController
  import opened EvalRuns

  /** Steps that leave the Workflow of k alone and do not suspend or drop the EvalRun. */
  predicate Quiet(step: Step, k: Key) {
    || step.key != k || step.Get? || step.Create? || step.Look? || step.Write? || step.CutOff? || step.MarkDeleting?
    || (step.EditRun? && !step.spec.suspend)
  }

  predicate AllQuiet(steps: seq<Step>, k: Key) {
    forall i :: 0 <= i < |steps| ==> Quiet(steps[i], k)
  }

  /** A submitted EvalRun whose Workflow has ended. */
  predicate Ended(s: State, k: Key) {
    && k in s.runs && !s.runs[k].spec.suspend && k.name != "" && s.runs[k].status.workflowRef == k.name
    && k in s.workflows && IsTerminalWorkflowPhase(s.workflows[k].phase)
  }

  /** Same phase, metrics and times; the message quotes the threshold of the spec and may follow its edits. */
  predicate SameVerdict(a: RunStatus, b: RunStatus) {
    a.(message := b.message) == b
  }

  /** A verdict about wf that one more look at wf would repeat. */
  predicate Repeats(run: EvalRun, wf: Workflow) {
    Terminal(run.status.phase) && SameVerdict(Projected(run, Some(wf), 0.0), run.status)
  }

  predicate Numbered(s: State, k: Key)
    requires k in s.runs
  {
    s.runs[k].version < s.next && (k in s.desks ==> s.desks[k].run.version < s.next)
  }

  /** A reconcile under way whose status update would be refused. */
  predicate Stale(s: State, k: Key)
    requires k in s.runs && k in s.desks
  {
    s.desks[k].run.version != s.runs[k].version
  }

  /** The status is the Workflow's outcome, and no reconcile under way will write another. */
  predicate Settled(s: State, k: Key) {
    && Ended(s, k) && Numbered(s, k) && Repeats(s.runs[k], s.workflows[k])
    && (k in s.desks && !Stale(s, k) ==>
          var d := s.desks[k];
          d.run == s.runs[k] && (d.Looking? || (d.Writing? && SameVerdict(d.status, d.run.status))))
  }

  predicate IsOutcome(status: RunStatus, run: EvalRun, wf: Workflow) {
    status.completionTime.Some? && status == Projected(run, Some(wf), status.completionTime.value)
  }

  predicate StillRunning(status: RunStatus, run: EvalRun) {
    status.phase == RunRunning && status.workflowRef == run.status.workflowRef
    && status.completionTime == run.status.completionTime
  }

  /** Not yet concluded; a reconcile under way carries the outcome or an outdated Running. */
  predicate Unconcluded(s: State, k: Key) {
    && Ended(s, k) && Numbered(s, k) && !Terminal(s.runs[k].status.phase)
    && (k in s.desks && !Stale(s, k) ==>
          var d := s.desks[k];
          && d.run == s.runs[k]
          && (d.Looking? ||
              (d.Writing? && (IsOutcome(d.status, d.run, s.workflows[k]) || StillRunning(d.status, d.run)))))
  }

  // ----- No step disturbs a conclusion

  lemma RepeatsAfterEdit(run: EvalRun, wf: Workflow, edited: EvalRun)
    requires Repeats(run, wf) && IsTerminalWorkflowPhase(wf.phase) && edited.status == run.status
    ensures Repeats(edited, wf)
  {
  }

  lemma SettledElsewhere(s: State, step: Step, k: Key)
    requires Settled(s, k) && CanStep(s, step) && step.key != k
    ensures var t := Apply(s, step); Settled(t, k) && t.runs[k].status == s.runs[k].status
  {
    OthersStay(s, step, k);
    HistoriesGrow(s, step);
  }

  lemma SettledWrite(s: State, k: Key)
    requires Settled(s, k) && CanStep(s, Write(k))
    ensures var t := Apply(s, Write(k)); Settled(t, k) && SameVerdict(s.runs[k].status, t.runs[k].status)
  {
  }

  lemma SettledStep(s: State, step: Step, k: Key)
    requires Settled(s, k) && CanStep(s, step) && Quiet(step, k)
    ensures var t := Apply(s, step); Settled(t, k) && SameVerdict(s.runs[k].status, t.runs[k].status)
  {
    if step.key != k {
      SettledElsewhere(s, step, k);
    } else if step.Write? {
      SettledWrite(s, k);
    } else if step.EditRun? || step.MarkDeleting? {
      RepeatsAfterEdit(s.runs[k], s.workflows[k], Apply(s, step).runs[k]);
    }
  }

  /** Terminal phases absorb: however many reconciles, edits and deletion marks follow, phase, metrics and times stay. */
  lemma {:induction false} TerminalIsAbsorbing(s: State, steps: seq<Step>, k: Key)
    requires Settled(s, k) && AllQuiet(steps, k)
    ensures var t := Execute(s, steps); Settled(t, k) && SameVerdict(s.runs[k].status, t.runs[k].status)
  {
    if steps != [] {
      TerminalIsAbsorbing(s, steps[..|steps| - 1], k);
      var before := Execute(s, steps[..|steps| - 1]);
      if CanStep(before, steps[|steps| - 1]) {
        SettledStep(before, steps[|steps| - 1], k);
      }
    }
  }

  // ----- One conclusion

  /** The status moved into a terminal phase, or its CompletionTime changed. */
  predicate Stamped(s: State, t: State, k: Key) {
    k in s.runs && k in t.runs &&
    var before, after := s.runs[k].status, t.runs[k].status;
    before.completionTime != after.completionTime || (!Terminal(before.phase) && Terminal(after.phase))
  }

  function Stampings(s: State, steps: seq<Step>, k: Key): nat {
    if steps == [] then 0
    else
      Stampings(s, steps[..|steps| - 1], k) +
      if Stamped(Execute(s, steps[..|steps| - 1]), Execute(s, steps), k) then 1 else 0
  }

  lemma UnconcludedElsewhere(s: State, step: Step, k: Key)
    requires Unconcluded(s, k) && CanStep(s, step) && step.key != k
    ensures var t := Apply(s, step); Unconcluded(t, k) && !Stamped(s, t, k)
  {
    OthersStay(s, step, k);
    HistoriesGrow(s, step);
  }

  lemma UnconcludedWrite(s: State, k: Key)
    requires Unconcluded(s, k) && CanStep(s, Write(k))
    ensures var t := Apply(s, Write(k)); if Stamped(s, t, k) then Settled(t, k) else Unconcluded(t, k)
  {
  }

  lemma UnconcludedStep(s: State, step: Step, k: Key)
    requires Unconcluded(s, k) && CanStep(s, step) && Quiet(step, k)
    ensures var t := Apply(s, step); if Stamped(s, t, k) then Settled(t, k) else Unconcluded(t, k)
  {
    if step.key != k {
      UnconcludedElsewhere(s, step, k);
    } else if step.Write? {
      UnconcludedWrite(s, k);
    }
  }

  /** Once the Workflow has ended, CompletionTime is written exactly once: on the way into the terminal phase. */
  lemma {:induction false} CompletionWrittenOnce(s: State, steps: seq<Step>, k: Key)
    requires Unconcluded(s, k) && AllQuiet(steps, k)
    ensures var t := Execute(s, steps);
      if Stampings(s, steps, k) == 0 then Unconcluded(t, k)
      else Stampings(s, steps, k) == 1 && Settled(t, k)
  {
    if steps != [] {
      var fewer, step := steps[..|steps| - 1], steps[|steps| - 1];
      CompletionWrittenOnce(s, fewer, k);
      var before := Execute(s, fewer);
      if CanStep(before, step) {
        if Unconcluded(before, k) {
          UnconcludedStep(before, step, k);
        } else {
          SettledStep(before, step, k);
        }
      }
    }
  }

  lemma {:induction false} NoStampOnceSettled(s: State, steps: seq<Step>, k: Key)
    requires Settled(s, k) && AllQuiet(steps, k)
    ensures Stampings(s, steps, k) == 0
  {
    if steps != [] {
      NoStampOnceSettled(s, steps[..|steps| - 1], k);
      TerminalIsAbsorbing(s, steps[..|steps| - 1], k);
      TerminalIsAbsorbing(s, steps, k);
    }
  }

  /** One undisturbed reconcile concludes, and Succeeded is exactly a passing first report. */
  lemma OnePassConcludes(s: State, k: Key, now: Time)
    requires Unconcluded(s, k) && k !in s.desks && !s.runs[k].deleting
    ensures var t := After(After(After(s, Get(k, now)), Look(k, now)), Write(k));
      && Settled(t, k)
      && (t.runs[k].status.phase == RunSucceeded <==>
            ReportOf(s.workflows[k]).Some? && ReportOf(s.workflows[k]).value.passed)
  {
    var s2 := After(After(s, Get(k, now)), Look(k, now));
    var status := Projected(s.runs[k], Some(s.workflows[k]), now);
    assert s2.runs == s.runs && s2.next == s.next && s2.workflows == s.workflows
           && s2.desks == s.desks[k := Writing(s.runs[k], status)] by {
      LookReaches(s, k, now);
    }
    assert IsOutcome(status, s.runs[k], s.workflows[k]);
    assert Unconcluded(s2, k);
    OutcomeLands(s2, k);
  }

  lemma OutcomeLands(s: State, k: Key)
    requires Unconcluded(s, k) && k in s.desks && s.desks[k].Writing? && !Stale(s, k)
    requires IsOutcome(s.desks[k].status, s.desks[k].run, s.workflows[k])
    ensures var t := After(s, Write(k)); Settled(t, k) && t.runs[k].status == s.desks[k].status
  {
  }

  // ----- From the beginning

  /** Argo leaves the Workflow of k alone once it has ended. */
  predicate Tame(steps: seq<Step>, k: Key) {
    steps == [] ||
    var before, last := steps[..|steps| - 1], steps[|steps| - 1];
      Tame(before, k) && (last.Progress? && last.key == k ==> Harmless(Execute(START, before), last))
  }

  predicate Harmless(s: State, step: Step)
    requires step.Progress?
  {
    step.key in s.workflows && IsTerminalWorkflowPhase(s.workflows[step.key].phase) ==>
      s.workflows[step.key] == s.workflows[step.key].(phase := step.phase, outputs := step.outputs)
  }

  /** What a reconcile that has looked at a Workflow is about to write. */
  predicate WillWrite(s: State, k: Key, d: Desk)
    requires d.Writing?
  {
    || (StillRunning(d.status, d.run) && !Terminal(d.run.status.phase))
    || (Terminal(d.status.phase) &&
        (k in s.workflows ==>
           IsTerminalWorkflowPhase(s.workflows[k].phase) &&
           d.status == Projected(d.run, Some(s.workflows[k]), d.status.completionTime.GetOr(0.0))))
  }

  predicate HasLooked(s: State, k: Key)
    requires k in s.desks
  {
    k in s.runs && s.desks[k].run == s.runs[k] && !s.runs[k].spec.suspend && s.runs[k].status.workflowRef != ""
  }

  /** Every verdict, persisted or about to be, is about the Workflow that is there now, if there is one. */
  predicate Faithful(s: State, k: Key) {
    && (k in s.runs && Terminal(s.runs[k].status.phase) && k in s.workflows ==>
          IsTerminalWorkflowPhase(s.workflows[k].phase) && Repeats(s.runs[k], s.workflows[k]))
    && (k in s.desks && s.desks[k].Writing? && HasLooked(s, k) ==> WillWrite(s, k, s.desks[k]))
  }

  lemma LookIsFaithful(s: State, k: Key, now: Time)
    requires KeyOk(s, k) && Faithful(s, k) && CanStep(s, Look(k, now))
    ensures Faithful(Apply(s, Look(k, now)), k)
  {
  }

  lemma WriteIsFaithful(s: State, k: Key)
    requires KeyOk(s, k) && Faithful(s, k) && CanStep(s, Write(k))
    ensures Faithful(Apply(s, Write(k)), k)
  {
  }

  lemma StepIsFaithful(s: State, step: Step, k: Key)
    requires KeyOk(s, k) && Faithful(s, k) && CanStep(s, step)
    requires step.Progress? && step.key == k ==> Harmless(s, step)
    ensures Faithful(Apply(s, step), k)
  {
    if step.key != k {
      OthersStay(s, step, k);
    } else if step.Look? {
      LookIsFaithful(s, k, step.now);
    } else if step.Write? {
      WriteIsFaithful(s, k);
    }
  }

  lemma {:induction false} RunIsFaithful(steps: seq<Step>, k: Key)
    requires Tame(steps, k)
    ensures Faithful(Execute(START, steps), k)
  {
    if steps != [] {
      var before, step := steps[..|steps| - 1], steps[|steps| - 1];
      RunIsFaithful(before, k);
      RunKeepsInv(before);
      assert KeyOk(Execute(START, before), k);
      if CanStep(Execute(START, before), step) {
        StepIsFaithful(Execute(START, before), step, k);
      }
    }
  }

  /** In every state that can be reached, a submitted EvalRun whose Workflow has ended is settled or not yet concluded: no
      reconcile under way, however long ago it fetched and looked, can write anything but that Workflow's outcome or an
      outdated Running. */
  lemma {:induction false} EndedIsDecided(steps: seq<Step>, k: Key)
    requires Tame(steps, k) && Ended(Execute(START, steps), k)
    ensures var s := Execute(START, steps); if Terminal(s.runs[k].status.phase) then Settled(s, k) else Unconcluded(s, k)
  {
    RunIsFaithful(steps, k);
    RunKeepsInv(steps);
    DecidedState(Execute(START, steps), k);
  }

  lemma DecidedState(s: State, k: Key)
    requires Inv(s) && Faithful(s, k) && Ended(s, k)
    ensures if Terminal(s.runs[k].status.phase) then Settled(s, k) else Unconcluded(s, k)
  {
    assert KeyOk(s, k);
  }

  /** So over whole runs: after the Workflow has ended, the EvalRun concludes at most once, and then keeps phase, metrics and
      times for good. */
  lemma {:induction false} ConcludesOnce(first: seq<Step>, rest: seq<Step>, k: Key)
    requires Tame(first, k) && Ended(Execute(START, first), k) && AllQuiet(rest, k)
    ensures var s := Execute(START, first); var t := Execute(s, rest);
      && k in t.runs
      && Stampings(s, rest, k) == (if Terminal(s.runs[k].status.phase) || !Terminal(t.runs[k].status.phase) then 0 else 1)
      && (Terminal(s.runs[k].status.phase) ==> SameVerdict(s.runs[k].status, t.runs[k].status))
      && (Terminal(t.runs[k].status.phase) ==> Repeats(t.runs[k], s.workflows[k]))
      && k in t.workflows && t.workflows[k] == s.workflows[k]
  {
    var s := Execute(START, first);
    EndedIsDecided(first, k);
    WorkflowStays(s, rest, k);
    if Terminal(s.runs[k].status.phase) {
      TerminalIsAbsorbing(s, rest, k);
      NoStampOnceSettled(s, rest, k);
    } else {
      CompletionWrittenOnce(s, rest, k);
    }
  }

  lemma {:induction false} WorkflowStays(s: State, steps: seq<Step>, k: Key)
    requires k in s.workflows && AllQuiet(steps, k)
    ensures k in Execute(s, steps).workflows && Execute(s, steps).workflows[k] == s.workflows[k]
  {
    if steps != [] {
      WorkflowStays(s, steps[..|steps| - 1], k);
      var before, step := Execute(s, steps[..|steps| - 1]), steps[|steps| - 1];
      if CanStep(before, step) && step.key != k {
        OthersStay(before, step, k);
      }
    }
  }
}
