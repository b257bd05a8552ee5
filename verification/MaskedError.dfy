/** A run in which a failed Get beside a missing VoiceModel leaves a wrong pipeline status and no wake-up. */
module MaskedError {
  import opened Api
  import opened InferencePipeline
  import opened Wakeups

  const TWO_STAGES := [Stage("stt", "a", None), Stage("diarize", "b", None)]

  /** Stage 0's VoiceModel is missing and stage 1's Get fails. */
  function FailedStatus(p: Pipeline, now: Time): PipelineStatus
    requires p.stages == TWO_STAGES
  {
    Judgement(p.status, p.stages, Rows(p.stages, [NotFound, GetError("x")]), now)
  }

  lemma ReadMissing(s: State, k: Key, p: Pipeline)
    requires p.stages == TWO_STAGES && s.flights == map[k := Reading(p, [])] && Key(k.ns, "a") !in s.models
    ensures After(s, Read(k)) == s.(flights := map[k := Reading(p, [NotFound])])
  {
    var one: seq<Lookup<VoiceModel>> := [NotFound];
    assert s.flights[k].answers + one == one;
    assert After(s, Read(k)) == Answered(s, k, NotFound);
  }

  lemma ReadError(s: State, k: Key, p: Pipeline)
    requires p.stages == TWO_STAGES && s.flights == map[k := Reading(p, [NotFound])]
    ensures After(s, ReadFails(k, "x")) ==
            s.(flights := map[k := Reading(p, [NotFound, GetError("x")])], getFailed := true)
  {
    var both: seq<Lookup<VoiceModel>> := [NotFound, GetError("x")];
    assert s.flights[k].answers + [GetError("x")] == both;
    assert After(s, ReadFails(k, "x")) == Answered(s, k, GetError("x")).(getFailed := true);
  }

  lemma FailedStatusFails(p: Pipeline, now: Time)
    requires p.stages == TWO_STAGES
    ensures FailedStatus(p, now).phase == PipelineFailed
  {
    var answers := [NotFound, GetError("x")];
    assert Enabled(p.stages[0]) && answers[0].NotFound?;
    PhaseMeaning(p.stages, answers);
  }

  lemma FailingCommit(s: State, k: Key, p: Pipeline, now: Time)
    requires p.stages == TWO_STAGES && s.flights == map[k := Reading(p, [NotFound, GetError("x")])]
    requires k in s.pipelines && s.pipelines[k] == p && k !in s.redo
    ensures var status := FailedStatus(p, now);
      After(s, Commit(k, now)) ==
        (if status == p.status then s else Store(s, k, p.(status := status))).(flights := map[])
  {
    FailedStatusFails(p, now);
    CommitOf(s, k, p, [NotFound, GetError("x")], FailedStatus(p, now), now);
    CommitApplies(s, k, now, Committed(s, k, now));
  }

  lemma CommitOf(s: State, k: Key, p: Pipeline, answers: seq<Lookup<VoiceModel>>, status: PipelineStatus, now: Time)
    requires s.flights == map[k := Reading(p, answers)] && |answers| == |p.stages|
    requires k in s.pipelines && s.pipelines[k] == p && k !in s.redo
    requires status == Judgement(p.status, p.stages, Rows(p.stages, answers), now) && status.phase == PipelineFailed
    ensures CanCommit(s, k) && Committed(s, k, now) ==
            (if status == p.status then s else Store(s, k, p.(status := status))).(flights := map[])
  {
    var stored := if status == p.status then s else Store(s, k, p.(status := status));
    assert Committed(s, k, now) == Finish(stored, k, Requeue(status.phase));
    FinishQuietly(stored, k);
  }

  lemma CommitApplies(s: State, k: Key, now: Time, t: State)
    requires CanCommit(s, k) && Committed(s, k, now) == t
    ensures After(s, Commit(k, now)) == t
  {
  }

  lemma FinishQuietly(s: State, k: Key)
    requires s.flights.Keys == {k} && k !in s.redo
    ensures Finish(s, k, Done) == s.(flights := map[])
  {
    assert s.flights - {k} == map[];
    assert s.redo - {k} == s.redo;
  }

  predicate IdleBut(s: State, k: Key) {
    && s.queue == {k} && s.redo == {} && s.flights == map[] && Key(k.ns, "a") !in s.models
    && k in s.pipelines && !s.pipelines[k].deleting && s.pipelines[k].stages == TWO_STAGES
  }

  function FailedOnce(s: State, k: Key, now: Time): State
    requires IdleBut(s, k)
  {
    var p := s.pipelines[k];
    var status := FailedStatus(p, now);
    (if status == p.status then s else Store(s, k, p.(status := status))).(queue := {}, getFailed := true)
  }

  /** A reconcile from an otherwise idle state, with both failures. */
  lemma FailingSteps(s: State, k: Key, now: Time)
    requires IdleBut(s, k)
    ensures var s3 := After(After(After(s, Pick(k)), Fetch(k)), Read(k));
      After(After(s3, ReadFails(k, "x")), Commit(k, now)) == FailedOnce(s, k, now)
  {
    var p := s.pipelines[k];
    var s1 := s.(queue := {}, flights := map[k := Picked]);
    var s2 := s.(queue := {}, flights := map[k := Reading(p, [])]);
    assert After(s, Pick(k)) == s1;
    assert After(s1, Fetch(k)) == s2;
    ReadMissing(s2, k, p);
    var s3 := After(s2, Read(k));
    ReadError(s3, k, p);
    FailingCommit(After(s3, ReadFails(k, "x")), k, p, now);
  }

  lemma {:induction false} FailingPass(steps: seq<Step>, k: Key, now: Time) returns (longer: seq<Step>)
    requires IdleBut(Execute(START, steps), k)
    ensures Execute(START, longer) == FailedOnce(Execute(START, steps), k, now)
  {
    FailingSteps(Execute(START, steps), k, now);
    ExecuteSnoc(START, steps, Pick(k));
    ExecuteSnoc(START, steps + [Pick(k)], Fetch(k));
    longer := steps + [Pick(k)] + [Fetch(k)];
    ExecuteSnoc(START, longer, Read(k));
    ExecuteSnoc(START, longer + [Read(k)], ReadFails(k, "x"));
    longer := longer + [Read(k)] + [ReadFails(k, "x")];
    ExecuteSnoc(START, longer, Commit(k, now));
    longer := longer + [Commit(k, now)];
  }

  lemma BeforeFailing(k: Key, vm: VoiceModel) returns (steps: seq<Step>)
    ensures var p := Pipeline(TWO_STAGES, false, FRESH_PIPELINE_STATUS, 0);
      Execute(START, steps) == State(map[Key(k.ns, "b") := vm], map[k := p], 1, multiset{}, {k}, {}, map[], {}, false)
  {
    var stages := TWO_STAGES;
    var p := Pipeline(stages, false, FRESH_PIPELINE_STATUS, 0);
    var b := Key(k.ns, "b");
    steps := [CreatePipeline(k, stages)];
    ExecuteSnoc(START, [], CreatePipeline(k, stages));
    assert [] + steps == steps;
    var s1 := START.(pipelines := map[k := p], nextVersion := 1, events := multiset{PipelineEvent(k)});
    assert Execute(START, steps) == s1;
    ExecuteSnoc(START, steps, SetModel(b, vm));
    steps := steps + [SetModel(b, vm)];
    var s2 := s1.(models := map[b := vm], events := multiset{PipelineEvent(k), ModelEvent(b)});
    assert Execute(START, steps) == s2;
    ExecuteSnoc(START, steps, Deliver(PipelineEvent(k)));
    steps := steps + [Deliver(PipelineEvent(k))];
    ExecuteSnoc(START, steps, Deliver(ModelEvent(b)));
    steps := steps + [Deliver(ModelEvent(b))];
    BothEvents(s2, k, b);
  }

  lemma BothEvents(s: State, k: Key, b: Key)
    requires s.events == multiset{PipelineEvent(k), ModelEvent(b)} && s.pipelines.Keys == {k}
    requires s.queue == {} && s.redo == {} && s.flights == map[]
    ensures After(After(s, Deliver(PipelineEvent(k))), Deliver(ModelEvent(b))) ==
            s.(events := multiset{}, queue := {k})
  {
    var t := s.(events := multiset{ModelEvent(b)}, queue := {k});
    assert After(s, Deliver(PipelineEvent(k))) == t;
    assert Mapped(s.pipelines, b) <= {k};
  }

  lemma OnlyEvent(s: State, k: Key)
    requires s.events == multiset{PipelineEvent(k)} && s.queue == {} && s.redo == {} && s.flights == map[]
    ensures After(s, Deliver(PipelineEvent(k))) == s.(events := multiset{}, queue := {k})
  {
  }

  lemma ErrorRowIsWrong(t: State, k: Key)
    requires k in t.pipelines
    requires var stages := t.pipelines[k].stages;
      stages == TWO_STAGES
      && t.pipelines[k].status.stages == Rows(stages, [NotFound, GetError("x")])
      && Answer(t, k, stages[1]).Found?
    ensures !Correct(t, k)
  {
    var stages := t.pipelines[k].stages;
    assert t.pipelines[k].status.stages[1].message[0] == 'e';
    assert RowsNow(t, k, stages)[1].message[0] != 'e';
  }

  /** The exception is real: a drained state whose pipeline status is wrong. */
  lemma MaskedHappens(k: Key, vm: VoiceModel) returns (steps: seq<Step>)
    ensures var s := Execute(START, steps); Drained(s) && k in s.pipelines && !s.pipelines[k].deleting && !Correct(s, k)
  {
    assert "a"[0] != "b"[0];
    steps := BeforeFailing(k, vm);
    steps := FailingPass(steps, k, 1.0);
    var s := Execute(START, steps);
    FailedStatusFails(Pipeline(TWO_STAGES, false, FRESH_PIPELINE_STATUS, 0), 1.0);
    assert s.pipelines[k].status.phase == PipelineFailed;
    ExecuteSnoc(START, steps, Deliver(PipelineEvent(k)));
    steps := steps + [Deliver(PipelineEvent(k))];
    OnlyEvent(s, k);
    steps := FailingPass(steps, k, 2.0);
    assert Drained(Execute(START, steps));
    ErrorRowIsWrong(Execute(START, steps), k);
  }
}
