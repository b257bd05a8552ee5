/** The InferencePipeline controller among its watches, work queue and timers, as a step system: no wake-up is lost. */
module Wakeups {
  import opened Api
  import opened InferencePipeline

  datatype Event = PipelineEvent(key: Key) | ModelEvent(key: Key)

  /** A reconcile under way: the object it fetched and the answers of the Gets it has made so far. */
  datatype Flight = Picked | Reading(fetched: Pipeline, answers: seq<Lookup<VoiceModel>>)

  /** The API objects, the undelivered watch events and the rate-limited queue. `redo` holds the keys that were added
      again while in flight; `getFailed` records that some Get of a VoiceModel has failed. */
  datatype State = State(
    models: map<Key, VoiceModel>,
    pipelines: map<Key, Pipeline>,
    nextVersion: nat,
    events: multiset<Event>,
    queue: set<Key>,
    redo: set<Key>,
    flights: map<Key, Flight>,
    timers: set<Key>,
    getFailed: bool)

  const START := State(map[], map[], 0, multiset{}, {}, {}, map[], {}, false)

  datatype Step =
    // anybody's changes to API objects
    | SetModel(model: Key, vm: VoiceModel)
    | DropModel(model: Key)
    | CreatePipeline(key: Key, stages: seq<Stage>)
    | EditPipeline(key: Key, stages: seq<Stage>)
    | MarkDeleting(key: Key)
    | DropPipeline(key: Key)
    // the watches and the work queue
    | Deliver(event: Event)
    | Fire(key: Key)
    | Restart
    // one Reconcile call, Get by Get
    | Pick(key: Key)
    | Fetch(key: Key)
    | FetchFails(key: Key)
    | Read(key: Key)
    | ReadFails(key: Key, text: string)
    | Commit(key: Key, now: Time)
    | CommitFails(key: Key)

  predicate InReading(s: State, k: Key) {
    k in s.flights && s.flights[k].Reading?
  }

  predicate CanRead(s: State, k: Key) {
    InReading(s, k) && |s.flights[k].answers| < |s.flights[k].fetched.stages|
  }

  predicate CanCommit(s: State, k: Key) {
    InReading(s, k) && |s.flights[k].answers| == |s.flights[k].fetched.stages|
  }

  predicate CanStep(s: State, step: Step) {
    match step
    case SetModel(_, _) => true
    case DropModel(m) => m in s.models
    case CreatePipeline(k, _) => k !in s.pipelines
    case EditPipeline(k, _) => k in s.pipelines
    case MarkDeleting(k) => k in s.pipelines
    case DropPipeline(k) => k in s.pipelines
    case Deliver(e) => e in s.events
    case Fire(k) => k in s.timers
    case Restart => true
    case Pick(k) => k in s.queue && k !in s.flights
    case Fetch(k) => k in s.flights && s.flights[k].Picked?
    case FetchFails(k) => k in s.flights && s.flights[k].Picked?
    case Read(k) => CanRead(s, k)
    case ReadFails(k, _) => CanRead(s, k) && Enabled(NextStage(s, k))
    case Commit(k, _) => CanCommit(s, k)
    case CommitFails(k) => CanCommit(s, k)
  }

  function NextStage(s: State, k: Key): Stage
    requires CanRead(s, k)
  {
    s.flights[k].fetched.stages[|s.flights[k].answers|]
  }

  /** workqueue.Add: a key in flight is remembered and queued when its reconcile ends. */
  function Add(s: State, keys: set<Key>): State {
    s.(queue := s.queue + (keys - s.flights.Keys), redo := s.redo + keys * s.flights.Keys)
  }

  /** The end of a Reconcile call: workqueue.Done, with a timer for RequeueAfter and for the back-off after an error. */
  function Finish(s: State, k: Key, result: Result): State {
    s.(flights := s.flights - {k},
       queue := if k in s.redo then s.queue + {k} else s.queue,
       redo := s.redo - {k},
       timers := if result == Done then s.timers else s.timers + {k})
  }

  function Store(s: State, k: Key, p: Pipeline): State {
    s.(pipelines := s.pipelines[k := p.(version := s.nextVersion)],
       nextVersion := s.nextVersion + 1,
       events := s.events + multiset{PipelineEvent(k)})
  }

  function Answer(s: State, k: Key, stage: Stage): Lookup<VoiceModel> {
    LookUp(s.models, Key(k.ns, stage.model))
  }

  function Answered(s: State, k: Key, answer: Lookup<VoiceModel>): State
    requires InReading(s, k)
  {
    var f := s.flights[k];
    s.(flights := s.flights[k := f.(answers := f.answers + [answer])])
  }

  /** The status update: refused when the object has changed since it was fetched; a status that is already stored
      is not a change and raises no event. */
  function Committed(s: State, k: Key, now: Time): State
    requires CanCommit(s, k)
  {
    var p := s.flights[k].fetched;
    if k !in s.pipelines || s.pipelines[k].version != p.version then Finish(s, k, Failure)
    else
      var status := Judgement(p.status, p.stages, Rows(p.stages, s.flights[k].answers), now);
      Finish(if status == p.status then s else Store(s, k, p.(status := status)), k, Requeue(status.phase))
  }

  function Apply(s: State, step: Step): State
    requires CanStep(s, step)
  {
    match step
    case SetModel(m, vm) => s.(models := s.models[m := vm], events := s.events + multiset{ModelEvent(m)})
    case DropModel(m) => s.(models := s.models - {m}, events := s.events + multiset{ModelEvent(m)})
    case CreatePipeline(k, stages) => Store(s, k, Pipeline(stages, false, FRESH_PIPELINE_STATUS, 0))
    case EditPipeline(k, stages) => Store(s, k, s.pipelines[k].(stages := stages))
    case MarkDeleting(k) => Store(s, k, s.pipelines[k].(deleting := true))
    case DropPipeline(k) => s.(pipelines := s.pipelines - {k}, events := s.events + multiset{PipelineEvent(k)})
    case Deliver(e) =>
      var rest := s.(events := s.events - multiset{e});
      Add(rest, match e case PipelineEvent(k) => {k} case ModelEvent(m) => Mapped(s.pipelines, m))
    case Fire(k) => Add(s.(timers := s.timers - {k}), {k})
    case Restart =>
      s.(queue := {}, redo := {}, flights := map[], timers := {},
         events := multiset(set k | k in s.pipelines :: PipelineEvent(k)) +
                   multiset(set m | m in s.models :: ModelEvent(m)))
    case Pick(k) => s.(queue := s.queue - {k}, flights := s.flights[k := Picked])
    case Fetch(k) =>
      if k !in s.pipelines || s.pipelines[k].deleting then Finish(s, k, Done)
      else s.(flights := s.flights[k := Reading(s.pipelines[k], [])])
    case FetchFails(k) => Finish(s, k, Failure)
    case Read(k) => Answered(s, k, Answer(s, k, NextStage(s, k)))
    case ReadFails(k, text) => Answered(s, k, GetError(text)).(getFailed := true)
    case Commit(k, now) => Committed(s, k, now)
    case CommitFails(k) => Finish(s, k, Failure)
  }

  function After(s: State, step: Step): State {
    if CanStep(s, step) then Apply(s, step) else s
  }

  /** Any schedule at all: a step that is not possible is skipped. */
  function Execute(s: State, steps: seq<Step>): State {
    if steps == [] then s else After(Execute(s, steps[..|steps| - 1]), steps[|steps| - 1])
  }

  // ----- What must hold of every pipeline

  function RowsNow(s: State, k: Key, stages: seq<Stage>): seq<StageStatus> {
    seq(|stages|, i requires 0 <= i < |stages| => Row(stages[i], Answer(s, k, stages[i])))
  }

  /** The stored status is what reconcileStages would compute from the VoiceModels as they are now. */
  predicate Correct(s: State, k: Key)
    requires k in s.pipelines
  {
    var p := s.pipelines[k];
    var now := Judgement(p.status, p.stages, RowsNow(s, k, p.stages), 0.0);
    p.status.phase == now.phase && p.status.message == now.message && p.status.stages == now.stages
  }

  /** A wake-up for k is on its way: queued, marked dirty in flight, on a timer, or in an undelivered event. */
  predicate Covered(s: State, k: Key) {
    || k in s.queue || k in s.redo || k in s.timers || PipelineEvent(k) in s.events
    || (k in s.pipelines &&
        exists i :: 0 <= i < |s.pipelines[k].stages| &&
          ModelEvent(Key(k.ns, s.pipelines[k].stages[i].model)) in s.events)
  }

  predicate FetchError(row: StageStatus) {
    FETCH_FAILED <= row.message
  }

  /** The one hole: a Get of a VoiceModel failed while another stage's VoiceModel was missing. */
  predicate Masked(s: State, k: Key)
    requires k in s.pipelines
  {
    var status := s.pipelines[k].status;
    && s.getFailed && status.phase == PipelineFailed
    && exists i :: 0 <= i < |status.stages| && FetchError(status.stages[i])
  }

  predicate AnswerFine(s: State, k: Key, stage: Stage, answer: Lookup<VoiceModel>) {
    (Enabled(stage) && answer.GetError?) || Row(stage, answer) == Row(stage, Answer(s, k, stage))
  }

  /** A reconcile that will not be refused has read only rows that still stand, or will be run again. */
  predicate FlightOk(s: State, k: Key)
    requires InReading(s, k)
  {
    var f := s.flights[k];
    && |f.answers| <= |f.fetched.stages|
    && f.fetched.version < s.nextVersion
    && (forall i :: 0 <= i < |f.answers| && f.answers[i].GetError? ==> s.getFailed)
    && (k in s.pipelines && s.pipelines[k].version == f.fetched.version ==>
        && s.pipelines[k] == f.fetched && !f.fetched.deleting
        && (Covered(s, k) || forall i :: 0 <= i < |f.answers| ==> AnswerFine(s, k, f.fetched.stages[i], f.answers[i])))
  }

  predicate Safe(s: State, k: Key) {
    k in s.pipelines && !s.pipelines[k].deleting ==>
      Correct(s, k) || Covered(s, k) || k in s.flights || Masked(s, k)
  }

  predicate KeyOk(s: State, k: Key) {
    && Safe(s, k)
    && (k in s.pipelines ==> s.pipelines[k].version < s.nextVersion)
    && (InReading(s, k) ==> FlightOk(s, k))
  }

  ghost predicate Inv(s: State) {
    s.redo <= s.flights.Keys && forall k :: KeyOk(s, k)
  }

  // ----- The invariant is kept

  /** The key lemma: a VoiceModel that the map function does not map to a pipeline cannot alter its rows. */
  lemma UnmappedUnaffected(s: State, t: State, k: Key, m: Key, stage: Stage)
    requires k in s.pipelines && stage in s.pipelines[k].stages
    requires forall x :: x != m ==> (x in s.models <==> x in t.models) && (x in s.models ==> s.models[x] == t.models[x])
    requires k !in Mapped(s.pipelines, m)
    ensures Answer(s, k, stage) == Answer(t, k, stage)
  {
    var i :| 0 <= i < |s.pipelines[k].stages| && s.pipelines[k].stages[i] == stage;
    if Key(k.ns, stage.model) == m {
      assert References(s.pipelines[k].stages, m.name);
    }
  }

  /** Nothing that concerns k has changed for the worse. */
  lemma Framed(s: State, t: State, k: Key)
    requires KeyOk(s, k)
    requires k in s.pipelines <==> k in t.pipelines
    requires k in s.pipelines ==> s.pipelines[k] == t.pipelines[k]
    requires k in s.flights <==> k in t.flights
    requires k in s.flights ==> s.flights[k] == t.flights[k]
    requires s.nextVersion <= t.nextVersion && (s.getFailed ==> t.getFailed)
    requires Covered(s, k) ==> Covered(t, k)
    requires k in s.pipelines ==>
               Covered(t, k) || forall stage :: stage in s.pipelines[k].stages ==> Answer(s, k, stage) == Answer(t, k, stage)
    ensures KeyOk(t, k)
  {
    if k in s.pipelines && !Covered(t, k) {
      assert RowsNow(s, k, s.pipelines[k].stages) == RowsNow(t, k, s.pipelines[k].stages);
    }
  }

  lemma ModelStep(s: State, step: Step, k: Key)
    requires KeyOk(s, k) && CanStep(s, step) && (step.SetModel? || step.DropModel?)
    ensures KeyOk(Apply(s, step), k)
  {
    var t, m := Apply(s, step), step.model;
    if k in s.pipelines {
      if k in Mapped(s.pipelines, m) {
        var i :| 0 <= i < |s.pipelines[k].stages| && s.pipelines[k].stages[i].model == m.name;
        assert ModelEvent(Key(k.ns, s.pipelines[k].stages[i].model)) in t.events;
      } else {
        forall stage | stage in s.pipelines[k].stages
          ensures Answer(s, k, stage) == Answer(t, k, stage)
        {
          UnmappedUnaffected(s, t, k, m, stage);
        }
      }
    }
    Framed(s, t, k);
  }

  lemma PipelineStep(s: State, step: Step, k: Key)
    requires KeyOk(s, k) && CanStep(s, step)
    requires step.CreatePipeline? || step.EditPipeline? || step.MarkDeleting? || step.DropPipeline?
    ensures KeyOk(Apply(s, step), k)
  {
    if step.DropPipeline? {
      if k != step.key {
        Framed(s, Apply(s, step), k);
      }
    } else if step.CreatePipeline? {
      StoreStep(s, step.key, Pipeline(step.stages, false, FRESH_PIPELINE_STATUS, 0), k);
    } else if step.EditPipeline? {
      StoreStep(s, step.key, s.pipelines[step.key].(stages := step.stages), k);
    } else {
      StoreStep(s, step.key, s.pipelines[step.key].(deleting := true), k);
    }
  }

  lemma StoreStep(s: State, c: Key, p: Pipeline, k: Key)
    requires KeyOk(s, k)
    ensures KeyOk(Store(s, c, p), k)
  {
    if k != c {
      Framed(s, Store(s, c, p), k);
    }
  }

  lemma QueueStep(s: State, step: Step, k: Key)
    requires KeyOk(s, k) && CanStep(s, step) && (step.Deliver? || step.Fire? || step.Pick?)
    ensures KeyOk(Apply(s, step), k)
  {
    var t := Apply(s, step);
    if !(step.Pick? && k == step.key) {
      if step.Deliver? && step.event.ModelEvent? && k in s.pipelines && k.ns == step.event.key.ns {
        if i :| 0 <= i < |s.pipelines[k].stages| && s.pipelines[k].stages[i].model == step.event.key.name {
          assert k in Mapped(s.pipelines, step.event.key);
        }
      }
      Framed(s, t, k);
    }
  }

  lemma RestartStep(s: State, k: Key)
    requires KeyOk(s, k)
    ensures KeyOk(Apply(s, Restart), k)
  {
    if k in s.pipelines {
      assert PipelineEvent(k) in (set x | x in s.pipelines :: PipelineEvent(x));
      assert PipelineEvent(k) in Apply(s, Restart).events;
    }
  }

  lemma FetchElsewhere(s: State, step: Step, k: Key)
    requires KeyOk(s, k) && CanStep(s, step) && (step.Fetch? || step.FetchFails? || step.CommitFails?) && k != step.key
    ensures KeyOk(Apply(s, step), k)
  {
    Framed(s, Apply(s, step), k);
  }

  lemma FinishHere(s: State, k: Key, result: Result)
    requires KeyOk(s, k) && k in s.flights
    requires k in s.pipelines && !s.pipelines[k].deleting ==> result != Done
    ensures KeyOk(Finish(s, k, result), k)
  {
  }

  lemma FetchStep(s: State, step: Step, k: Key)
    requires KeyOk(s, k) && CanStep(s, step) && (step.Fetch? || step.FetchFails? || step.CommitFails?)
    ensures KeyOk(Apply(s, step), k)
  {
    if k != step.key {
      FetchElsewhere(s, step, k);
    } else if !step.Fetch? {
      FinishHere(s, k, Failure);
    }
  }

  lemma ReadStep(s: State, step: Step, k: Key)
    requires KeyOk(s, k) && CanStep(s, step) && (step.Read? || step.ReadFails?)
    ensures KeyOk(Apply(s, step), k)
  {
    var t := Apply(s, step);
    if k != step.key {
      Framed(s, t, k);
    } else {
      var before, after := s.flights[k], t.flights[k];
      var n := |before.answers|;
      assert Covered(s, k) ==> Covered(t, k);
      forall i | 0 <= i < |after.answers|
        ensures i < n ==> after.answers[i] == before.answers[i]
        ensures forall stage :: AnswerFine(s, k, stage, after.answers[i]) ==> AnswerFine(t, k, stage, after.answers[i])
      {
        assert forall stage :: Answer(s, k, stage) == Answer(t, k, stage);
      }
      assert AnswerFine(t, k, after.fetched.stages[n], after.answers[n]);
      assert FlightOk(t, k);
    }
  }

  /** What an accepted status update writes is right for the VoiceModels as they are now, or a timer is set, or
      it is masked. */
  lemma CommitLands(s: State, k: Key, now: Time)
    requires KeyOk(s, k) && CanCommit(s, k) && !Covered(s, k)
    requires k in s.pipelines && s.pipelines[k].version == s.flights[k].fetched.version
    ensures var t := Committed(s, k, now); k in t.pipelines && (Correct(t, k) || k in t.timers || Masked(t, k))
  {
    var t := Committed(s, k, now);
    var f := s.flights[k];
    var p := f.fetched;
    var rows := Rows(p.stages, f.answers);
    assert t.pipelines[k].status.stages == rows;
    if i :| 0 <= i < |p.stages| && Enabled(p.stages[i]) && f.answers[i].GetError? {
      FetchErrorRetried(p.stages, f.answers, i);
      PhaseMeaning(p.stages, f.answers);
      assert FetchError(rows[i]);
    } else {
      assert rows == RowsNow(t, k, p.stages);
    }
  }

  lemma CommitStep(s: State, k: Key, now: Time)
    requires KeyOk(s, k) && CanCommit(s, k)
    ensures KeyOk(Committed(s, k, now), k)
  {
    if k in s.pipelines && s.pipelines[k].version == s.flights[k].fetched.version && !Covered(s, k) {
      CommitLands(s, k, now);
    }
  }

  lemma CommitElsewhere(s: State, c: Key, now: Time, k: Key)
    requires KeyOk(s, k) && CanCommit(s, c) && c != k
    ensures KeyOk(Committed(s, c, now), k)
  {
    var p := s.flights[c].fetched;
    if c !in s.pipelines || s.pipelines[c].version != p.version {
      FinishElsewhere(s, c, Failure, k);
    } else {
      var status := Judgement(p.status, p.stages, Rows(p.stages, s.flights[c].answers), now);
      var t := if status == p.status then s else Store(s, c, p.(status := status));
      assert KeyOk(t, k) by {
        StoreStep(s, c, p.(status := status), k);
      }
      FinishElsewhere(t, c, Requeue(status.phase), k);
    }
  }

  lemma FinishElsewhere(s: State, c: Key, result: Result, k: Key)
    requires KeyOk(s, k) && c != k
    ensures KeyOk(Finish(s, c, result), k)
  {
    Framed(s, Finish(s, c, result), k);
  }

  predicate IsReconcile(step: Step) {
    step.Fetch? || step.FetchFails? || step.Read? || step.ReadFails? || step.Commit? || step.CommitFails?
  }

  lemma OutsideStep(s: State, step: Step, k: Key)
    requires KeyOk(s, k) && CanStep(s, step) && !IsReconcile(step)
    ensures KeyOk(Apply(s, step), k)
  {
    if step.SetModel? || step.DropModel? {
      ModelStep(s, step, k);
    } else if step.Deliver? || step.Fire? || step.Pick? {
      QueueStep(s, step, k);
    } else if step.Restart? {
      RestartStep(s, k);
    } else {
      PipelineStep(s, step, k);
    }
  }

  lemma ReconcileStep(s: State, step: Step, k: Key)
    requires KeyOk(s, k) && CanStep(s, step) && IsReconcile(step)
    ensures KeyOk(Apply(s, step), k)
  {
    if step.Commit? {
      if step.key == k {
        CommitStep(s, k, step.now);
      } else {
        CommitElsewhere(s, step.key, step.now, k);
      }
    } else if step.Read? || step.ReadFails? {
      ReadStep(s, step, k);
    } else {
      FetchStep(s, step, k);
    }
  }

  lemma StepKeepsInv(s: State, step: Step)
    requires Inv(s) && CanStep(s, step)
    ensures Inv(Apply(s, step))
  {
    forall k ensures KeyOk(Apply(s, step), k) {
      assert KeyOk(s, k);
      if IsReconcile(step) {
        ReconcileStep(s, step, k);
      } else {
        OutsideStep(s, step, k);
      }
    }
  }

  lemma {:induction false} RunKeepsInv(steps: seq<Step>)
    ensures Inv(Execute(START, steps))
  {
    if steps != [] {
      var before, step := steps[..|steps| - 1], steps[|steps| - 1];
      RunKeepsInv(before);
      if CanStep(Execute(START, before), step) {
        StepKeepsInv(Execute(START, before), step);
      }
    }
  }

  // ----- Main results

  /** The reconcile in flight for k will write a status that stands, or be refused and run again. */
  predicate FlightWillDo(s: State, k: Key)
    requires k in s.pipelines
  {
    && k in s.flights
    && var f := s.flights[k];
      || f.Picked?
      || f.fetched.version != s.pipelines[k].version
      || (f.fetched == s.pipelines[k] && |f.answers| <= |f.fetched.stages| &&
          forall i :: 0 <= i < |f.answers| ==> AnswerFine(s, k, f.fetched.stages[i], f.answers[i]))
  }

  /** In every reachable state, a pipeline whose stored status is not what reconcileStages would compute now has a
      wake-up on its way or a reconcile in flight that has read nothing stale; the only exception is a masked error. */
  lemma {:induction false} NoLostWakeUp(steps: seq<Step>, k: Key)
    ensures var s := Execute(START, steps);
      k in s.pipelines && !s.pipelines[k].deleting ==>
        Correct(s, k) || Covered(s, k) || FlightWillDo(s, k) || Masked(s, k)
  {
    RunKeepsInv(steps);
    var s := Execute(START, steps);
    assert KeyOk(s, k);
  }

  predicate Drained(s: State) {
    s.queue == {} && s.flights == map[] && s.timers == {} && s.events == multiset{}
  }

  /** A row computed from the VoiceModels as they are never reports a fetch error. */
  lemma NoErrorNow(s: State, k: Key, stages: seq<Stage>, i: nat)
    requires i < |stages|
    ensures !FetchError(RowsNow(s, k, stages)[i])
  {
    assert RowsNow(s, k, stages)[i].message[0] != FETCH_FAILED[0];
  }

  /** Once the queue has drained a status is correct exactly when it is not masked; so without a failed Get all are. */
  lemma DrainedIsCorrect(steps: seq<Step>, k: Key)
    requires var s := Execute(START, steps); Drained(s) && k in s.pipelines && !s.pipelines[k].deleting
    ensures var s := Execute(START, steps); Correct(s, k) <==> !Masked(s, k)
    ensures var s := Execute(START, steps); !s.getFailed ==> Correct(s, k)
  {
    RunKeepsInv(steps);
    var s := Execute(START, steps);
    assert KeyOk(s, k);
    forall i | 0 <= i < |s.pipelines[k].stages|
      ensures !FetchError(RowsNow(s, k, s.pipelines[k].stages)[i])
    {
      NoErrorNow(s, k, s.pipelines[k].stages, i);
    }
  }

  /** A correct status is a fixed point: reconciling it again writes nothing and raises no event. */
  lemma CorrectIsQuiet(s: State, k: Key, now: Time)
    requires CanCommit(s, k) && k in s.pipelines && s.pipelines[k] == s.flights[k].fetched && Correct(s, k)
    requires forall i :: 0 <= i < |s.pipelines[k].stages| ==>
               s.flights[k].answers[i] == Answer(s, k, s.pipelines[k].stages[i])
    ensures var t := Committed(s, k, now); t.pipelines == s.pipelines && t.events == s.events
  {
    var p := s.pipelines[k];
    assert Rows(p.stages, s.flights[k].answers) == RowsNow(s, k, p.stages);
  }

  /** One reconcile with nothing in between: fetch, a Get per stage, status update. */
  function OnePass(k: Key, stages: nat, now: Time): seq<Step> {
    [Fetch(k)] + seq(stages, _ => Read(k)) + [Commit(k, now)]
  }

  lemma {:induction false} ReadsAnswer(s: State, k: Key, n: nat)
    requires k in s.flights && s.flights[k].Picked? && k in s.pipelines && !s.pipelines[k].deleting
    requires n <= |s.pipelines[k].stages|
    ensures var t := Execute(s, [Fetch(k)] + seq(n, _ => Read(k)));
      && t.pipelines == s.pipelines && t.models == s.models && InReading(t, k)
      && t.flights[k].fetched == s.pipelines[k] && |t.flights[k].answers| == n
      && forall i :: 0 <= i < n ==> t.flights[k].answers[i] == Answer(s, k, s.pipelines[k].stages[i])
  {
    var steps := [Fetch(k)] + seq(n, _ => Read(k));
    if n == 0 {
      assert steps == [Fetch(k)] && steps[..0] == [];
      assert Execute(s, steps[..0]) == s;
    } else {
      ReadsAnswer(s, k, n - 1);
      assert steps[..|steps| - 1] == [Fetch(k)] + seq(n - 1, _ => Read(k));
      assert steps[|steps| - 1] == Read(k);
      OneMoreAnswer(s, Execute(s, steps[..|steps| - 1]), k, n - 1);
    }
  }

  lemma OneMoreAnswer(s: State, t: State, k: Key, n: nat)
    requires k in s.pipelines && n < |s.pipelines[k].stages| && t.models == s.models
    requires InReading(t, k) && t.flights[k].fetched == s.pipelines[k] && |t.flights[k].answers| == n
    requires forall i :: 0 <= i < n ==> t.flights[k].answers[i] == Answer(s, k, s.pipelines[k].stages[i])
    ensures var u := After(t, Read(k));
      && u.pipelines == t.pipelines && u.models == s.models && InReading(u, k)
      && u.flights[k].fetched == s.pipelines[k] && |u.flights[k].answers| == n + 1
      && forall i :: 0 <= i <= n ==> u.flights[k].answers[i] == Answer(s, k, s.pipelines[k].stages[i])
  {
  }

  /** From whatever status, one undisturbed reconcile makes the status correct. */
  lemma OnePassCorrects(s: State, k: Key, now: Time)
    requires k in s.flights && s.flights[k].Picked? && k in s.pipelines && !s.pipelines[k].deleting
    ensures var t := Execute(s, OnePass(k, |s.pipelines[k].stages|, now)); k in t.pipelines && Correct(t, k)
  {
    var n := |s.pipelines[k].stages|;
    var steps := OnePass(k, n, now);
    var before := [Fetch(k)] + seq(n, _ => Read(k));
    assert steps[..|steps| - 1] == before;
    ReadsAnswer(s, k, n);
    FreshCommit(s, Execute(s, before), k, now);
  }

  /** A commit of answers that are all up to date. */
  lemma FreshCommit(s: State, t: State, k: Key, now: Time)
    requires k in s.pipelines && t.pipelines == s.pipelines && t.models == s.models
    requires InReading(t, k) && t.flights[k].fetched == s.pipelines[k]
    requires |t.flights[k].answers| == |s.pipelines[k].stages|
    requires forall i :: 0 <= i < |s.pipelines[k].stages| ==>
               t.flights[k].answers[i] == Answer(s, k, s.pipelines[k].stages[i])
    ensures var u := After(t, Commit(k, now)); k in u.pipelines && Correct(u, k)
  {
    var p := s.pipelines[k];
    var u := Committed(t, k, now);
    assert After(t, Commit(k, now)) == u;
    assert Rows(p.stages, t.flights[k].answers) == RowsNow(u, k, p.stages);
  }

  lemma ExecuteSnoc(s: State, steps: seq<Step>, step: Step)
    ensures Execute(s, steps + [step]) == After(Execute(s, steps), step)
  {
    assert (steps + [step])[..|steps|] == steps;
  }
}
