/** operator/internal/controller/inferencepipeline_controller.go: one reconcile of an InferencePipeline. */
module InferencePipeline {
  import opened Api
  import opened Text

  const MODEL_MISSING := "VoiceModel not found"
  const FETCH_FAILED := "error fetching VoiceModel: "
  const REQUEUE_SECONDS := 10

  predicate Enabled(stage: Stage) {
    stage.enabled.None? || stage.enabled.value
  }

  function PhaseText(phase: ModelPhase): string {
    match phase
    case NoPhase => "Pending"
    case Pending => "Pending"
    case Deploying => "Deploying"
    case Ready => "Ready"
    case Failed => "Failed"
    case Terminating => "Terminating"
  }

  /** The status of an enabled stage, given what the Get of its VoiceModel returned. */
  function ResolveStage(stage: Stage, answer: Lookup<VoiceModel>): StageStatus {
    var blank := StageStatus(stage.name, stage.model, false, "", "");
    match answer
    case NotFound => blank.(message := MODEL_MISSING)
    case GetError(text) => blank.(message := FETCH_FAILED + text)
    case Found(vm) =>
      if vm.status.phase == Ready then
        blank.(ready := true, endpoint := vm.status.endpoint, message := "ready")
      else
        blank.(message := "VoiceModel phase: " + PhaseText(vm.status.phase))
  }

  /** One row of the status: a disabled stage is reported without looking at its VoiceModel. */
  function Row(stage: Stage, answer: Lookup<VoiceModel>): StageStatus {
    if Enabled(stage) then ResolveStage(stage, answer)
    else StageStatus(stage.name, stage.model, false, "", "stage disabled")
  }

  function Rows(stages: seq<Stage>, answers: seq<Lookup<VoiceModel>>): seq<StageStatus>
    requires |stages| == |answers|
  {
    seq(|stages|, i requires 0 <= i < |stages| => Row(stages[i], answers[i]))
  }

  // ----- The verdict over all rows, in set form: no counters, no order

  datatype Judged = Judged(stage: Stage, row: StageStatus)

  function Judge(stages: seq<Stage>, rows: seq<StageStatus>): seq<Judged>
    requires |stages| == |rows|
  {
    seq(|stages|, i requires 0 <= i < |stages| => Judged(stages[i], rows[i]))
  }

  predicate Counts(j: Judged) { Enabled(j.stage) }

  predicate IsReady(j: Judged) { Enabled(j.stage) && j.row.ready }

  predicate IsMissing(j: Judged) { Enabled(j.stage) && j.row.message == MODEL_MISSING }

  function PhaseOf(js: seq<Judged>): PipelinePhase {
    if Seen(js, IsMissing) then PipelineFailed
    else if forall j :: j in js && Counts(j) ==> IsReady(j) then PipelineReady
    else if Seen(js, IsReady) then PipelineDegraded
    else PipelineValidating
  }

  function Tally(js: seq<Judged>, p: Judged -> bool): nat {
    if js == [] then 0 else Tally(js[..|js| - 1], p) + if p(js[|js| - 1]) then 1 else 0
  }

  function MessageOf(js: seq<Judged>): string {
    var ready, enabled := Tally(js, IsReady), Tally(js, Counts);
    if Seen(js, IsMissing) then "one or more referenced VoiceModels do not exist"
    else if enabled == 0 then "no enabled stages"
    else if PhaseOf(js) == PipelineValidating then
      "0/" + Decimal(enabled) + " stages ready, waiting for VoiceModels"
    else Decimal(ready) + "/" + Decimal(enabled) + " stages ready"
  }

  predicate Seen(js: seq<Judged>, p: Judged -> bool) {
    exists j :: j in js && p(j)
  }

  /** The status that setPipelineStatus leaves in the object. */
  function Judgement(before: PipelineStatus, stages: seq<Stage>, rows: seq<StageStatus>, now: Time): PipelineStatus
    requires |stages| == |rows|
  {
    var js := Judge(stages, rows);
    PipelineStatus(PhaseOf(js), MessageOf(js), rows,
                   if before.phase != PhaseOf(js) then Some(now) else before.lastTransition)
  }

  function Requeue(phase: PipelinePhase): Result {
    if phase != PipelineReady && phase != PipelineFailed then RequeueAfter(REQUEUE_SECONDS) else Done
  }

  lemma TallyStep(js: seq<Judged>, k: nat, p: Judged -> bool)
    requires k < |js|
    ensures Tally(js[..k + 1], p) == Tally(js[..k], p) + if p(js[k]) then 1 else 0
  {
    assert js[..k + 1][..k] == js[..k];
  }

  lemma SeenStep(js: seq<Judged>, k: nat, p: Judged -> bool)
    requires k < |js|
    ensures Seen(js[..k + 1], p) <==> Seen(js[..k], p) || p(js[k])
  {
    assert forall j :: j in js[..k + 1] <==> j in js[..k] || j == js[k];
  }

  lemma {:induction false} TallyBounds(js: seq<Judged>)
    ensures Tally(js, IsReady) <= Tally(js, Counts) <= |js|
    ensures Tally(js, IsReady) == Tally(js, Counts) <==> forall j :: j in js && Counts(j) ==> IsReady(j)
    ensures Tally(js, IsReady) > 0 <==> Seen(js, IsReady)
  {
    if js != [] {
      var n := |js| - 1;
      TallyBounds(js[..n]);
      assert forall j :: j in js <==> j in js[..n] || j == js[n];
      assert js[n] in js;
    }
  }

  /** The verdict by counting. */
  lemma CountersDecide(js: seq<Judged>)
    ensures var ready, enabled := Tally(js, IsReady), Tally(js, Counts);
      PhaseOf(js) ==
      if Seen(js, IsMissing) then PipelineFailed
      else if enabled == 0 || ready == enabled then PipelineReady
      else if ready > 0 then PipelineDegraded
      else PipelineValidating
  {
    TallyBounds(js);
  }

  // ----- The controller code

  /** The API object as reconcileStages holds it. */
  class PipelineObject {
    const stages: seq<Stage>
    var status: PipelineStatus

    constructor (stages: seq<Stage>, status: PipelineStatus)
      ensures this.stages == stages && this.status == status
    {
      this.stages, this.status := stages, status;
    }
  }

  /** setPipelineStatus; `accepted` says whether the API server took the status update. */
  method SetPipelineStatus(
    pipeline: PipelineObject, phase: PipelinePhase, message: string, rows: seq<StageStatus>, now: Time, accepted: bool)
    returns (result: Result)
    modifies pipeline
    ensures pipeline.status.phase == phase && pipeline.status.message == message && pipeline.status.stages == rows
    ensures pipeline.status.lastTransition ==
            if old(pipeline.status.phase) != phase then Some(now) else old(pipeline.status.lastTransition)
    ensures result == if accepted then Requeue(phase) else Failure
    ensures accepted ==> result == if phase in {PipelineReady, PipelineFailed} then Done else RequeueAfter(10)
  {
    if pipeline.status.phase != phase {
      pipeline.status := pipeline.status.(lastTransition := Some(now));
    }
    pipeline.status := pipeline.status.(phase := phase);
    pipeline.status := pipeline.status.(message := message);
    pipeline.status := pipeline.status.(stages := rows);
    if !accepted {
      return Failure;
    }
    if phase != PipelineReady && phase != PipelineFailed {
      return RequeueAfter(REQUEUE_SECONDS);
    }
    return Done;
  }

  /** reconcileStages: `answers[i]` is what a Get of stage i's VoiceModel returns at the moment of that iteration. */
  method ReconcileStages(
    pipeline: PipelineObject, answers: seq<Lookup<VoiceModel>>, now: Time, accepted: bool)
    returns (result: Result)
    requires |answers| == |pipeline.stages|
    modifies pipeline
    ensures pipeline.status == Judgement(old(pipeline.status), pipeline.stages, Rows(pipeline.stages, answers), now)
    ensures result == if accepted then Requeue(pipeline.status.phase) else Failure
    ensures accepted ==> result == if pipeline.status.phase in {PipelineReady, PipelineFailed} then Done else RequeueAfter(10)
  {
    var stages := pipeline.stages;
    var rows: seq<StageStatus> := [];
    var readyCount, enabledCount, hasMissing := 0, 0, false;
    ghost var all := Rows(stages, answers);
    ghost var js := Judge(stages, all);
    for i := 0 to |stages|
      invariant rows == all[..i]
      invariant readyCount == Tally(js[..i], IsReady)
      invariant enabledCount == Tally(js[..i], Counts)
      invariant hasMissing <==> Seen(js[..i], IsMissing)
      invariant pipeline.status == old(pipeline.status)
    {
      TallyStep(js, i, IsReady);
      TallyStep(js, i, Counts);
      SeenStep(js, i, IsMissing);
      if !Enabled(stages[i]) {
        rows := rows + [StageStatus(stages[i].name, stages[i].model, false, "", "stage disabled")];
      } else {
        enabledCount := enabledCount + 1;
        var status := ResolveStage(stages[i], answers[i]);
        rows := rows + [status];
        if status.ready {
          readyCount := readyCount + 1;
        }
        if status.message == MODEL_MISSING {
          hasMissing := true;
        }
      }
    }
    assert js[..|stages|] == js && all[..|stages|] == all;
    CountersDecide(js);
    var phase, message;
    if hasMissing {
      phase, message := PipelineFailed, "one or more referenced VoiceModels do not exist";
    } else if enabledCount == 0 {
      phase, message := PipelineReady, "no enabled stages";
    } else if readyCount == enabledCount {
      phase, message := PipelineReady, Decimal(readyCount) + "/" + Decimal(enabledCount) + " stages ready";
    } else if readyCount > 0 {
      phase, message := PipelineDegraded, Decimal(readyCount) + "/" + Decimal(enabledCount) + " stages ready";
    } else {
      phase, message := PipelineValidating,
        "0/" + Decimal(enabledCount) + " stages ready, waiting for VoiceModels";
    }
    result := SetPipelineStatus(pipeline, phase, message, rows, now, accepted);
  }

  // ----- What the verdict means

  ghost predicate EnabledMissing(stages: seq<Stage>, answers: seq<Lookup<VoiceModel>>)
    requires |stages| == |answers|
  {
    exists i :: 0 <= i < |stages| && Enabled(stages[i]) && answers[i].NotFound?
  }

  predicate ModelReady(answer: Lookup<VoiceModel>) {
    answer.Found? && answer.item.status.phase == Ready
  }

  ghost predicate AllEnabledReady(stages: seq<Stage>, answers: seq<Lookup<VoiceModel>>)
    requires |stages| == |answers|
  {
    forall i :: 0 <= i < |stages| && Enabled(stages[i]) ==> ModelReady(answers[i])
  }

  ghost predicate SomeEnabledReady(stages: seq<Stage>, answers: seq<Lookup<VoiceModel>>)
    requires |stages| == |answers|
  {
    exists i :: 0 <= i < |stages| && Enabled(stages[i]) && ModelReady(answers[i])
  }

  /** The three message forms never collide, so the comparison of texts finds exactly the absent VoiceModels. */
  lemma RowReadsBack(stage: Stage, answer: Lookup<VoiceModel>)
    ensures Enabled(stage) ==> (Row(stage, answer).message == MODEL_MISSING <==> answer.NotFound?)
    ensures Enabled(stage) ==> (Row(stage, answer).ready <==> ModelReady(answer))
    ensures !Enabled(stage) ==> !Row(stage, answer).ready
  {
    var row := Row(stage, answer);
    if Enabled(stage) && answer.GetError? {
      assert row.message[0] == 'e' && MODEL_MISSING[0] == 'V';
    } else if Enabled(stage) && answer.Found? && !row.ready {
      assert row.message[11] == 'p' && MODEL_MISSING[11] == 'n';
    } else if Enabled(stage) && answer.Found? {
      assert |row.message| == 5;
    }
  }

  /** The phase in terms of the VoiceModels themselves, and the length and order of the status list. */
  lemma PhaseMeaning(stages: seq<Stage>, answers: seq<Lookup<VoiceModel>>)
    requires |stages| == |answers|
    ensures var rows := Rows(stages, answers); var phase := PhaseOf(Judge(stages, rows));
      && (phase == PipelineFailed <==> EnabledMissing(stages, answers))
      && (!EnabledMissing(stages, answers) ==>
        && (phase == PipelineReady <==> AllEnabledReady(stages, answers))
        && (phase == PipelineDegraded <==> SomeEnabledReady(stages, answers) && !AllEnabledReady(stages, answers))
        && (phase == PipelineValidating <==> !SomeEnabledReady(stages, answers) && !AllEnabledReady(stages, answers)))
      && |rows| == |stages|
      && forall i :: 0 <= i < |stages| ==> rows[i].name == stages[i].name && rows[i].modelRef == stages[i].model
  {
    var js := Judge(stages, Rows(stages, answers));
    forall i | 0 <= i < |stages|
      ensures js[i] in js && (IsMissing(js[i]) <==> Enabled(stages[i]) && answers[i].NotFound?)
      ensures IsReady(js[i]) <==> Enabled(stages[i]) && ModelReady(answers[i])
    {
      RowReadsBack(stages[i], answers[i]);
    }
    assert forall j :: j in js ==> exists i :: 0 <= i < |stages| && js[i] == j;
  }

  /** The rows in terms of what the Gets returned. */
  lemma RowMeans(stage: Stage, answer: Lookup<VoiceModel>)
    ensures var row := Row(stage, answer);
      && row.name == stage.name && row.modelRef == stage.model
      && (row.ready <==> stage.enabled != Some(false) && ModelReady(answer))
      && row.endpoint == (if row.ready then answer.item.status.endpoint else "")
      && (stage.enabled == Some(false) ==> row.message == "stage disabled")
      && (stage.enabled != Some(false) ==>
            && (answer.NotFound? ==> row.message == "VoiceModel not found")
            && (answer.GetError? ==> row.message == "error fetching VoiceModel: " + answer.text)
            && (row.ready ==> row.message == "ready")
            && (answer.Found? && answer.item.status.phase in {NoPhase, Pending} ==> row.message == "VoiceModel phase: Pending")
            && (answer.Found? && answer.item.status.phase == Deploying ==> row.message == "VoiceModel phase: Deploying")
            && (answer.Found? && answer.item.status.phase == Failed ==> row.message == "VoiceModel phase: Failed")
            && (answer.Found? && answer.item.status.phase == Terminating ==> row.message == "VoiceModel phase: Terminating"))
  {
  }

  function Where(js: seq<Judged>, p: Judged -> bool): set<int> {
    set i | 0 <= i < |js| && p(js[i])
  }

  lemma {:induction false} TallyIsSize(js: seq<Judged>, p: Judged -> bool)
    ensures Tally(js, p) == |Where(js, p)|
  {
    if js != [] {
      var n := |js| - 1;
      TallyIsSize(js[..n], p);
      assert Where(js, p) == Where(js[..n], p) + (if p(js[n]) then {n} else {});
    }
  }

  /** The two figures at the start of a message, before and after the slash. */
  function Figures(message: string): (int, int) {
    var parts := Split(message, '/');
    (ReadDecimal(parts[0]), if |parts| < 2 then 0 else ReadDecimal(Split(parts[1], ' ')[0]))
  }

  lemma SplitAtSlash(x: string, tail: string)
    requires '/' !in x && '/' !in tail
    ensures Split(x + "/" + tail, '/') == [x, tail]
  {
    SplitPrefix(x, tail, '/');
    SplitPrefix(tail, "", '/');
  }

  lemma FirstWord(y: string, rest: string)
    requires ' ' !in y && rest != "" && rest[0] == ' '
    ensures Split(y + rest, ' ')[0] == y
  {
    assert y + rest == y + [' '] + rest[1..];
    SplitPrefix(y, rest[1..], ' ');
  }

  lemma NoSeparators(n: nat)
    ensures '/' !in Decimal(n) && ' ' !in Decimal(n) && ReadDecimal(Decimal(n)) == n
  {
    DecimalReads(n);
  }

  lemma FiguresRead(m: nat, n: nat, rest: string)
    requires rest != "" && rest[0] == ' ' && '/' !in rest
    ensures Figures(Decimal(m) + "/" + Decimal(n) + rest) == (m, n)
  {
    NoSeparators(m);
    NoSeparators(n);
    var x, y := Decimal(m), Decimal(n);
    Regroup(x + "/", y, rest);
    SplitAtSlash(x, y + rest);
    FirstWord(y, rest);
  }

  lemma ZeroFirst(zero: string, n: string, rest: string)
    requires zero == Decimal(0)
    ensures "0/" + n + rest == zero + "/" + n + rest
  {
    assert zero + "/" == "0/";
  }

  const STAGES_READY := " stages ready"
  const STAGES_WAITING := " stages ready, waiting for VoiceModels"

  lemma EndingsAreText()
    ensures STAGES_READY[0] == ' ' == STAGES_WAITING[0] && '/' !in STAGES_READY && '/' !in STAGES_WAITING
  {
  }

  lemma MessageForms(js: seq<Judged>, ready: nat, enabled: nat)
    requires ready == Tally(js, IsReady) && enabled == Tally(js, Counts) > 0 && !Seen(js, IsMissing)
    ensures MessageOf(js) == Decimal(ready) + "/" + Decimal(enabled) + if ready > 0 then STAGES_READY else STAGES_WAITING
  {
    TallyBounds(js);
    assert PhaseOf(js) == PipelineValidating <==> ready == 0;
    if ready == 0 {
      ZeroFirst(Decimal(ready), Decimal(enabled), STAGES_WAITING);
    }
  }

  function EnabledAt(stages: seq<Stage>): set<int> {
    set i | 0 <= i < |stages| && stages[i].enabled != Some(false)
  }

  function ReadyAt(stages: seq<Stage>, answers: seq<Lookup<VoiceModel>>): set<int>
    requires |stages| == |answers|
  {
    set i | 0 <= i < |stages| && stages[i].enabled != Some(false) && ModelReady(answers[i])
  }

  lemma SameStages(stages: seq<Stage>, answers: seq<Lookup<VoiceModel>>, js: seq<Judged>)
    requires |stages| == |answers| && js == Judge(stages, Rows(stages, answers))
    ensures Where(js, IsReady) == ReadyAt(stages, answers) && Where(js, Counts) == EnabledAt(stages)
  {
    forall i | 0 <= i < |stages| ensures IsReady(js[i]) <==> i in ReadyAt(stages, answers) {
      RowReadsBack(stages[i], answers[i]);
    }
  }

  /** The message tells whether an enabled stage's VoiceModel is absent, and else how many of the enabled stages are ready. */
  lemma MessageMeans(stages: seq<Stage>, answers: seq<Lookup<VoiceModel>>, js: seq<Judged>)
    requires |stages| == |answers| && js == Judge(stages, Rows(stages, answers))
    ensures EnabledMissing(stages, answers) ==> MessageOf(js) == "one or more referenced VoiceModels do not exist"
    ensures !EnabledMissing(stages, answers) && EnabledAt(stages) == {} ==> MessageOf(js) == "no enabled stages"
    ensures !EnabledMissing(stages, answers) && EnabledAt(stages) != {} ==>
              Figures(MessageOf(js)) == (|ReadyAt(stages, answers)|, |EnabledAt(stages)|)
  {
    assert Seen(js, IsMissing) <==> EnabledMissing(stages, answers) by {
      PhaseMeaning(stages, answers);
    }
    var ready, enabled := Tally(js, IsReady), Tally(js, Counts);
    assert ready == |ReadyAt(stages, answers)| && enabled == |EnabledAt(stages)| by {
      SameStages(stages, answers, js);
      TallyIsSize(js, IsReady);
      TallyIsSize(js, Counts);
    }
    if !Seen(js, IsMissing) && enabled > 0 {
      MessageForms(js, ready, enabled);
      EndingsAreText();
      FiguresRead(ready, enabled, if ready > 0 then STAGES_READY else STAGES_WAITING);
    }
  }

  lemma {:induction false} TallyConcat(a: seq<Judged>, b: seq<Judged>, p: Judged -> bool)
    ensures Tally(a + b, p) == Tally(a, p) + Tally(b, p)
  {
    if b == [] {
      assert a + b == a;
    } else {
      var n := |b| - 1;
      assert (a + b)[..|a + b| - 1] == a + b[..n];
      TallyConcat(a, b[..n], p);
    }
  }

  lemma {:induction false} TallyPermuted(js: seq<Judged>, ks: seq<Judged>, p: Judged -> bool)
    requires multiset(js) == multiset(ks)
    ensures Tally(js, p) == Tally(ks, p)
  {
    if js == [] {
      assert |multiset(ks)| == 0;
    } else {
      var n := |js| - 1;
      var a, b := WithoutLast(js, ks);
      TallyPermuted(js[..n], a + b, p);
      TallyInsert(a, js[n], b, p);
    }
  }

  /** Takes the last element of js out of its permutation ks. */
  lemma WithoutLast(js: seq<Judged>, ks: seq<Judged>) returns (a: seq<Judged>, b: seq<Judged>)
    requires js != [] && multiset(js) == multiset(ks)
    ensures var n := |js| - 1; ks == a + [js[n]] + b && multiset(js[..n]) == multiset(a + b)
  {
    var x := js[|js| - 1];
    assert x in multiset(ks);
    var k :| 0 <= k < |ks| && ks[k] == x;
    a, b := ks[..k], ks[k + 1..];
    assert ks == a + [x] + b;
    MiddleOut(a, x, b);
    LastOut(js);
  }

  lemma MiddleOut(a: seq<Judged>, x: Judged, b: seq<Judged>)
    ensures multiset(a + [x] + b) - multiset{x} == multiset(a + b)
  {
  }

  lemma LastOut(js: seq<Judged>)
    requires js != []
    ensures multiset(js) - multiset{js[|js| - 1]} == multiset(js[..|js| - 1])
  {
    assert js == js[..|js| - 1] + [js[|js| - 1]];
  }

  lemma TallyInsert(a: seq<Judged>, x: Judged, b: seq<Judged>, p: Judged -> bool)
    ensures Tally(a + [x] + b, p) == Tally(a + b, p) + if p(x) then 1 else 0
  {
    TallyConcat(a, [x], p);
    TallyConcat(a + [x], b, p);
    TallyConcat(a, b, p);
    assert Tally([x], p) == if p(x) then 1 else 0;
  }

  /** Phase and message depend on the stages and their rows, not on the order in which the loop meets them. */
  lemma OrderIrrelevant(js: seq<Judged>, ks: seq<Judged>)
    requires multiset(js) == multiset(ks)
    ensures PhaseOf(js) == PhaseOf(ks) && MessageOf(js) == MessageOf(ks)
  {
    assert forall j :: j in js <==> j in multiset(js);
    assert forall j :: j in ks <==> j in multiset(ks);
    TallyPermuted(js, ks, IsReady);
    TallyPermuted(js, ks, Counts);
  }

  /** A failed Get of an enabled stage's VoiceModel is retried by the timer exactly when no other enabled stage's
      VoiceModel is missing: a missing one hides the error behind the phase Failed, which has no timer. */
  lemma FetchErrorRetried(stages: seq<Stage>, answers: seq<Lookup<VoiceModel>>, i: nat)
    requires |stages| == |answers| && i < |stages| && Enabled(stages[i]) && answers[i].GetError?
    ensures Requeue(PhaseOf(Judge(stages, Rows(stages, answers)))) == RequeueAfter(REQUEUE_SECONDS)
            <==> !EnabledMissing(stages, answers)
  {
    PhaseMeaning(stages, answers);
    assert !ModelReady(answers[i]);
  }

  // ----- The watch on VoiceModels

  predicate References(stages: seq<Stage>, model: string) {
    exists i :: 0 <= i < |stages| && stages[i].model == model
  }

  /** The requests for a changed VoiceModel: every pipeline of its namespace that names it, disabled stages included. */
  function Mapped(pipelines: map<Key, Pipeline>, vm: Key): set<Key> {
    set k | k in pipelines && k.ns == vm.ns && References(pipelines[k].stages, vm.name)
  }

  /** mapVoiceModelToPipelines; `listed` is what List returned for the VoiceModel's namespace, None for an error, which drops
      the event. */
  method MapVoiceModelToPipelines(pipelines: map<Key, Pipeline>, listed: Option<seq<Key>>, vm: Key)
    returns (requests: seq<Key>)
    requires listed.Some? ==>
      && (forall k :: k in listed.value <==> k in pipelines && k.ns == vm.ns)
      && forall i, j :: 0 <= i < j < |listed.value| ==> listed.value[i] != listed.value[j]
    ensures listed.None? ==> requests == []
    ensures listed.Some? ==> forall k :: k in requests <==> k in Mapped(pipelines, vm)
    ensures forall i, j :: 0 <= i < j < |requests| ==> requests[i] != requests[j]
  {
    requests := [];
    if listed.None? {
      return;
    }
    var items := listed.value;
    for n := 0 to |items|
      invariant forall k :: k in requests <==> k in items[..n] && References(pipelines[k].stages, vm.name)
      invariant forall i, j :: 0 <= i < j < |requests| ==> requests[i] != requests[j]
    {
      assert items[n] in items && items[n] !in items[..n];
      var stages := pipelines[items[n]].stages;
      for m := 0 to |stages|
        invariant forall i :: 0 <= i < m ==> stages[i].model != vm.name
        invariant forall k :: k in requests <==> k in items[..n] && References(pipelines[k].stages, vm.name)
        invariant forall i, j :: 0 <= i < j < |requests| ==> requests[i] != requests[j]
      {
        if stages[m].model == vm.name {
          requests := requests + [items[n]];
          break;
        }
      }
    }
    assert items[..|items|] == items;
  }
}
