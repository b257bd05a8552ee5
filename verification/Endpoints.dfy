/** The VoiceModel controller and the InferencePipeline controller against one API server, call by call. */
module Endpoints {
  import opened Api
  import IP = InferencePipeline
  import WU = Wakeups
  import VM = VoiceModelController

  /** A VoiceModel reconcile under way: the object it fetched, then the Service it wrote. */
  datatype Desk = Fetched(vm: VoiceModel) | Deployed(vm: VoiceModel) | Served(vm: VoiceModel, written: VM.ServiceSpec)

  /** An endpoint in a status that the API server accepted, with the Service that the same reconcile wrote just before. */
  datatype Publication = Publication(model: Key, endpoint: string, child: Key, service: VM.ServiceSpec)

  datatype State = State(
    plane: WU.State,
    deployments: map<Key, VM.Deployment>,
    services: map<Key, VM.Service>,
    desks: map<Key, Desk>,
    published: set<Publication>,
    modelVersion: nat)

  const START := State(WU.START, map[], map[], map[], {}, 0)

  datatype Step =
    // anything the pipeline side can do: pipeline edits, events, queue, its reconciles, restarts
    | Plane(step: WU.Step)
    // users and the cluster: spec edits never touch a status
    | CreateModel(key: Key, spec: ModelSpec)
    | EditModel(key: Key, spec: ModelSpec)
    | RemoveModel(key: Key)
    | SetDeployment(key: Key, deployment: VM.Deployment)
    | DropDeployment(key: Key)
    | SetService(key: Key, service: VM.Service)
    | DropService(key: Key)
    // one VoiceModel Reconcile, call by call; it may be cut off anywhere
    | Get(key: Key)
    | WriteDeployment(key: Key)
    | WriteService(key: Key, clusterIP: string)
    | Report(key: Key, deploymentLost: bool, now: Time)
    | ReportFailure(key: Key, text: string, now: Time)
    | CutOff(key: Key)

  predicate CanStep(s: State, step: Step) {
    match step
    case Plane(p) => WU.CanStep(s.plane, p) && !p.SetModel? && !p.DropModel?
    case CreateModel(k, _) => k !in s.plane.models
    case EditModel(k, _) => k in s.plane.models
    case RemoveModel(k) => k in s.plane.models
    case SetDeployment(_, _) => true
    case DropDeployment(_) => true
    case SetService(_, _) => true
    case DropService(_) => true
    case Get(k) => k in s.plane.models && k !in s.desks && !s.plane.models[k].deleting
    case WriteDeployment(k) => k in s.desks && s.desks[k].Fetched?
    case WriteService(k, _) => k in s.desks && s.desks[k].Deployed?
    case Report(k, _, _) => k in s.desks && s.desks[k].Served?
    case ReportFailure(k, _, _) => k in s.desks && !s.desks[k].Served?
    case CutOff(k) => k in s.desks
  }

  function PutModel(s: State, k: Key, vm: VoiceModel): State {
    s.(plane := WU.Apply(s.plane, WU.SetModel(k, vm.(version := s.modelVersion))),
       modelVersion := s.modelVersion + 1)
  }

  predicate Accepted(s: State, k: Key)
    requires k in s.desks
  {
    k in s.plane.models && s.plane.models[k].version == s.desks[k].vm.version
  }

  /** The status update at the end of a reconcile; refused when the object has changed since the Get. */
  function Update(s: State, k: Key, status: ModelStatus): State
    requires k in s.desks
  {
    var vm := s.desks[k].vm;
    var t := s.(desks := s.desks - {k});
    if !Accepted(s, k) || status == vm.status then t
    else PutModel(t, k, vm.(status := status))
  }

  function Apply(s: State, step: Step): State
    requires CanStep(s, step)
  {
    match step
    case Plane(p) => s.(plane := WU.Apply(s.plane, p))
    case CreateModel(k, spec) => PutModel(s, k, VoiceModel(spec, FRESH_MODEL_STATUS, false, false, 0))
    case EditModel(k, spec) => PutModel(s, k, s.plane.models[k].(spec := spec))
    case RemoveModel(k) => s.(plane := WU.Apply(s.plane, WU.DropModel(k)))
    case SetDeployment(k, d) => s.(deployments := s.deployments[k := d])
    case DropDeployment(k) => s.(deployments := s.deployments - {k})
    case SetService(k, v) => s.(services := s.services[k := v])
    case DropService(k) => s.(services := s.services - {k})
    case Get(k) =>
      // the finalizer is added first, which is an update of its own
      var t := if s.plane.models[k].finalizer then s else PutModel(s, k, s.plane.models[k].(finalizer := true));
      t.(desks := t.desks[k := Fetched(t.plane.models[k])])
    case WriteDeployment(k) =>
      var vm := s.desks[k].vm;
      s.(deployments := VM.Deployed(s.deployments, k, vm.spec), desks := s.desks[k := Deployed(vm)])
    case WriteService(k, ip) =>
      var vm := s.desks[k].vm;
      var services := VM.Served(s.services, k, vm.spec, ip);
      s.(services := services, desks := s.desks[k := Served(vm, services[VM.ChildKey(k)].spec)])
    case Report(k, lost, now) =>
      var vm := s.desks[k].vm;
      var c := VM.ChildKey(k);
      var found := if lost || c !in s.deployments then None else Some(s.deployments[c]);
      var status := VM.Observed(k, vm, found, now);
      var record := Publication(k, status.endpoint, c, s.desks[k].written);
      Update(if found.Some? && Accepted(s, k) then s.(published := s.published + {record}) else s, k, status)
    case ReportFailure(k, text, now) => Update(s, k, VM.Phased(s.desks[k].vm.status, Failed, text, now))
    case CutOff(k) => s.(desks := s.desks - {k})
  }

  function After(s: State, step: Step): State {
    if CanStep(s, step) then Apply(s, step) else s
  }

  function Execute(s: State, steps: seq<Step>): State {
    if steps == [] then s
    else
      After(Execute(s, steps[..|steps| - 1]), steps[|steps| - 1])
  }

  // ----- The steps and the code

  /** The calls of one VoiceModel Reconcile, in order. */
  function OnePass(s: State, k: Key, ip: string, now: Time): State {
    After(After(After(After(s, Get(k)), WriteDeployment(k)), WriteService(k, ip)), Report(k, false, now))
  }

  predicate SameModel(a: VoiceModel, b: VoiceModel) {
    a.(version := b.version) == b
  }

  /** With nothing in between, the steps of a reconcile do what an undisturbed pass of the controller does; the model agrees
      up to the way its version is counted. */
  lemma StepsPass(s: State, k: Key, weather: VM.Weather, now: Time)
    requires k in s.plane.models && k !in s.desks && !s.plane.models[k].deleting && VM.Calm(weather)
    ensures var t := OnePass(s, k, weather.clusterIP, now);
      var w := VM.Pass(VM.World(s.plane.models, s.deployments, s.services), k, weather, now);
      && t.deployments == w.deployments && t.services == w.services && t.desks == s.desks
      && k in t.plane.models && k in w.models && SameModel(t.plane.models[k], w.models[k])
  {
    var s1 := After(s, Get(k));
    GetReads(s, k);
    var vm := s1.plane.models[k];
    var s3 := After(After(s1, WriteDeployment(k)), WriteService(k, weather.clusterIP));
    ChildrenWritten(s1, k, weather.clusterIP);
    assert s3.desks == s.desks[k := s3.desks[k]];
    ReportLands(s, s3, k, now);
    PassOf(VM.World(s.plane.models, s.deployments, s.services), k, weather, now);
  }

  lemma GetReads(s: State, k: Key)
    requires k in s.plane.models && k !in s.desks && !s.plane.models[k].deleting
    ensures var t := After(s, Get(k));
      && t.deployments == s.deployments && t.services == s.services && k in t.plane.models
      && t.desks == s.desks[k := Fetched(t.plane.models[k])]
      && SameModel(t.plane.models[k], s.plane.models[k].(finalizer := true))
  {
  }

  lemma ChildrenWritten(s: State, k: Key, ip: string)
    requires k in s.desks && s.desks[k].Fetched?
    ensures var t := After(After(s, WriteDeployment(k)), WriteService(k, ip)); var vm := s.desks[k].vm;
      && t.plane == s.plane
      && t.deployments == VM.Deployed(s.deployments, k, vm.spec)
      && t.services == VM.Served(s.services, k, vm.spec, ip)
      && k in t.desks && t.desks[k].Served? && t.desks[k].vm == vm && t.desks == s.desks[k := t.desks[k]]
  {
    var s1 := After(s, WriteDeployment(k));
    assert s1.desks == s.desks[k := Deployed(s.desks[k].vm)];
  }

  lemma PassOf(w: VM.World, k: Key, weather: VM.Weather, now: Time)
    requires k in w.models && !w.models[k].deleting && VM.Calm(weather)
    ensures var t, vm := VM.Pass(w, k, weather, now), w.models[k].(finalizer := true);
      && t.deployments == VM.Deployed(w.deployments, k, vm.spec)
      && t.services == VM.Served(w.services, k, vm.spec, weather.clusterIP)
      && k in t.models
      && SameModel(t.models[k], vm.(status := VM.Observed(k, vm, Some(t.deployments[VM.ChildKey(k)]), now)))
  {
  }

  lemma ReportLands(s: State, t: State, k: Key, now: Time)
    requires k in t.plane.models && k !in s.desks && k in t.desks && t.desks[k].Served?
    requires t.desks == s.desks[k := t.desks[k]] && t.desks[k].vm == t.plane.models[k]
    requires VM.ChildKey(k) in t.deployments
    ensures var u := After(t, Report(k, false, now)); var vm := t.plane.models[k];
      && u.deployments == t.deployments && u.services == t.services && u.desks == s.desks && k in u.plane.models
      && SameModel(u.plane.models[k],
                   vm.(status := VM.Observed(k, vm, Some(t.deployments[VM.ChildKey(k)]), now)))
  {
    var vm, c := t.plane.models[k], VM.ChildKey(k);
    var status := VM.Observed(k, vm, Some(t.deployments[c]), now);
    var record := Publication(k, status.endpoint, c, t.desks[k].written);
    var u := t.(published := t.published + {record});
    assert After(t, Report(k, false, now)) == Update(u, k, status);
    UpdateLands(s, u, k, status);
  }

  lemma UpdateLands(s: State, t: State, k: Key, status: ModelStatus)
    requires k in t.plane.models && k !in s.desks && k in t.desks
    requires t.desks == s.desks[k := t.desks[k]] && t.desks[k].vm == t.plane.models[k]
    ensures var u := Update(t, k, status);
      && u.deployments == t.deployments && u.services == t.services && u.desks == s.desks && k in u.plane.models
      && SameModel(u.plane.models[k], t.plane.models[k].(status := status))
  {
    assert t.desks - {k} == s.desks;
    if status != t.desks[k].vm.status {
      PutLands(t.(desks := s.desks), k, t.plane.models[k].(status := status));
    }
  }

  lemma PutLands(s: State, k: Key, vm: VoiceModel)
    ensures var t := PutModel(s, k, vm);
      && t.deployments == s.deployments && t.services == s.services && t.desks == s.desks && k in t.plane.models
      && SameModel(t.plane.models[k], vm)
  {
  }

  // ----- The invariant

  /** An endpoint names the Service in the record: its name, its namespace and its port. */
  predicate Agrees(p: Publication) {
    && p.child == VM.ChildKey(p.model)
    && p.endpoint == p.child.name + "." + p.child.ns + ".svc.cluster.local:" + VM.Signed(p.service.port)
  }

  predicate PublishedAs(published: set<Publication>, model: Key, endpoint: string) {
    exists p :: p in published && p.model == model && p.endpoint == endpoint && Agrees(p)
  }

  predicate ModelOk(published: set<Publication>, model: Key, vm: VoiceModel) {
    vm.status.phase == Ready ==> PublishedAs(published, model, vm.status.endpoint)
  }

  predicate RowsOk(published: set<Publication>, ns: string, rows: seq<StageStatus>) {
    forall i :: 0 <= i < |rows| && rows[i].ready ==> PublishedAs(published, Key(ns, rows[i].modelRef), rows[i].endpoint)
  }

  predicate AnswersOk(published: set<Publication>, ns: string, f: WU.Flight)
    requires f.Reading?
  {
    && |f.answers| <= |f.fetched.stages|
    && forall i :: 0 <= i < |f.answers| && f.answers[i].Found? ==>
         ModelOk(published, Key(ns, f.fetched.stages[i].model), f.answers[i].item)
  }

  predicate DeskOk(k: Key, d: Desk) {
    d.Served? ==> d.written.port == VM.GetPort(d.vm.spec)
  }

  predicate ModelsOk(published: set<Publication>, models: map<Key, VoiceModel>) {
    forall m :: m in models ==> ModelOk(published, m, models[m])
  }

  predicate PipelinesOk(published: set<Publication>, pipelines: map<Key, Pipeline>) {
    forall k :: k in pipelines ==> RowsOk(published, k.ns, pipelines[k].status.stages)
  }

  predicate FlightsOk(published: set<Publication>, flights: map<Key, WU.Flight>) {
    forall k :: k in flights && flights[k].Reading? ==> AnswersOk(published, k.ns, flights[k])
  }

  predicate Inv(s: State) {
    && ModelsOk(s.published, s.plane.models)
    && PipelinesOk(s.published, s.plane.pipelines)
    && FlightsOk(s.published, s.plane.flights)
    && forall k :: k in s.desks ==> DeskOk(k, s.desks[k])
  }

  lemma RowsFromAnswers(published: set<Publication>, ns: string, f: WU.Flight)
    requires f.Reading? && AnswersOk(published, ns, f) && |f.answers| == |f.fetched.stages|
    ensures RowsOk(published, ns, IP.Rows(f.fetched.stages, f.answers))
  {
  }

  lemma FinishKeepsObjects(s: WU.State, k: Key, result: Result)
    ensures var t := WU.Finish(s, k, result);
      t.models == s.models && t.pipelines == s.pipelines && t.flights == s.flights - {k}
  {
  }

  /** The status that a commit stores, if it stores one. */
  function Verdict(s: WU.State, k: Key, now: Time): PipelineStatus
    requires WU.CanCommit(s, k)
  {
    var f := s.flights[k];
    IP.Judgement(f.fetched.status, f.fetched.stages, IP.Rows(f.fetched.stages, f.answers), now)
  }

  lemma CommitShape(s: WU.State, k: Key, now: Time)
    requires WU.CanCommit(s, k)
    ensures var t := WU.Committed(s, k, now);
      && t.models == s.models && t.flights == s.flights - {k}
      && (t.pipelines == s.pipelines ||
          (k in t.pipelines && t.pipelines == s.pipelines[k := t.pipelines[k]] &&
           t.pipelines[k].status == Verdict(s, k, now)))
  {
    var p, status := s.flights[k].fetched, Verdict(s, k, now);
    if k !in s.pipelines || s.pipelines[k].version != p.version {
      FinishKeepsObjects(s, k, Failure);
    } else {
      var stored := if status == p.status then s else WU.Store(s, k, p.(status := status));
      assert WU.Committed(s, k, now) == WU.Finish(stored, k, IP.Requeue(status.phase));
      FinishKeepsObjects(stored, k, IP.Requeue(status.phase));
    }
  }

  lemma OneMorePipeline(published: set<Publication>, pipelines: map<Key, Pipeline>, k: Key, p: Pipeline)
    requires PipelinesOk(published, pipelines) && RowsOk(published, k.ns, p.status.stages)
    ensures PipelinesOk(published, pipelines[k := p])
  {
  }

  lemma OneFlightLess(published: set<Publication>, flights: map<Key, WU.Flight>, k: Key)
    requires FlightsOk(published, flights)
    ensures FlightsOk(published, flights - {k})
  {
  }

  lemma CommitWritesAnswers(published: set<Publication>, s: WU.State, k: Key, now: Time)
    requires WU.CanCommit(s, k) && PipelinesOk(published, s.pipelines) && FlightsOk(published, s.flights)
    ensures var t := WU.Committed(s, k, now);
      t.models == s.models && PipelinesOk(published, t.pipelines) && FlightsOk(published, t.flights)
  {
    var t := WU.Committed(s, k, now);
    CommitShape(s, k, now);
    OneFlightLess(published, s.flights, k);
    if t.pipelines != s.pipelines {
      RowsFromAnswers(published, k.ns, s.flights[k]);
      assert Verdict(s, k, now).stages == IP.Rows(s.flights[k].fetched.stages, s.flights[k].answers);
      OneMorePipeline(published, s.pipelines, k, t.pipelines[k]);
    }
  }

  lemma ReadKeepsFlights(published: set<Publication>, s: WU.State, p: WU.Step)
    requires WU.CanStep(s, p) && (p.Read? || p.ReadFails?)
    requires ModelsOk(published, s.models) && FlightsOk(published, s.flights)
    ensures FlightsOk(published, WU.Apply(s, p).flights)
  {
    var f, t := s.flights[p.key], WU.Apply(s, p);
    assert AnswersOk(published, p.key.ns, f);
    assert AnswersOk(published, p.key.ns, t.flights[p.key]);
    assert t.flights == s.flights[p.key := t.flights[p.key]];
  }

  predicate Other(p: WU.Step) {
    !p.Commit? && !p.Read? && !p.ReadFails? && !p.SetModel? && !p.DropModel?
  }

  lemma OtherKeepsFlights(published: set<Publication>, s: WU.State, p: WU.Step)
    requires WU.CanStep(s, p) && Other(p) && FlightsOk(published, s.flights)
    ensures FlightsOk(published, WU.Apply(s, p).flights)
  {
    var t := WU.Apply(s, p);
    forall k | k in t.flights && t.flights[k].Reading? ensures AnswersOk(published, k.ns, t.flights[k]) {
      assert (k in s.flights && t.flights[k] == s.flights[k]) || t.flights[k].answers == [];
    }
  }

  predicate StoresPipeline(p: WU.Step) {
    p.CreatePipeline? || p.EditPipeline? || p.MarkDeleting?
  }

  lemma StoreKeepsStatus(s: WU.State, p: WU.Step)
    requires StoresPipeline(p) && WU.CanStep(s, p)
    ensures var t := WU.Apply(s, p);
      && t.models == s.models && p.key in t.pipelines && t.pipelines == s.pipelines[p.key := t.pipelines[p.key]]
      && (t.pipelines[p.key].status.stages == [] ||
          (p.key in s.pipelines && t.pipelines[p.key].status == s.pipelines[p.key].status))
  {
  }

  predicate Queues(p: WU.Step) {
    p.Deliver? || p.Fire? || p.Restart? || p.Pick?
  }

  lemma AddKeepsObjects(s: WU.State, keys: set<Key>)
    ensures WU.Add(s, keys).models == s.models && WU.Add(s, keys).pipelines == s.pipelines
  {
  }

  lemma DeliverKeepsObjects(s: WU.State, e: WU.Event)
    requires WU.CanStep(s, WU.Deliver(e))
    ensures var t := WU.Apply(s, WU.Deliver(e)); t.models == s.models && t.pipelines == s.pipelines
  {
    var keys := match e case PipelineEvent(k) => {k} case ModelEvent(m) => IP.Mapped(s.pipelines, m);
    AddKeepsObjects(s.(events := s.events - multiset{e}), keys);
  }

  lemma QueueKeepsObjects(s: WU.State, p: WU.Step)
    requires Queues(p) && WU.CanStep(s, p)
    ensures WU.Apply(s, p).models == s.models && WU.Apply(s, p).pipelines == s.pipelines
  {
    if p.Deliver? {
      DeliverKeepsObjects(s, p.event);
    } else if p.Fire? {
      AddKeepsObjects(s.(timers := s.timers - {p.key}), {p.key});
    }
  }

  lemma CallKeepsObjects(s: WU.State, p: WU.Step)
    requires (p.Fetch? || p.FetchFails? || p.CommitFails?) && WU.CanStep(s, p)
    ensures WU.Apply(s, p).models == s.models && WU.Apply(s, p).pipelines == s.pipelines
  {
    if !p.Fetch? {
      FinishKeepsObjects(s, p.key, Failure);
    } else {
      FinishKeepsObjects(s, p.key, Done);
    }
  }

  lemma OtherKeepsPipelines(published: set<Publication>, s: WU.State, p: WU.Step)
    requires WU.CanStep(s, p) && Other(p) && PipelinesOk(published, s.pipelines)
    ensures WU.Apply(s, p).models == s.models && PipelinesOk(published, WU.Apply(s, p).pipelines)
  {
    if StoresPipeline(p) {
      StoreKeepsStatus(s, p);
      OneMorePipeline(published, s.pipelines, p.key, WU.Apply(s, p).pipelines[p.key]);
    } else if p.DropPipeline? {
      assert WU.Apply(s, p).pipelines == s.pipelines - {p.key};
    } else if Queues(p) {
      QueueKeepsObjects(s, p);
    } else {
      CallKeepsObjects(s, p);
    }
  }

  lemma PlaneStep(s: State, p: WU.Step)
    requires Inv(s) && CanStep(s, Plane(p))
    ensures Inv(Apply(s, Plane(p)))
  {
    if p.Commit? {
      CommitWritesAnswers(s.published, s.plane, p.key, p.now);
    } else if p.Read? || p.ReadFails? {
      ReadKeepsFlights(s.published, s.plane, p);
    } else {
      OtherKeepsFlights(s.published, s.plane, p);
      OtherKeepsPipelines(s.published, s.plane, p);
    }
  }

  lemma MorePublished(s: State, record: Publication)
    requires Inv(s)
    ensures Inv(s.(published := s.published + {record}))
  {
    var more := s.published + {record};
    assert forall m, e :: PublishedAs(s.published, m, e) ==> PublishedAs(more, m, e);
  }

  lemma PutKeeps(s: State, k: Key, vm: VoiceModel)
    requires Inv(s) && ModelOk(s.published, k, vm)
    ensures Inv(PutModel(s, k, vm))
  {
  }

  /** What a report does, by whether it is accepted. */
  lemma ReportWrites(s: State, k: Key, lost: bool, now: Time)
    requires CanStep(s, Report(k, lost, now))
    ensures var t, vm, c := Apply(s, Report(k, lost, now)), s.desks[k].vm, VM.ChildKey(k);
      var found := if lost || c !in s.deployments then None else Some(s.deployments[c]);
      var status := VM.Observed(k, vm, found, now);
      var record := Publication(k, status.endpoint, c, s.desks[k].written);
      var u := s.(desks := s.desks - {k});
      if !Accepted(s, k) then t == u
      else
        var v := if found.Some? then u.(published := u.published + {record}) else u;
        t == if status == vm.status then v else PutModel(v, k, vm.(status := status))
  {
  }

  lemma DeskLeft(s: State, k: Key)
    requires Inv(s)
    ensures Inv(s.(desks := s.desks - {k}))
  {
  }

  lemma FoundIsPublished(s: State, k: Key, d: VM.Deployment, now: Time)
    requires Inv(s) && k in s.desks && s.desks[k].Served?
    ensures var vm, c := s.desks[k].vm, VM.ChildKey(k); var status := VM.Observed(k, vm, Some(d), now);
      var record := Publication(k, status.endpoint, c, s.desks[k].written);
      Agrees(record) && PublishedAs(s.published + {record}, k, status.endpoint)
  {
    assert DeskOk(k, s.desks[k]);
    var status := VM.Observed(k, s.desks[k].vm, Some(d), now);
    var record := Publication(k, status.endpoint, VM.ChildKey(k), s.desks[k].written);
    assert record in s.published + {record};
  }

  lemma ReportStep(s: State, k: Key, lost: bool, now: Time)
    requires Inv(s) && CanStep(s, Report(k, lost, now))
    ensures Inv(Apply(s, Report(k, lost, now)))
    ensures var t := Apply(s, Report(k, lost, now));
      && (!Accepted(s, k) ==> t.plane == s.plane && t.published == s.published)
      && (Accepted(s, k) && k in t.plane.models && t.plane.models[k] != s.plane.models[k]
          && t.plane.models[k].status.phase == Ready ==>
            Publication(k, t.plane.models[k].status.endpoint, VM.ChildKey(k), s.desks[k].written) in t.published)
  {
    var vm, c := s.desks[k].vm, VM.ChildKey(k);
    var found := if lost || c !in s.deployments then None else Some(s.deployments[c]);
    var status := VM.Observed(k, vm, found, now);
    var u := s.(desks := s.desks - {k});
    ReportWrites(s, k, lost, now);
    DeskLeft(s, k);
    if Accepted(s, k) && found.Some? {
      FoundIsPublished(s, k, found.value, now);
      var record := Publication(k, status.endpoint, c, s.desks[k].written);
      MorePublished(u, record);
      PutKeeps(u.(published := u.published + {record}), k, vm.(status := status));
    } else if Accepted(s, k) {
      PutKeeps(u, k, vm.(status := status));
    }
  }

  lemma StepKeepsInv(s: State, step: Step)
    requires Inv(s) && CanStep(s, step)
    ensures Inv(Apply(s, step))
  {
    match step
    case Plane(p) => PlaneStep(s, p);
    case CreateModel(k, spec) => PutKeeps(s, k, VoiceModel(spec, FRESH_MODEL_STATUS, false, false, 0));
    case EditModel(k, spec) => PutKeeps(s, k, s.plane.models[k].(spec := spec));
    case Get(k) => PutKeeps(s, k, s.plane.models[k].(finalizer := true));
    case Report(k, lost, now) => ReportStep(s, k, lost, now);
    case ReportFailure(k, text, now) =>
      var vm := s.desks[k].vm;
      PutKeeps(s.(desks := s.desks - {k}), k, vm.(status := VM.Phased(vm.status, Failed, text, now)));
    case _ =>
  }

  lemma {:induction false} RunKeepsInv(steps: seq<Step>)
    ensures Inv(Execute(START, steps))
  {
    if steps != [] {
      var before, step := Execute(START, steps[..|steps| - 1]), steps[|steps| - 1];
      RunKeepsInv(steps[..|steps| - 1]);
      if CanStep(before, step) {
        StepKeepsInv(before, step);
      }
    }
  }

  /** Over all runs of both controllers, a stage reported Ready carries a non-empty endpoint that a reconcile of its
      VoiceModel published, and that endpoint is the name, namespace and port of the Service the same reconcile wrote. */
  lemma {:induction false} ReadyStageHasPublishedEndpoint(steps: seq<Step>, k: Key, i: nat)
    requires var s := Execute(START, steps);
      && k in s.plane.pipelines && i < |s.plane.pipelines[k].status.stages|
      && s.plane.pipelines[k].status.stages[i].ready
    ensures var s := Execute(START, steps); var row := s.plane.pipelines[k].status.stages[i];
      && row.endpoint != ""
      && exists p :: p in s.published && p.model == Key(k.ns, row.modelRef) && p.endpoint == row.endpoint &&
           p.endpoint == "vox-" + row.modelRef + "." + k.ns + ".svc.cluster.local:" + VM.Signed(p.service.port)
  {
    RunKeepsInv(steps);
    var s := Execute(START, steps);
    var row := s.plane.pipelines[k].status.stages[i];
    assert RowsOk(s.published, k.ns, s.plane.pipelines[k].status.stages);
    assert PublishedAs(s.published, Key(k.ns, row.modelRef), row.endpoint);
  }
}
