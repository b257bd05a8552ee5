/** The VoiceModel controller among its watches, work queue and timers, call by call: which VoiceModels it can forget. */
module ModelWakeups {
  import opened Api
  import opened VoiceModelController

  /** A reconcile under way: the object it fetched, how far it has come, and at the end the status that it will write;
      `tripped` says that a failed call made it give up. */
  datatype Desk =
    | Fetched(vm: VoiceModel)
    | WroteDeployment(vm: VoiceModel)
    | WroteService(vm: VoiceModel)
    | Writing(vm: VoiceModel, status: ModelStatus, tripped: bool)

  /** `wakeups` holds the keys with an undelivered event, a queue entry, a dirty mark or a timer. Two histories: `tripped`
      has the keys whose last accepted status reports a failed call, and `missed` the keys whose child somebody has changed
      without waking them since their last Get. */
  datatype State = State(
    models: map<Key, VoiceModel>,
    deployments: map<Key, Deployment>,
    services: map<Key, Service>,
    wakeups: set<Key>,
    desks: map<Key, Desk>,
    next: nat,
    tripped: set<Key>,
    missed: set<Key>)

  const START := State(map[], map[], map[], {}, map[], 0, {}, {})

  datatype Step =
    // users, and the controllers of Deployments
    | CreateModel(key: Key, spec: ModelSpec)
    | EditModel(key: Key, spec: ModelSpec)
    | MarkDeleting(key: Key)
    | RemoveModel(key: Key)
    | SetDeployment(key: Key, deployment: Deployment)
    | DropDeployment(key: Key)
    | SetService(key: Key, service: Service)
    | DropService(key: Key)
    // duplicate events and resyncs; a restart, which lists everything again
    | Nudge(key: Key)
    | Restart
    // one Reconcile, call by call
    | Get(key: Key)
    | WriteDeployment(key: Key)
    | WriteService(key: Key, clusterIP: string)
    | CallFails(key: Key, text: string, now: Time)
    | Observe(key: Key, lost: bool, now: Time)
    | Write(key: Key)
    | WriteFails(key: Key)

  predicate CanStep(s: State, step: Step) {
    match step
    case CreateModel(k, _) => k !in s.models
    case EditModel(k, _) => k in s.models
    case MarkDeleting(k) => k in s.models
    case RemoveModel(k) => k in s.models
    case Get(k) => k in s.wakeups && k !in s.desks
    case WriteDeployment(k) => k in s.desks && s.desks[k].Fetched?
    case WriteService(k, _) => k in s.desks && s.desks[k].WroteDeployment?
    case CallFails(k, _, _) => k in s.desks && (s.desks[k].Fetched? || s.desks[k].WroteDeployment?)
    case Observe(k, _, _) => k in s.desks && s.desks[k].WroteService?
    case Write(k) => k in s.desks && s.desks[k].Writing?
    case WriteFails(k) => k in s.desks && s.desks[k].Writing?
    case _ => true
  }

  function PutModel(s: State, k: Key, vm: VoiceModel): State {
    s.(models := s.models[k := vm.(version := s.next)], next := s.next + 1, wakeups := s.wakeups + {k})
  }

  /** The VoiceModel, if any, whose child has this name. */
  function Parents(c: Key): set<Key> {
    if |c.name| >= 4 && c.name[..4] == "vox-" then {Key(c.ns, c.name[4..])} else {}
  }

  /** An event about a child wakes the owner that the object names, before and after the change. */
  function DeploymentOwners(s: State, c: Key, d: Deployment): set<Key> {
    {d.owner} + if c in s.deployments then {s.deployments[c].owner} else {}
  }

  function ServiceOwners(s: State, c: Key, v: Service): set<Key> {
    {v.owner} + if c in s.services then {s.services[c].owner} else {}
  }

  function StoreDeployment(s: State, c: Key, d: Deployment): State {
    s.(deployments := s.deployments[c := d], wakeups := s.wakeups + DeploymentOwners(s, c, d))
  }

  function StoreService(s: State, c: Key, v: Service): State {
    s.(services := s.services[c := v], wakeups := s.wakeups + ServiceOwners(s, c, v))
  }

  function DeploymentWritten(s: State, k: Key, spec: ModelSpec): State {
    var written := Deployed(s.deployments, k, spec);
    if written == s.deployments then s else StoreDeployment(s, ChildKey(k), written[ChildKey(k)])
  }

  function ServiceWritten(s: State, k: Key, spec: ModelSpec, ip: string): State {
    var written := Served(s.services, k, spec, ip);
    if written == s.services then s else StoreService(s, ChildKey(k), written[ChildKey(k)])
  }

  predicate Stale(s: State, k: Key)
    requires k in s.desks
  {
    k !in s.models || s.models[k].version != s.desks[k].vm.version
  }

  /** The status update and the end of the reconcile: an error or a phase that is polled leads to another one. */
  function Written(s: State, k: Key): State
    requires k in s.desks && s.desks[k].Writing?
  {
    var d := s.desks[k];
    var t := s.(desks := s.desks - {k});
    if Stale(s, k) then t.(wakeups := t.wakeups + {k})
    else
      var u := if d.status == d.vm.status then t else PutModel(t, k, d.vm.(status := d.status));
      u.(wakeups := if PhaseResult(d.status.phase) == Done then u.wakeups else u.wakeups + {k},
         tripped := if d.tripped then u.tripped + {k} else u.tripped - {k})
  }

  function Apply(s: State, step: Step): State
    requires CanStep(s, step)
  {
    match step
    case CreateModel(k, spec) =>
      PutModel(s, k, VoiceModel(spec, FRESH_MODEL_STATUS, false, false, 0)).(tripped := s.tripped - {k})
    case EditModel(k, spec) => PutModel(s, k, s.models[k].(spec := spec))
    case MarkDeleting(k) => PutModel(s, k, s.models[k].(deleting := true))
    case RemoveModel(k) => s.(models := s.models - {k}, wakeups := s.wakeups + {k})
    case SetDeployment(c, d) =>
      StoreDeployment(s, c, d).(missed := s.missed + (Parents(c) - DeploymentOwners(s, c, d)))
    case DropDeployment(c) =>
      if c !in s.deployments then s
      else
        var owner := s.deployments[c].owner;
        s.(deployments := s.deployments - {c}, wakeups := s.wakeups + {owner}, missed := s.missed + (Parents(c) - {owner}))
    case SetService(c, v) => StoreService(s, c, v).(missed := s.missed + (Parents(c) - ServiceOwners(s, c, v)))
    case DropService(c) =>
      if c !in s.services then s
      else
        var owner := s.services[c].owner;
        s.(services := s.services - {c}, wakeups := s.wakeups + {owner}, missed := s.missed + (Parents(c) - {owner}))
    case Nudge(k) => s.(wakeups := s.wakeups + {k})
    case Restart => s.(desks := map[], wakeups := s.models.Keys)
    case Get(k) =>
      var t := s.(wakeups := s.wakeups - {k}, missed := s.missed - {k});
      if k !in s.models || s.models[k].deleting then t
      else
        var u := if s.models[k].finalizer then t else PutModel(t, k, s.models[k].(finalizer := true));
        u.(desks := u.desks[k := Fetched(u.models[k])])
    case WriteDeployment(k) =>
      DeploymentWritten(s, k, s.desks[k].vm.spec).(desks := s.desks[k := WroteDeployment(s.desks[k].vm)])
    case WriteService(k, ip) =>
      ServiceWritten(s, k, s.desks[k].vm.spec, ip).(desks := s.desks[k := Desk.WroteService(s.desks[k].vm)])
    case CallFails(k, text, now) =>
      var vm := s.desks[k].vm;
      s.(desks := s.desks[k := Writing(vm, Phased(vm.status, Failed, text, now), true)])
    case Observe(k, lost, now) =>
      var vm, c := s.desks[k].vm, ChildKey(k);
      var found := if lost || c !in s.deployments then None else Some(s.deployments[c]);
      s.(desks := s.desks[k := Writing(vm, Observed(k, vm, found, now), false)])
    case Write(k) => Written(s, k)
    case WriteFails(k) => s.(desks := s.desks - {k}, wakeups := s.wakeups + {k})
  }

  function After(s: State, step: Step): State {
    if CanStep(s, step) then Apply(s, step) else s
  }

  function Execute(s: State, steps: seq<Step>): State {
    if steps == [] then s else After(Execute(s, steps[..|steps| - 1]), steps[|steps| - 1])
  }

  // ----- What must hold of every VoiceModel

  predicate DeploymentFits(s: State, k: Key, spec: ModelSpec) {
    ChildKey(k) in s.deployments && s.deployments[ChildKey(k)].spec == BuildDeployment(k, spec).spec
  }

  predicate ServiceFits(s: State, k: Key, spec: ModelSpec) {
    ChildKey(k) in s.services && s.services[ChildKey(k)].spec.(clusterIP := "") == BuildService(k, spec).spec
  }

  /** The status is what the Deployment implies. */
  predicate StatusFits(k: Key, vm: VoiceModel, status: ModelStatus, d: Deployment) {
    Observed(k, vm, Some(d), 0.0).(lastTransition := status.lastTransition) == status
  }

  predicate Good(s: State, k: Key)
    requires k in s.models
  {
    var vm := s.models[k];
    && DeploymentFits(s, k, vm.spec) && ServiceFits(s, k, vm.spec)
    && StatusFits(k, vm, vm.status, s.deployments[ChildKey(k)])
  }

  predicate Excused(s: State, k: Key) {
    k in s.wakeups || k in s.missed
  }

  predicate Safe(s: State, k: Key) {
    k in s.models && !s.models[k].deleting ==>
      Good(s, k) || Excused(s, k) || k in s.desks || k in s.tripped
  }

  predicate DeskFits(s: State, k: Key, d: Desk) {
    && (d.WroteDeployment? || d.WroteService? || (d.Writing? && !d.tripped) ==> DeploymentFits(s, k, d.vm.spec))
    && (d.WroteService? || (d.Writing? && !d.tripped) ==> ServiceFits(s, k, d.vm.spec))
    && (d.Writing? && !d.tripped && d.status.phase != Deploying ==>
          ChildKey(k) in s.deployments && StatusFits(k, d.vm, d.status, s.deployments[ChildKey(k)]))
  }

  predicate DeskOk(s: State, k: Key)
    requires k in s.desks
  {
    var d := s.desks[k];
    && d.vm.version < s.next
    && (d.Writing? && d.tripped ==> d.status.phase == Failed)
    && (!Stale(s, k) ==> s.models[k] == d.vm && (Excused(s, k) || DeskFits(s, k, d)))
  }

  predicate KeyOk(s: State, k: Key) {
    && Safe(s, k)
    && (k in s.desks ==> DeskOk(s, k))
    && (k in s.models ==> s.models[k].version < s.next)
    && (k in s.models && k in s.tripped ==> s.models[k].status.phase == Failed)
  }

  ghost predicate Inv(s: State) {
    forall k :: KeyOk(s, k)
  }

  lemma ParentsOfChild(k: Key, c: Key)
    ensures k in Parents(c) <==> ChildKey(k) == c
  {
    assert ("vox-" + k.name)[..4] == "vox-" && ("vox-" + k.name)[4..] == k.name;
    if k in Parents(c) {
      assert c.name == c.name[..4] + c.name[4..];
    }
  }

  // ----- The invariant is kept

  predicate SameChildren(s: State, t: State, k: Key) {
    var c := ChildKey(k);
    && (c in s.deployments <==> c in t.deployments) && (c in s.deployments ==> s.deployments[c] == t.deployments[c])
    && (c in s.services <==> c in t.services) && (c in s.services ==> s.services[c] == t.services[c])
  }

  predicate SameDesk(s: State, t: State, k: Key) {
    (k in s.desks <==> k in t.desks) && (k in s.desks ==> s.desks[k] == t.desks[k])
  }

  /** Nothing of k has changed but, at most, its wake-ups for the better. */
  predicate Same(s: State, t: State, k: Key) {
    && s.next <= t.next
    && (k in s.wakeups ==> k in t.wakeups) && (k in s.missed ==> k in t.missed) && (k in s.tripped <==> k in t.tripped)
    && (k in s.models <==> k in t.models) && (k in s.models ==> s.models[k] == t.models[k])
    && SameDesk(s, t, k) && SameChildren(s, t, k)
  }

  lemma Framed(s: State, t: State, k: Key)
    requires KeyOk(s, k) && Same(s, t, k)
    ensures KeyOk(t, k)
  {
  }

  lemma OtherModels(s: State, step: Step, k: Key)
    requires step.CreateModel? || step.EditModel? || step.MarkDeleting? || step.RemoveModel? || step.Nudge?
    requires CanStep(s, step) && (step.key != k || step.Nudge?)
    ensures Same(s, Apply(s, step), k)
  {
  }

  lemma ModelHere(s: State, step: Step)
    requires step.CreateModel? || step.EditModel? || step.MarkDeleting? || step.RemoveModel?
    requires CanStep(s, step) && KeyOk(s, step.key)
    ensures KeyOk(Apply(s, step), step.key)
  {
  }

  lemma ModelStep(s: State, step: Step, k: Key)
    requires KeyOk(s, k) && CanStep(s, step)
    requires step.CreateModel? || step.EditModel? || step.MarkDeleting? || step.RemoveModel? || step.Nudge?
    ensures KeyOk(Apply(s, step), k)
  {
    if step.key != k || step.Nudge? {
      OtherModels(s, step, k);
      Framed(s, Apply(s, step), k);
    } else {
      ModelHere(s, step);
    }
  }

  predicate ChangesChild(step: Step) {
    step.SetDeployment? || step.DropDeployment? || step.SetService? || step.DropService?
  }

  lemma OtherChild(s: State, step: Step, k: Key)
    requires ChangesChild(step) && ChildKey(k) != step.key
    ensures Same(s, Apply(s, step), k)
  {
  }

  /** Somebody else's change of the child of k wakes k or is missed. */
  lemma OwnChild(s: State, step: Step, k: Key)
    requires ChangesChild(step) && ChildKey(k) == step.key
    ensures Apply(s, step) == s || Excused(Apply(s, step), k)
  {
    ParentsOfChild(k, step.key);
  }

  lemma OnlyChildren(s: State, step: Step, k: Key)
    requires ChangesChild(step)
    ensures var t := Apply(s, step);
      t.models == s.models && t.desks == s.desks && t.next == s.next && t.tripped == s.tripped
  {
  }

  lemma ExcusedStays(s: State, t: State, k: Key)
    requires KeyOk(s, k) && Excused(t, k)
    requires t.models == s.models && t.desks == s.desks && t.next == s.next && t.tripped == s.tripped
    ensures KeyOk(t, k)
  {
  }

  lemma ChildStep(s: State, step: Step, k: Key)
    requires KeyOk(s, k) && ChangesChild(step)
    ensures KeyOk(Apply(s, step), k)
  {
    if ChildKey(k) == step.key {
      OwnChild(s, step, k);
      if Apply(s, step) != s {
        OnlyChildren(s, step, k);
        ExcusedStays(s, Apply(s, step), k);
      }
    } else {
      OtherChild(s, step, k);
      Framed(s, Apply(s, step), k);
    }
  }

  /** A reconcile that moves on at its desk. */
  function AtDesk(s: State, k: Key, d: Desk): State {
    s.(desks := s.desks[k := d])
  }

  lemma OtherGet(s: State, m: Key, k: Key)
    requires CanStep(s, Get(m)) && k != m
    ensures Same(s, Apply(s, Get(m)), k)
  {
    var t := s.(wakeups := s.wakeups - {m}, missed := s.missed - {m});
    if m in s.models && !s.models[m].deleting {
      var u := if s.models[m].finalizer then t else PutModel(t, m, s.models[m].(finalizer := true));
      assert Same(s, u, k);
      assert Apply(s, Get(m)) == AtDesk(u, m, Fetched(u.models[m]));
    } else {
      assert Apply(s, Get(m)) == t;
    }
  }

  lemma GetHere(s: State, k: Key)
    requires KeyOk(s, k) && CanStep(s, Get(k))
    ensures KeyOk(Apply(s, Get(k)), k)
  {
  }

  lemma RestartStep(s: State, k: Key)
    requires KeyOk(s, k)
    ensures KeyOk(Apply(s, Restart), k)
  {
  }

  lemma GetStep(s: State, step: Step, k: Key)
    requires KeyOk(s, k) && CanStep(s, step) && (step.Get? || step.Restart?)
    ensures KeyOk(Apply(s, step), k)
  {
    if step.Restart? {
      RestartStep(s, k);
    } else if step.key == k {
      GetHere(s, k);
    } else {
      OtherGet(s, step.key, k);
      Framed(s, Apply(s, step), k);
    }
  }

  lemma DeskElsewhere(s: State, m: Key, d: Desk, k: Key)
    requires KeyOk(s, k) && k != m
    ensures KeyOk(AtDesk(s, m, d), k)
  {
    Framed(s, AtDesk(s, m, d), k);
  }

  lemma DeskHere(s: State, k: Key, d: Desk)
    requires KeyOk(s, k) && k in s.desks && d.vm == s.desks[k].vm
    requires d.Writing? && d.tripped ==> d.status.phase == Failed
    requires !Stale(s, k) && !Excused(s, k) ==> DeskFits(s, k, d)
    ensures KeyOk(AtDesk(s, k, d), k)
  {
    var t := AtDesk(s, k, d);
    assert DeskFits(s, k, d) ==> DeskFits(t, k, d);
  }

  lemma DeploymentWrittenFits(s: State, k: Key, spec: ModelSpec)
    ensures var t := DeploymentWritten(s, k, spec);
      DeploymentFits(t, k, spec) && t.desks == s.desks && t.models == s.models
  {
    var written := Deployed(s.deployments, k, spec);
    assert written == s.deployments[ChildKey(k) := written[ChildKey(k)]];
  }

  /** The controller's own write of a child concerns no other VoiceModel. */
  lemma OwnWrites(s: State, m: Key, spec: ModelSpec, ip: string, k: Key)
    requires k != m
    ensures Same(s, DeploymentWritten(s, m, spec), k) && Same(s, ServiceWritten(s, m, spec, ip), k)
  {
    ChildrenDiffer(k, m);
    DeploymentIsWritten(s, m, spec);
    ServiceIsWritten(s, m, spec, ip);
    DeployedOnlyChild(s.deployments, s.services, m, spec, ip, ChildKey(k));
  }

  lemma DeployedOnlyChild(
    deployments: map<Key, Deployment>, services: map<Key, Service>, m: Key, spec: ModelSpec, ip: string, c: Key)
    requires c != ChildKey(m)
    ensures var d, v := Deployed(deployments, m, spec), Served(services, m, spec, ip);
      && (c in d <==> c in deployments) && (c in d ==> d[c] == deployments[c])
      && (c in v <==> c in services) && (c in v ==> v[c] == services[c])
  {
  }

  lemma DeploymentWrittenHere(s: State, k: Key, spec: ModelSpec)
    requires KeyOk(s, k) && k in s.desks && s.desks[k].Fetched?
    ensures KeyOk(DeploymentWritten(s, k, spec), k)
  {
  }

  lemma WriteDeploymentStep(s: State, m: Key, k: Key)
    requires KeyOk(s, k) && CanStep(s, WriteDeployment(m))
    ensures KeyOk(Apply(s, WriteDeployment(m)), k)
  {
    var spec := s.desks[m].vm.spec;
    var u := DeploymentWritten(s, m, spec);
    if k == m {
      DeploymentWrittenHere(s, k, spec);
    } else {
      OwnWrites(s, m, spec, "", k);
      Framed(s, u, k);
    }
    MoveDesk(s, u, m, WroteDeployment(s.desks[m].vm), k) by {
      DeploymentWrittenFits(s, m, spec);
    }
    assert Apply(s, WriteDeployment(m)) == AtDesk(u, m, WroteDeployment(s.desks[m].vm));
  }

  lemma MoveDesk(s: State, u: State, m: Key, d: Desk, k: Key)
    requires KeyOk(u, k) && m in s.desks && u.desks == s.desks && d.vm == s.desks[m].vm && !d.Writing?
    requires DeskFits(u, m, d) || Excused(u, m) || Stale(u, m)
    ensures KeyOk(AtDesk(u, m, d), k)
  {
    if k == m {
      DeskHere(u, k, d);
    } else {
      DeskElsewhere(u, m, d, k);
    }
  }

  lemma ServiceWrittenFits(s: State, k: Key, spec: ModelSpec, ip: string)
    ensures var t := ServiceWritten(s, k, spec, ip);
      && ServiceFits(t, k, spec) && t.desks == s.desks && t.models == s.models && t.deployments == s.deployments
      && (Excused(s, k) ==> Excused(t, k))
  {
    var written := Served(s.services, k, spec, ip);
    assert written == s.services[ChildKey(k) := written[ChildKey(k)]];
  }

  lemma ServiceWrittenHere(s: State, k: Key, spec: ModelSpec, ip: string)
    requires KeyOk(s, k) && k in s.desks && s.desks[k].WroteDeployment?
    ensures KeyOk(ServiceWritten(s, k, spec, ip), k)
  {
    var t := ServiceWritten(s, k, spec, ip);
    assert DeskFits(s, k, s.desks[k]) ==> DeskFits(t, k, s.desks[k]);
  }

  lemma ServiceWrittenStep(s: State, m: Key, spec: ModelSpec, ip: string, k: Key)
    requires KeyOk(s, k) && m in s.desks && s.desks[m].WroteDeployment?
    ensures KeyOk(ServiceWritten(s, m, spec, ip), k)
  {
    if k == m {
      ServiceWrittenHere(s, k, spec, ip);
    } else {
      OwnWrites(s, m, spec, ip, k);
      Framed(s, ServiceWritten(s, m, spec, ip), k);
    }
  }

  lemma WroteServiceFits(s: State, m: Key, ip: string)
    requires KeyOk(s, m) && m in s.desks && s.desks[m].WroteDeployment?
    ensures var vm := s.desks[m].vm; var u := ServiceWritten(s, m, vm.spec, ip);
      && u.desks == s.desks
      && (DeskFits(u, m, Desk.WroteService(vm)) || Excused(u, m) || Stale(u, m))
  {
    ServiceWrittenFits(s, m, s.desks[m].vm.spec, ip);
    assert DeskOk(s, m);
  }

  lemma WriteServiceStep(s: State, m: Key, ip: string, k: Key)
    requires KeyOk(s, k) && KeyOk(s, m) && CanStep(s, WriteService(m, ip))
    ensures KeyOk(Apply(s, WriteService(m, ip)), k)
  {
    var vm := s.desks[m].vm;
    var u := ServiceWritten(s, m, vm.spec, ip);
    ServiceWrittenStep(s, m, vm.spec, ip, k);
    WroteServiceFits(s, m, ip);
    MoveDesk(s, u, m, Desk.WroteService(vm), k);
    assert Apply(s, WriteService(m, ip)) == AtDesk(u, m, Desk.WroteService(vm));
  }

  /** The observed status fits, or is one that is polled. */
  lemma ObservedFits(k: Key, vm: VoiceModel, found: Option<Deployment>, now: Time)
    ensures var status := Observed(k, vm, found, now);
      status.phase == Deploying || (found.Some? && StatusFits(k, vm, status, found.value))
  {
  }

  lemma ObserveHere(s: State, k: Key, lost: bool, now: Time)
    requires KeyOk(s, k) && CanStep(s, Observe(k, lost, now))
    ensures KeyOk(Apply(s, Observe(k, lost, now)), k)
  {
    var vm, c := s.desks[k].vm, ChildKey(k);
    var found := if lost || c !in s.deployments then None else Some(s.deployments[c]);
    ObservedFits(k, vm, found, now);
    DeskHere(s, k, Writing(vm, Observed(k, vm, found, now), false));
  }

  lemma CallStep(s: State, step: Step, k: Key)
    requires KeyOk(s, k) && CanStep(s, step) && (step.CallFails? || step.Observe?)
    ensures KeyOk(Apply(s, step), k)
  {
    if k != step.key {
      DeskElsewhere(s, step.key, Apply(s, step).desks[step.key], k);
    } else if step.Observe? {
      ObserveHere(s, k, step.lost, step.now);
    } else {
      DeskHere(s, k, Apply(s, step).desks[k]);
    }
  }

  lemma OtherWritten(s: State, m: Key, k: Key)
    requires k != m && m in s.desks && s.desks[m].Writing?
    ensures Same(s, Written(s, m), k)
  {
  }

  lemma TrippedHere(s: State, k: Key)
    requires KeyOk(s, k) && k in s.desks && s.desks[k].Writing? && s.desks[k].tripped && !Stale(s, k)
    ensures KeyOk(Written(s, k), k)
  {
    var t := Written(s, k);
    assert k in t.tripped && t.models[k].status == s.desks[k].status;
  }

  lemma SettledHere(s: State, k: Key)
    requires KeyOk(s, k) && k in s.desks && s.desks[k].Writing? && !s.desks[k].tripped && !Stale(s, k)
    ensures KeyOk(Written(s, k), k)
  {
    var t, d := Written(s, k), s.desks[k];
    var vm := t.models[k];
    assert vm == d.vm.(status := d.status, version := vm.version);
    if !Excused(t, k) {
      assert d.status.phase != Deploying;
      assert DeskFits(s, k, d);
      StatusOnly(k, d.vm, vm, d.status, s.deployments[ChildKey(k)]);
      assert Good(t, k);
    }
  }

  /** Whether a status fits does not depend on the status before. */
  lemma StatusOnly(k: Key, vm: VoiceModel, wm: VoiceModel, status: ModelStatus, d: Deployment)
    requires vm.spec == wm.spec && StatusFits(k, vm, status, d)
    ensures StatusFits(k, wm, status, d)
  {
  }

  lemma WrittenHere(s: State, k: Key)
    requires KeyOk(s, k) && k in s.desks && s.desks[k].Writing?
    ensures KeyOk(Written(s, k), k)
  {
    if Stale(s, k) {
      assert k in Written(s, k).wakeups;
    } else if s.desks[k].tripped {
      TrippedHere(s, k);
    } else {
      SettledHere(s, k);
    }
  }

  lemma WriteFailsStep(s: State, m: Key, k: Key)
    requires KeyOk(s, k) && CanStep(s, WriteFails(m))
    ensures KeyOk(Apply(s, WriteFails(m)), k)
  {
    if k != m {
      Framed(s, Apply(s, WriteFails(m)), k);
    }
  }

  lemma WriteStep(s: State, step: Step, k: Key)
    requires KeyOk(s, k) && CanStep(s, step) && (step.Write? || step.WriteFails?)
    ensures KeyOk(Apply(s, step), k)
  {
    if step.WriteFails? {
      WriteFailsStep(s, step.key, k);
    } else if step.key == k {
      WrittenHere(s, k);
    } else {
      OtherWritten(s, step.key, k);
      Framed(s, Written(s, step.key), k);
    }
  }

  predicate IsReconcile(step: Step) {
    step.WriteDeployment? || step.WriteService? || step.CallFails? || step.Observe? || step.Write? || step.WriteFails?
  }

  lemma ReconcileStep(s: State, step: Step, k: Key)
    requires IsReconcile(step) && CanStep(s, step) && KeyOk(s, k) && KeyOk(s, step.key)
    ensures KeyOk(Apply(s, step), k)
  {
    if step.WriteDeployment? {
      WriteDeploymentStep(s, step.key, k);
    } else if step.WriteService? {
      WriteServiceStep(s, step.key, step.clusterIP, k);
    } else if step.Write? || step.WriteFails? {
      WriteStep(s, step, k);
    } else {
      CallStep(s, step, k);
    }
  }

  lemma OutsideStep(s: State, step: Step, k: Key)
    requires KeyOk(s, k) && CanStep(s, step) && !IsReconcile(step)
    ensures KeyOk(Apply(s, step), k)
  {
    if ChangesChild(step) {
      ChildStep(s, step, k);
    } else if step.Get? || step.Restart? {
      GetStep(s, step, k);
    } else {
      ModelStep(s, step, k);
    }
  }

  lemma {:induction false} RunKeepsInv(steps: seq<Step>)
    ensures Inv(Execute(START, steps))
  {
    if steps != [] {
      var s, step := Execute(START, steps[..|steps| - 1]), steps[|steps| - 1];
      RunKeepsInv(steps[..|steps| - 1]);
      forall k | CanStep(s, step) ensures KeyOk(Apply(s, step), k) {
        assert KeyOk(s, k);
        if IsReconcile(step) {
          assert KeyOk(s, step.key);
          ReconcileStep(s, step, k);
        } else {
          OutsideStep(s, step, k);
        }
      }
    }
  }

  // ----- Main results

  predicate Idle(s: State, k: Key) {
    k !in s.wakeups && k !in s.desks
  }

  /** The Deployment reports a failure in the words of the status. */
  predicate Echoes(s: State, k: Key)
    requires k in s.models
  {
    ChildKey(k) in s.deployments &&
    ReplicaFailure(s.deployments[ChildKey(k)].conditions) == Some(s.models[k].status.message)
  }

  /** In every reachable state a VoiceModel for which nothing is pending has Deployment, Service and status as they should be,
      with two exceptions: its last reconcile gave up on a failed call, and then its phase is Failed, or somebody has changed
      its child since its last Get and nobody was told. The first exception is exact, but for a Deployment that reports a ReplicaFailure
      in the same words. */
  lemma {:induction false} IdleIsGood(steps: seq<Step>, k: Key)
    requires var s := Execute(START, steps); k in s.models && !s.models[k].deleting && Idle(s, k)
    ensures var s := Execute(START, steps);
      Good(s, k) || (k in s.tripped && s.models[k].status.phase == Failed) || k in s.missed
    ensures var s := Execute(START, steps);
      k !in s.missed && !Echoes(s, k) ==> (Good(s, k) <==> k !in s.tripped)
  {
    RunKeepsInv(steps);
    assert KeyOk(Execute(START, steps), k);
  }

  /** A change of the Deployment by somebody else is missed if and only if the VoiceModel owned it neither before nor
      after. */
  lemma StrangersAreMissed(s: State, k: Key, d: Deployment)
    requires Idle(s, k) && k !in s.missed
    ensures var t := After(s, SetDeployment(ChildKey(k), d));
      && (k in t.missed <==> Idle(t, k))
      && (Idle(t, k) <==> d.owner != k && (ChildKey(k) in s.deployments ==> s.deployments[ChildKey(k)].owner != k))
  {
    ParentsOfChild(k, ChildKey(k));
  }

  lemma ExecuteSnoc(steps: seq<Step>, step: Step)
    ensures Execute(START, steps + [step]) == After(Execute(START, steps), step)
  {
    assert (steps + [step])[..|steps|] == steps;
  }

  // ----- Undisturbed reconciles

  /** The calls of one reconcile, in order. */
  function OnePass(s: State, k: Key, ip: string): State {
    After(After(After(After(After(s, Get(k)), WriteDeployment(k)), WriteService(k, ip)), Observe(k, false, 0.0)), Write(k))
  }

  function PassSteps(k: Key, ip: string): seq<Step> {
    [Get(k), WriteDeployment(k), WriteService(k, ip), Observe(k, false, 0.0), Write(k)]
  }

  lemma PassAfter(steps: seq<Step>, k: Key, ip: string)
    ensures Execute(START, steps + PassSteps(k, ip)) == OnePass(Execute(START, steps), k, ip)
  {
    var s1 := steps + [Get(k)];
    var s2 := s1 + [WriteDeployment(k)];
    var s3 := s2 + [WriteService(k, ip)];
    var s4 := s3 + [Observe(k, false, 0.0)];
    ExecuteSnoc(steps, Get(k));
    ExecuteSnoc(s1, WriteDeployment(k));
    ExecuteSnoc(s2, WriteService(k, ip));
    ExecuteSnoc(s3, Observe(k, false, 0.0));
    ExecuteSnoc(s4, Write(k));
    assert steps + PassSteps(k, ip) == s4 + [Write(k)];
  }

  lemma GetReads(s: State, k: Key)
    requires k in s.models && k !in s.desks && k in s.wakeups && !s.models[k].deleting
    ensures var t := After(s, Get(k));
      && k in t.models && t.models[k] == s.models[k].(finalizer := true, version := t.models[k].version)
      && (s.models[k].finalizer ==> t.models == s.models && t.wakeups == s.wakeups - {k})
      && (!s.models[k].finalizer ==> k in t.wakeups)
      && t.desks == s.desks[k := Fetched(t.models[k])] && t.missed == s.missed - {k} && t.tripped == s.tripped
      && t.deployments == s.deployments && t.services == s.services
  {
  }

  lemma ChildrenWritten(s: State, k: Key, ip: string)
    requires k in s.desks && s.desks[k].Fetched?
    ensures var t, vm := After(After(s, WriteDeployment(k)), WriteService(k, ip)), s.desks[k].vm;
      && t.models == s.models && t.missed == s.missed && t.tripped == s.tripped && s.wakeups <= t.wakeups
      && t.deployments == Deployed(s.deployments, k, vm.spec) && t.services == Served(s.services, k, vm.spec, ip)
      && (t.deployments == s.deployments && t.services == s.services ==> t.wakeups == s.wakeups)
      && t.desks == s.desks[k := Desk.WroteService(vm)]
  {
    var vm := s.desks[k].vm;
    DeploymentCall(s, k);
    DeploymentIsWritten(s, k, vm.spec);
    var u := AtDesk(DeploymentWritten(s, k, vm.spec), k, WroteDeployment(vm));
    ServiceCall(u, k, ip);
    ServiceIsWritten(u, k, vm.spec, ip);
  }

  lemma DeploymentCall(s: State, k: Key)
    requires k in s.desks && s.desks[k].Fetched?
    ensures After(s, WriteDeployment(k)) ==
            AtDesk(DeploymentWritten(s, k, s.desks[k].vm.spec), k, WroteDeployment(s.desks[k].vm))
  {
    DeploymentIsWritten(s, k, s.desks[k].vm.spec);
  }

  lemma ServiceCall(s: State, k: Key, ip: string)
    requires k in s.desks && s.desks[k].WroteDeployment?
    ensures After(s, WriteService(k, ip)) ==
            AtDesk(ServiceWritten(s, k, s.desks[k].vm.spec, ip), k, Desk.WroteService(s.desks[k].vm))
  {
    ServiceIsWritten(s, k, s.desks[k].vm.spec, ip);
  }

  lemma ObserveCall(s: State, k: Key)
    requires k in s.desks && s.desks[k].WroteService? && ChildKey(k) in s.deployments
    ensures var vm := s.desks[k].vm;
      After(s, Observe(k, false, 0.0)) ==
      AtDesk(s, k, Writing(vm, Observed(k, vm, Some(s.deployments[ChildKey(k)]), 0.0), false))
  {
  }

  lemma WriteCall(s: State, k: Key)
    requires k in s.desks && s.desks[k].Writing?
    ensures After(s, Write(k)) == Written(s, k)
  {
  }

  lemma DeploymentIsWritten(s: State, k: Key, spec: ModelSpec)
    ensures var t, written := DeploymentWritten(s, k, spec), Deployed(s.deployments, k, spec);
      t == s.(deployments := written, wakeups := t.wakeups) && s.wakeups <= t.wakeups
      && (written == s.deployments ==> t == s)
  {
    var written := Deployed(s.deployments, k, spec);
    assert written == s.deployments[ChildKey(k) := written[ChildKey(k)]];
  }

  lemma ServiceIsWritten(s: State, k: Key, spec: ModelSpec, ip: string)
    ensures var t, written := ServiceWritten(s, k, spec, ip), Served(s.services, k, spec, ip);
      t == s.(services := written, wakeups := t.wakeups) && s.wakeups <= t.wakeups
      && (written == s.services ==> t == s)
  {
    var written := Served(s.services, k, spec, ip);
    assert written == s.services[ChildKey(k) := written[ChildKey(k)]];
  }

  lemma ReportLands(s: State, k: Key)
    requires k in s.models && k in s.desks && s.desks[k] == Desk.WroteService(s.models[k]) && ChildKey(k) in s.deployments
    ensures var vm, d := s.models[k], s.deployments[ChildKey(k)];
      var t, status := After(After(s, Observe(k, false, 0.0)), Write(k)), Observed(k, vm, Some(d), 0.0);
      && t.deployments == s.deployments && t.services == s.services && t.missed == s.missed && t.desks == s.desks - {k}
      && t.tripped == s.tripped - {k} && s.wakeups <= t.wakeups
      && k in t.models && t.models[k] == vm.(status := status, version := t.models[k].version)
  {
    var vm, d := s.models[k], s.deployments[ChildKey(k)];
    var u := AtDesk(s, k, Writing(vm, Observed(k, vm, Some(d), 0.0), false));
    ObserveCall(s, k);
    WriteCall(u, k);
    StatusWritten(s, k, Observed(k, vm, Some(d), 0.0));
  }

  lemma StatusWritten(s: State, k: Key, status: ModelStatus)
    requires k in s.models
    ensures var vm := s.models[k]; var t := Written(AtDesk(s, k, Writing(vm, status, false)), k);
      && t.deployments == s.deployments && t.services == s.services && t.missed == s.missed && t.desks == s.desks - {k}
      && t.tripped == s.tripped - {k} && s.wakeups <= t.wakeups
      && k in t.models && t.models[k] == vm.(status := status, version := t.models[k].version)
      && (status == vm.status && PhaseResult(status.phase) == Done ==>
            t == s.(desks := s.desks - {k}, tripped := s.tripped - {k}))
  {
    assert AtDesk(s, k, Writing(s.models[k], status, false)).desks - {k} == s.desks - {k};
  }

  /** From any state an undisturbed reconcile makes a VoiceModel good. */
  lemma PassIsGood(s: State, k: Key, ip: string)
    requires k in s.models && k !in s.desks && k in s.wakeups && !s.models[k].deleting
    ensures var t := OnePass(s, k, ip);
      && k in t.models && t.models[k].spec == s.models[k].spec && t.models[k].finalizer && !t.models[k].deleting
      && Good(t, k) && k !in t.desks && k !in t.tripped && k !in t.missed
      && t.deployments == Deployed(s.deployments, k, s.models[k].spec)
      && (!s.models[k].finalizer ==> k in t.wakeups)
  {
    var s1 := After(s, Get(k));
    GetReads(s, k);
    var s3 := After(After(s1, WriteDeployment(k)), WriteService(k, ip));
    ChildrenWritten(s1, k, ip);
    ReportLands(s3, k);
    var t, vm, d := OnePass(s, k, ip), s1.models[k], s3.deployments[ChildKey(k)];
    ChildrenBuilt(World(s1.models, s1.deployments, s1.services), k, vm.spec, ip);
    FreshStatusFits(k, vm, d, t.models[k]);
  }

  lemma FreshStatusFits(k: Key, vm: VoiceModel, d: Deployment, wm: VoiceModel)
    requires wm.spec == vm.spec && wm.status == Observed(k, vm, Some(d), 0.0)
    ensures StatusFits(k, wm, wm.status, d)
  {
  }

  /** And a good one is left alone, if its phase is not one that is polled. */
  lemma GoodIsQuiet(s: State, k: Key, ip: string)
    requires k in s.models && k !in s.desks && k in s.wakeups && !s.models[k].deleting && s.models[k].finalizer
    requires Good(s, k) && s.models[k].status.phase != Deploying
    ensures OnePass(s, k, ip) ==
            s.(wakeups := s.wakeups - {k}, missed := s.missed - {k}, tripped := s.tripped - {k})
  {
    var s3 := After(After(After(s, Get(k)), WriteDeployment(k)), WriteService(k, ip));
    QuietCalls(s, k, ip);
    FittingStatusStays(k, s.models[k], s.deployments[ChildKey(k)]);
    QuietReport(s3, k);
    assert s3.desks - {k} == s.desks;
  }

  lemma QuietCalls(s: State, k: Key, ip: string)
    requires k in s.models && k !in s.desks && k in s.wakeups && !s.models[k].deleting && s.models[k].finalizer
    requires DeploymentFits(s, k, s.models[k].spec) && ServiceFits(s, k, s.models[k].spec)
    ensures After(After(After(s, Get(k)), WriteDeployment(k)), WriteService(k, ip)) ==
            s.(wakeups := s.wakeups - {k}, missed := s.missed - {k}, desks := s.desks[k := Desk.WroteService(s.models[k])])
  {
    var s1 := s.(wakeups := s.wakeups - {k}, missed := s.missed - {k}, desks := s.desks[k := Fetched(s.models[k])]);
    assert After(s, Get(k)) == s1;
    FittingStays(s, k, ip);
    DeploymentCall(s1, k);
    assert DeploymentWritten(s1, k, s.models[k].spec) == s1;
    var s2 := AtDesk(s1, k, WroteDeployment(s.models[k]));
    ServiceCall(s2, k, ip);
    assert ServiceWritten(s2, k, s.models[k].spec, ip) == s2;
  }

  lemma FittingStays(s: State, k: Key, ip: string)
    requires k in s.models && DeploymentFits(s, k, s.models[k].spec) && ServiceFits(s, k, s.models[k].spec)
    ensures Deployed(s.deployments, k, s.models[k].spec) == s.deployments
    ensures Served(s.services, k, s.models[k].spec, ip) == s.services
  {
  }

  lemma FittingStatusStays(k: Key, vm: VoiceModel, d: Deployment)
    requires StatusFits(k, vm, vm.status, d)
    ensures Observed(k, vm, Some(d), 0.0) == vm.status
    ensures vm.status.phase != Deploying ==> PhaseResult(vm.status.phase) == Done
  {
  }

  lemma QuietReport(s: State, k: Key)
    requires k in s.models && k in s.desks && s.desks[k] == Desk.WroteService(s.models[k]) && ChildKey(k) in s.deployments
    requires Observed(k, s.models[k], Some(s.deployments[ChildKey(k)]), 0.0) == s.models[k].status
    requires PhaseResult(s.models[k].status.phase) == Done
    ensures After(After(s, Observe(k, false, 0.0)), Write(k)) == s.(desks := s.desks - {k}, tripped := s.tripped - {k})
  {
    var vm := s.models[k];
    ObserveCall(s, k);
    WriteCall(AtDesk(s, k, Writing(vm, vm.status, false)), k);
    StatusWritten(s, k, vm.status);
  }

  /** One reconcile whose first call fails. */
  function FailingPass(s: State, k: Key, text: string): State {
    After(After(After(s, Get(k)), CallFails(k, text, 0.0)), Write(k))
  }

  /** One reconcile whose first call fails with the same text as before, from a model that reports it already. */
  lemma FailsQuietly(s: State, k: Key, text: string)
    requires k in s.models && k !in s.desks && k in s.wakeups
    requires s.models[k].finalizer && !s.models[k].deleting
    requires s.models[k].status.phase == Failed && s.models[k].status.message == text
    ensures var t := FailingPass(s, k, text);
      t.models == s.models && t.deployments == s.deployments && Idle(t, k) && k in t.tripped && k !in t.missed
  {
    var vm := s.models[k];
    var s1 := s.(wakeups := s.wakeups - {k}, missed := s.missed - {k}, desks := s.desks[k := Fetched(vm)]);
    assert After(s, Get(k)) == s1;
    var s2 := s1.(desks := s.desks[k := Writing(vm, vm.status, true)]);
    assert After(s1, CallFails(k, text, 0.0)) == s2;
  }

  /** The first failure is reported, which is a change and raises an event; so does the finalizer. */
  lemma FailsLoudly(s: State, k: Key, text: string)
    requires k in s.models && k !in s.desks && k in s.wakeups && !s.models[k].finalizer && !s.models[k].deleting
    ensures var t := FailingPass(s, k, text);
      && k in t.models && k !in t.desks && k in t.wakeups && t.models[k].finalizer && !t.models[k].deleting
      && t.models[k].status.phase == Failed && t.models[k].status.message == text
      && t.deployments == s.deployments && (k !in s.missed ==> k !in t.missed)
  {
    var s1 := After(s, Get(k));
    var vm := s1.models[k];
    assert s1.desks == s.desks[k := Fetched(vm)] && vm.finalizer && k in s1.wakeups;
    GivesUp(s1, k, text);
  }

  lemma GivesUp(s: State, k: Key, text: string)
    requires k in s.models && k in s.desks && s.desks[k] == Fetched(s.models[k]) && k in s.wakeups
    ensures var t := After(After(s, CallFails(k, text, 0.0)), Write(k));
      && k in t.models && t.models[k].spec == s.models[k].spec && t.desks == s.desks - {k} && k in t.wakeups
      && t.models[k].finalizer == s.models[k].finalizer && t.models[k].deleting == s.models[k].deleting
      && t.models[k].status.phase == Failed && t.models[k].status.message == text
      && t.deployments == s.deployments && (k !in s.missed ==> k !in t.missed)
  {
    var vm := s.models[k];
    var u := s.(desks := s.desks[k := Writing(vm, Phased(vm.status, Failed, text, 0.0), true)]);
    assert After(s, CallFails(k, text, 0.0)) == u;
    assert u.desks - {k} == s.desks - {k};
    WriteCall(u, k);
  }

  function Failing(k: Key, text: string): seq<Step> {
    [Get(k), CallFails(k, text, 0.0), Write(k)]
  }

  lemma FailingAfter(steps: seq<Step>, k: Key, text: string)
    ensures Execute(START, steps + Failing(k, text)) ==
            FailingPass(Execute(START, steps), k, text)
  {
    var s1, s2 := steps + [Get(k)], steps + [Get(k)] + [CallFails(k, text, 0.0)];
    ExecuteSnoc(steps, Get(k));
    ExecuteSnoc(s1, CallFails(k, text, 0.0));
    ExecuteSnoc(s2, Write(k));
    assert steps + Failing(k, text) == s2 + [Write(k)];
  }

  /** The exception is real: a new VoiceModel whose Deployment cannot be created, twice with the same text, is left alone
      with no Deployment. */
  lemma ForgottenHappens(k: Key, spec: ModelSpec, text: string) returns (steps: seq<Step>)
    ensures var s := Execute(START, steps);
      && k in s.models && !s.models[k].deleting && Idle(s, k) && !Good(s, k)
      && k !in s.missed && s.deployments == map[]
  {
    steps := [] + [CreateModel(k, spec)];
    ExecuteSnoc([], CreateModel(k, spec));
    Created(k, spec);
    FailsTwice(Execute(START, steps), k, text);
    FailingAfter(steps, k, text);
    steps := steps + Failing(k, text);
    FailingAfter(steps, k, text);
    steps := steps + Failing(k, text);
    NoDeploymentIsWrong(Execute(START, steps), k);
  }

  lemma FailsTwice(s: State, k: Key, text: string)
    requires k in s.models && k !in s.desks && k in s.wakeups && !s.models[k].finalizer && !s.models[k].deleting
    ensures var t := FailingPass(FailingPass(s, k, text), k, text);
      && k in t.models && !t.models[k].deleting && Idle(t, k) && k !in t.missed && t.deployments == s.deployments
  {
    FailsLoudly(s, k, text);
    FailsQuietly(FailingPass(s, k, text), k, text);
  }

  lemma Created(k: Key, spec: ModelSpec)
    ensures var s := After(START, CreateModel(k, spec));
      && k in s.models && s.models[k].spec == spec && !s.models[k].finalizer && !s.models[k].deleting
      && k in s.wakeups && s.desks == map[] && s.deployments == map[] && s.missed == {} && s.services == map[]
  {
  }

  lemma NoDeploymentIsWrong(s: State, k: Key)
    requires k in s.models && s.deployments == map[]
    ensures !Good(s, k)
  {
  }

  /** A Deployment under the name of k's child that names another owner. */
  function Strange(k: Key, spec: ModelSpec): Deployment {
    BuildDeployment(k, spec).(owner := Key(k.ns, ""), readyReplicas := Replicas(spec))
  }

  lemma CreatedThenStrange(k: Key, spec: ModelSpec)
    requires k.name != ""
    ensures var s := After(After(START, CreateModel(k, spec)), SetDeployment(ChildKey(k), Strange(k, spec)));
      && k in s.models && k !in s.desks && k in s.wakeups && !s.models[k].deleting && !s.models[k].finalizer
      && s.models[k].spec == spec && s.deployments == map[ChildKey(k) := Strange(k, spec)]
  {
    Created(k, spec);
  }

  /** A later change that nobody is told of. */
  lemma StrangeChange(s: State, k: Key, d: Deployment)
    requires k in s.models && Good(s, k) && Idle(s, k) && k !in s.tripped && !s.models[k].deleting
    requires d.owner != k && s.deployments[ChildKey(k)].owner != k
    requires d.readyReplicas != s.models[k].status.readyReplicas
    ensures var t := After(s, SetDeployment(ChildKey(k), d));
      k in t.models && !t.models[k].deleting && Idle(t, k) && k !in t.tripped && k in t.missed && !Good(t, k)
  {
    ParentsOfChild(k, ChildKey(k));
  }

  /** The other exception is real, too: a VoiceModel whose Deployment somebody else owns is deployed and Ready, the Deployment
      loses a replica, and the status stays Ready. */
  lemma MissedHappens(k: Key, spec: ModelSpec, ip: string) returns (steps: seq<Step>)
    requires k.name != ""
    ensures var s := Execute(START, steps);
      && k in s.models && !s.models[k].deleting && Idle(s, k) && !Good(s, k)
      && k !in s.tripped && s.models[k].status.phase == Ready
  {
    steps := StrangelyReady(k, spec, ip);
    GoodIsQuiet(Execute(START, steps), k, ip);
    PassAfter(steps, k, ip);
    steps := steps + PassSteps(k, ip);
    var fewer := Strange(k, spec).(readyReplicas := Replicas(spec) - 1);
    StrangeChange(Execute(START, steps), k, fewer);
    ExecuteSnoc(steps, SetDeployment(ChildKey(k), fewer));
    steps := steps + [SetDeployment(ChildKey(k), fewer)];
  }

  lemma StrangelyReady(k: Key, spec: ModelSpec, ip: string) returns (steps: seq<Step>)
    requires k.name != ""
    ensures var s := Execute(START, steps);
      && k in s.models && k !in s.desks && k in s.wakeups && k !in s.tripped && Good(s, k)
      && s.models[k].finalizer && !s.models[k].deleting && s.models[k].status.phase == Ready
      && s.models[k].status.readyReplicas == Replicas(spec) && s.deployments[ChildKey(k)].owner == Key(k.ns, "")
  {
    var c, d := ChildKey(k), Strange(k, spec);
    steps := [] + [CreateModel(k, spec)];
    ExecuteSnoc([], CreateModel(k, spec));
    ExecuteSnoc(steps, SetDeployment(c, d));
    steps := steps + [SetDeployment(c, d)];
    CreatedThenStrange(k, spec);
    PassIsGood(Execute(START, steps), k, ip);
    PassAfter(steps, k, ip);
    steps := steps + PassSteps(k, ip);
    StrangeIsReady(Execute(START, steps), k, spec);
  }

  lemma StrangeIsReady(s: State, k: Key, spec: ModelSpec)
    requires k in s.models && s.models[k].spec == spec && Good(s, k)
    requires s.deployments == Deployed(map[ChildKey(k) := Strange(k, spec)], k, spec)
    ensures s.models[k].status.phase == Ready && s.models[k].status.readyReplicas == Replicas(spec)
    ensures s.deployments[ChildKey(k)].owner == Key(k.ns, "")
  {
  }
}
