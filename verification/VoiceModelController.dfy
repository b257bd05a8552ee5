/** operator/internal/controller/voicemodel_controller.go: one reconcile of a VoiceModel. */
module VoiceModelController {
  import opened Api

  const CPU_IMAGE := "fedirz/faster-whisper-server:0.3.0-cpu"
  const GPU_IMAGE := "fedirz/faster-whisper-server:0.3.0-cuda"
  const REPLICA_FAILURE := "ReplicaFailure"

  // ----- The objects a VoiceModel owns

  datatype Container = Container(
    image: string, port: int, env: seq<(string, string)>, resources: Resources,
    probePath: string, initialDelay: int, period: int)

  datatype DeploymentSpec = DeploymentSpec(
    replicas: int, selector: map<string, string>,
    podLabels: map<string, string>, podAnnotations: map<string, string>, container: Container)

  datatype Condition = Condition(kind: string, isTrue: bool, message: string)

  datatype Deployment = Deployment(
    labels: map<string, string>, owner: Key, spec: DeploymentSpec, readyReplicas: int, conditions: seq<Condition>)

  datatype ServiceSpec = ServiceSpec(selector: map<string, string>, port: int, clusterIP: string)

  datatype Service = Service(labels: map<string, string>, owner: Key, spec: ServiceSpec)

  // ----- What is built from a spec

  function ChildKey(k: Key): Key { Key(k.ns, "vox-" + k.name) }

  lemma ChildrenDiffer(j: Key, k: Key)
    requires j != k
    ensures ChildKey(j) != ChildKey(k)
  {
    assert ("vox-" + j.name)[4..] == j.name && ("vox-" + k.name)[4..] == k.name;
  }

  function GetPort(spec: ModelSpec): int {
    if spec.port > 0 then spec.port else 8000
  }

  function Replicas(spec: ModelSpec): int { spec.replicas.GetOr(1) }

  function LabelsFor(k: Key): map<string, string> {
    map["app.kubernetes.io/name" := "voicemodel",
        "app.kubernetes.io/instance" := k.name,
        "app.kubernetes.io/managed-by" := "voxplatform-operator",
        "vox.io/model" := k.name]
  }

  function DefaultResources(device: string): Resources {
    if device == "gpu" then
      Resources(map["cpu" := "1", "memory" := "4Gi", "nvidia.com/gpu" := "1"],
                map["cpu" := "4", "memory" := "8Gi", "nvidia.com/gpu" := "1"])
    else
      Resources(map["cpu" := "500m", "memory" := "1Gi"], map["cpu" := "1500m", "memory" := "3Gi"])
  }

  function BuildDeployment(k: Key, spec: ModelSpec): Deployment {
    var image :=
      if spec.image != "" then spec.image else if spec.device == "gpu" then GPU_IMAGE else CPU_IMAGE;
    var health := spec.health.GetOr(HealthConfig("", 0, 0));
    var port := GetPort(spec);
    var annotations :=
      if spec.metrics.GetOr(true) then
        map["prometheus.io/scrape" := "true",
            "prometheus.io/port" := Signed(port),
            "prometheus.io/path" := "/metrics"]
      else map[];
    var container := Container(
      image, port,
      [("WHISPER__MODEL", spec.model), ("WHISPER__INFERENCE_DEVICE", spec.device),
       ("WHISPER__COMPUTE_TYPE", spec.quantization)],
      spec.resources.GetOr(DefaultResources(spec.device)),
      if health.path != "" then health.path else "/health",
      if health.initialDelaySeconds > 0 then health.initialDelaySeconds else 60,
      if health.periodSeconds > 0 then health.periodSeconds else 10);
    Deployment(LabelsFor(k), k, DeploymentSpec(Replicas(spec), LabelsFor(k), LabelsFor(k), annotations, container), 0, [])
  }

  function BuildService(k: Key, spec: ModelSpec): Service {
    Service(LabelsFor(k), k, ServiceSpec(LabelsFor(k), GetPort(spec), ""))
  }

  function Signed(n: int): string {
    if n < 0 then "-" + Decimal(-n) else Decimal(n)
  }

  function Endpoint(child: Key, port: int): string {
    child.name + "." + child.ns + ".svc.cluster.local:" + Signed(port)
  }

  // ----- The API server, and what one pass makes of it

  datatype World = World(
    models: map<Key, VoiceModel>, deployments: map<Key, Deployment>, services: map<Key, Service>)

  /** Which calls of a pass fail, and the ClusterIP that the API server gives a new Service. */
  datatype Weather = Weather(
    finalizer: bool, deployment: Option<string>, service: Option<string>, deploymentLost: bool, status: bool,
    clusterIP: string)

  predicate Calm(w: Weather) {
    !w.finalizer && w.deployment.None? && w.service.None? && !w.deploymentLost && !w.status
  }

  function Deployed(deployments: map<Key, Deployment>, k: Key, spec: ModelSpec): map<Key, Deployment> {
    var c, desired := ChildKey(k), BuildDeployment(k, spec);
    deployments[c := if c in deployments then deployments[c].(spec := desired.spec) else desired]
  }

  function Served(services: map<Key, Service>, k: Key, spec: ModelSpec, clusterIP: string): map<Key, Service> {
    var c, desired := ChildKey(k), BuildService(k, spec);
    services[c := if c in services
                  then services[c].(spec := desired.spec.(clusterIP := services[c].spec.clusterIP))
                  else desired.(spec := desired.spec.(clusterIP := clusterIP))]
  }

  function Phased(status: ModelStatus, phase: ModelPhase, message: string, now: Time): ModelStatus {
    status.(phase := phase, message := message,
            lastTransition := if status.phase != phase then Some(now) else status.lastTransition)
  }

  function ReplicaFailure(conditions: seq<Condition>): Option<string> {
    if conditions == [] then None
    else if conditions[0].kind == REPLICA_FAILURE && conditions[0].isTrue then Some(conditions[0].message)
    else ReplicaFailure(conditions[1..])
  }

  function Fraction(ready: int, of: int): string {
    Signed(ready) + "/" + Signed(of) + " replicas ready"
  }

  /** updateStatus, given the Deployment that its Get returned. */
  function Observed(k: Key, vm: VoiceModel, found: Option<Deployment>, now: Time): ModelStatus {
    match found
    case None => Phased(vm.status, Deploying, "waiting for Deployment", now)
    case Some(d) =>
      var ready, want := d.readyReplicas, Replicas(vm.spec);
      var status := vm.status.(readyReplicas := ready, endpoint := Endpoint(ChildKey(k), GetPort(vm.spec)));
      if ready >= want then Phased(status, Ready, Fraction(ready, want), now)
      else if ready > 0 then Phased(status, Deploying, Fraction(ready, want), now)
      else match ReplicaFailure(d.conditions)
           case Some(text) => Phased(status, Failed, text, now)
           case None => Phased(status, Deploying, "waiting for pods to be ready", now)
  }

  /** An update of a stored model; an update that changes nothing leaves the resource version alone. */
  function Stored(models: map<Key, VoiceModel>, k: Key, vm: VoiceModel): map<Key, VoiceModel>
    requires k in models
  {
    if models[k] == vm.(version := models[k].version) then models
    else models[k := vm.(version := models[k].version + 1)]
  }

  function Finalized(models: map<Key, VoiceModel>, k: Key): map<Key, VoiceModel>
    requires k in models
  {
    Stored(models, k, models[k].(finalizer := true))
  }

  /** Reconcile, call by call. */
  function Pass(w: World, k: Key, weather: Weather, now: Time): World {
    if k !in w.models then w
    else if w.models[k].deleting then
      // without its finalizer an object that is being deleted disappears
      if weather.finalizer then w else w.(models := w.models - {k})
    else if !w.models[k].finalizer && weather.finalizer then w
    else Converged(w.(models := Finalized(w.models, k)), k, weather, now)
  }

  /** The part of a reconcile after the finalizer: Deployment, Service, status. */
  function Converged(w: World, k: Key, weather: Weather, now: Time): World
    requires k in w.models
  {
    var vm := w.models[k];
    if weather.deployment.Some? then
      w.(models := Reported(w.models, k, Phased(vm.status, Failed, weather.deployment.value, now), weather))
    else
      var deployments := Deployed(w.deployments, k, vm.spec);
      if weather.service.Some? then
        w.(models := Reported(w.models, k, Phased(vm.status, Failed, weather.service.value, now), weather),
           deployments := deployments)
      else
        var found := if weather.deploymentLost then None else Some(deployments[ChildKey(k)]);
        World(Reported(w.models, k, Observed(k, vm, found, now), weather),
              deployments,
              Served(w.services, k, vm.spec, weather.clusterIP))
  }

  function Reported(models: map<Key, VoiceModel>, k: Key, status: ModelStatus, weather: Weather): map<Key, VoiceModel>
    requires k in models
  {
    if weather.status then models else Stored(models, k, models[k].(status := status))
  }

  function PhaseResult(phase: ModelPhase): Result {
    if phase != Ready && phase != Failed then RequeueAfter(10) else Done
  }

  // ----- The controller code

  /** The VoiceModel as the reconciler holds it. */
  class ModelObject {
    const key: Key
    var vm: VoiceModel

    constructor (key: Key, vm: VoiceModel)
      ensures this.key == key && this.vm == vm
    {
      this.key, this.vm := key, vm;
    }
  }

  /** The API server that the reconciler talks to. */
  class Cluster {
    var models: map<Key, VoiceModel>
    var deployments: map<Key, Deployment>
    var services: map<Key, Service>

    function Value(): World
      reads this
    {
      World(models, deployments, services)
    }

    constructor (w: World)
      ensures Value() == w
    {
      models, deployments, services := w.models, w.deployments, w.services;
    }

    method ReconcileDeployment(o: ModelObject, weather: Weather) returns (error: Option<string>)
      modifies this`deployments
      ensures error == weather.deployment
      ensures deployments == if error.Some? then old(deployments) else Deployed(old(deployments), o.key, o.vm.spec)
    {
      var name := ChildKey(o.key);
      var desired := BuildDeployment(o.key, o.vm.spec);
      if weather.deployment.Some? {
        return weather.deployment;
      }
      if name !in deployments {
        deployments := deployments[name := desired];
      } else {
        var existing := deployments[name];
        existing := existing.(spec := desired.spec);
        deployments := deployments[name := existing];
      }
      return None;
    }

    method ReconcileService(o: ModelObject, weather: Weather) returns (error: Option<string>)
      modifies this`services
      ensures error == weather.service
      ensures services ==
              if error.Some? then old(services) else Served(old(services), o.key, o.vm.spec, weather.clusterIP)
    {
      var name := ChildKey(o.key);
      var desired := BuildService(o.key, o.vm.spec);
      if weather.service.Some? {
        return weather.service;
      }
      if name !in services {
        services := services[name := desired.(spec := desired.spec.(clusterIP := weather.clusterIP))];
      } else {
        var existing := services[name];
        desired := desired.(spec := desired.spec.(clusterIP := existing.spec.clusterIP));
        existing := existing.(spec := desired.spec);
        services := services[name := existing];
      }
      return None;
    }

    method SetPhase(o: ModelObject, phase: ModelPhase, message: string, weather: Weather, now: Time)
      returns (result: Result)
      requires o.key in models
      modifies this`models, o
      ensures o.vm == old(o.vm).(status := Phased(old(o.vm.status), phase, message, now))
      ensures models == if weather.status then old(models) else Stored(old(models), o.key, o.vm)
      ensures result == if weather.status then Failure else PhaseResult(phase)
      ensures !weather.status ==> result == if phase in {Ready, Failed} then Done else RequeueAfter(10)
    {
      if o.vm.status.phase != phase {
        o.vm := o.vm.(status := o.vm.status.(lastTransition := Some(now)));
      }
      o.vm := o.vm.(status := o.vm.status.(phase := phase));
      o.vm := o.vm.(status := o.vm.status.(message := message));
      if weather.status {
        return Failure;
      }
      models := Stored(models, o.key, o.vm);
      if phase != Ready && phase != Failed {
        return RequeueAfter(10);
      }
      return Done;
    }

    method UpdateStatus(o: ModelObject, weather: Weather, now: Time) returns (result: Result)
      requires o.key in models && ChildKey(o.key) in deployments
      modifies this`models, o
      ensures var found := if weather.deploymentLost then None else Some(deployments[ChildKey(o.key)]);
        o.vm == old(o.vm).(status := Observed(o.key, old(o.vm), found, now))
      ensures models == if weather.status then old(models) else Stored(old(models), o.key, o.vm)
      ensures result == if weather.status then Failure else PhaseResult(o.vm.status.phase)
    {
      if weather.deploymentLost {
        result := SetPhase(o, Deploying, "waiting for Deployment", weather, now);
        return;
      }
      var deploy := deployments[ChildKey(o.key)];
      o.vm := o.vm.(status := o.vm.status.(readyReplicas := deploy.readyReplicas));
      o.vm := o.vm.(status := o.vm.status.(endpoint := Endpoint(ChildKey(o.key), GetPort(o.vm.spec))));
      var replicas := 1;
      if o.vm.spec.replicas.Some? {
        replicas := o.vm.spec.replicas.value;
      }
      if deploy.readyReplicas >= replicas {
        result := SetPhase(o, Ready, Fraction(deploy.readyReplicas, replicas), weather, now);
      } else if deploy.readyReplicas > 0 {
        result := SetPhase(o, Deploying, Fraction(deploy.readyReplicas, replicas), weather, now);
      } else {
        for i := 0 to |deploy.conditions|
          invariant ReplicaFailure(deploy.conditions[i..]) == ReplicaFailure(deploy.conditions)
        {
          if deploy.conditions[i].kind == REPLICA_FAILURE && deploy.conditions[i].isTrue {
            result := SetPhase(o, Failed, deploy.conditions[i].message, weather, now);
            return;
          }
        }
        result := SetPhase(o, Deploying, "waiting for pods to be ready", weather, now);
      }
    }

    /** The whole Reconcile does what Pass says, for every combination of failing calls. */
    method Reconcile(k: Key, weather: Weather, now: Time) returns (result: Result)
      modifies this
      ensures Value() == Pass(old(Value()), k, weather, now)
      ensures result ==
              if k !in old(models) then Done
              else if old(models)[k].deleting || (!old(models)[k].finalizer && weather.finalizer) then
                if weather.finalizer then Failure else Done
              else if weather.status then Failure
              else PhaseResult(models[k].status.phase)
      ensures result == RequeueAfter(10) ==> k in models && models[k].status.phase !in {Ready, Failed}
      ensures result == Done && k in models ==> models[k].status.phase in {Ready, Failed}
    {
      if k !in models {
        return Done;
      }
      var o := new ModelObject(k, models[k]);
      if o.vm.deleting {
        if weather.finalizer {
          return Failure;
        }
        models := models - {k};
        return Done;
      }
      if !o.vm.finalizer {
        o.vm := o.vm.(finalizer := true);
        if weather.finalizer {
          return Failure;
        }
        models := Stored(models, k, o.vm);
        o.vm := models[k];
      }
      result := Converge(o, weather, now);
    }

    method Converge(o: ModelObject, weather: Weather, now: Time) returns (result: Result)
      requires o.key in models && models[o.key] == o.vm
      modifies this, o
      ensures Value() == Converged(old(Value()), o.key, weather, now)
      ensures result == if weather.status then Failure else PhaseResult(models[o.key].status.phase)
    {
      var error := ReconcileDeployment(o, weather);
      if error.Some? {
        result := SetPhase(o, Failed, error.value, weather, now);
        return;
      }
      error := ReconcileService(o, weather);
      if error.Some? {
        result := SetPhase(o, Failed, error.value, weather, now);
        return;
      }
      result := UpdateStatus(o, weather, now);
    }
  }

  // ----- Convergence

  /** From any state of the Deployment and Service, absent or drifted, one undisturbed pass makes both what the spec
      asks for, keeps an assigned ClusterIP, and reports the phase that the deployed replica count implies. */
  lemma PassConverges(w: World, k: Key, weather: Weather, now: Time)
    requires k in w.models && !w.models[k].deleting && Calm(weather)
    ensures var t := Pass(w, k, weather, now); var c := ChildKey(k); var spec := w.models[k].spec;
      && k in t.models && t.models[k].spec == spec && t.models[k].finalizer
      && c in t.deployments && t.deployments[c].spec == BuildDeployment(k, spec).spec
      && c in t.services && t.services[c].spec.(clusterIP := "") == BuildService(k, spec).spec
      && t.services[c].spec.clusterIP == (if c in w.services then w.services[c].spec.clusterIP else weather.clusterIP)
      && (c in w.deployments ==> t.deployments[c].readyReplicas == w.deployments[c].readyReplicas)
      && (t.models[k].status.phase == Ready <==> t.deployments[c].readyReplicas >= t.deployments[c].spec.replicas)
      && t.models[k].status.endpoint == Endpoint(c, t.services[c].spec.port)
      && forall x :: x != k ==> (x in t.models <==> x in w.models) && (x in w.models ==> t.models[x] == w.models[x])
  {
    var t := Pass(w, k, weather, now);
    ChildrenBuilt(w, k, w.models[k].spec, weather.clusterIP);
    var vm := Finalized(w.models, k)[k];
    var status := Observed(k, vm, Some(t.deployments[ChildKey(k)]), now);
    assert t == World(Stored(Finalized(w.models, k), k, vm.(status := status)),
                      Deployed(w.deployments, k, vm.spec), Served(w.services, k, vm.spec, weather.clusterIP));
    ReadyMeansDeployed(k, vm, t.deployments[ChildKey(k)], now);
  }

  lemma ChildrenBuilt(w: World, k: Key, spec: ModelSpec, ip: string)
    ensures var d, v, c := Deployed(w.deployments, k, spec), Served(w.services, k, spec, ip), ChildKey(k);
      && c in d && d[c].spec == BuildDeployment(k, spec).spec
      && c in v && v[c].spec.(clusterIP := "") == BuildService(k, spec).spec
      && v[c].spec.clusterIP == (if c in w.services then w.services[c].spec.clusterIP else ip)
      && (c in w.deployments ==> d[c].readyReplicas == w.deployments[c].readyReplicas)
  {
  }

  lemma ReadyMeansDeployed(k: Key, vm: VoiceModel, d: Deployment, now: Time)
    requires d.spec == BuildDeployment(k, vm.spec).spec
    ensures var status := Observed(k, vm, Some(d), now);
      && (status.phase == Ready <==> d.readyReplicas >= d.spec.replicas)
      && status.endpoint == Endpoint(ChildKey(k), BuildService(k, vm.spec).spec.port)
  {
  }

  /** And the pieces fit together: the Service selects exactly the Deployment's pods, and Service, container, scrape
      annotation and published endpoint all have the same port. */
  lemma PassWiresUp(w: World, k: Key, weather: Weather, now: Time)
    requires k in w.models && !w.models[k].deleting && Calm(weather)
    ensures var t, c := Pass(w, k, weather, now), ChildKey(k);
      && k in t.models && c in t.deployments && c in t.services
      && var d, v := t.deployments[c].spec, t.services[c].spec;
        && v.selector == d.selector == d.podLabels
        && v.port == d.container.port > 0
        && t.models[k].status.endpoint == c.name + "." + c.ns + ".svc.cluster.local:" + Signed(v.port)
        && (d.podAnnotations == map[] <==> w.models[k].spec.metrics == Some(false))
        && (d.podAnnotations != map[] ==>
              "prometheus.io/port" in d.podAnnotations && d.podAnnotations["prometheus.io/port"] == Signed(v.port))
  {
    PassConverges(w, k, weather, now);
    var d := BuildDeployment(k, w.models[k].spec).spec;
    if w.models[k].spec.metrics != Some(false) {
      assert "prometheus.io/port" in d.podAnnotations;
    }
  }

  lemma ObservedTwice(k: Key, vm: VoiceModel, d: Deployment, now: Time, later: Time, version: nat)
    ensures var status := Observed(k, vm, Some(d), now);
      Observed(k, vm.(status := status, finalizer := true, version := version), Some(d), later) == status
  {
  }

  /** What an undisturbed pass leaves behind for a model. */
  ghost predicate Settled(w: World, k: Key, vm: VoiceModel, now: Time) {
    && k in w.models && !vm.deleting && ChildKey(k) in w.deployments
    && w.models[k] == vm.(finalizer := true, version := w.models[k].version,
                          status := Observed(k, vm, Some(w.deployments[ChildKey(k)]), now))
    && w.deployments == Deployed(w.deployments, k, vm.spec)
    && forall ip :: w.services == Served(w.services, k, vm.spec, ip)
  }

  lemma ChildrenStay(w: World, k: Key, spec: ModelSpec, ip: string, other: string)
    ensures var d := Deployed(w.deployments, k, spec); Deployed(d, k, spec) == d
    ensures var v := Served(w.services, k, spec, ip); Served(v, k, spec, other) == v
  {
  }

  lemma PassSettles(w: World, k: Key, weather: Weather, now: Time)
    requires k in w.models && !w.models[k].deleting && Calm(weather)
    ensures Settled(Pass(w, k, weather, now), k, w.models[k], now)
  {
    var vm, t := w.models[k], Pass(w, k, weather, now);
    forall ip ensures t.services == Served(t.services, k, vm.spec, ip) {
      ChildrenStay(w, k, vm.spec, weather.clusterIP, ip);
    }
    var before := Finalized(w.models, k)[k];
    var status := Observed(k, before, Some(t.deployments[ChildKey(k)]), now);
    assert status == Observed(k, vm, Some(t.deployments[ChildKey(k)]), now);
    assert t.models == Stored(Finalized(w.models, k), k, before.(status := status));
  }

  lemma SettledStays(t: World, k: Key, vm: VoiceModel, weather: Weather, now: Time, later: Time)
    requires Settled(t, k, vm, now) && Calm(weather)
    ensures Pass(t, k, weather, later) == t
  {
    ObservedTwice(k, vm, t.deployments[ChildKey(k)], now, later, t.models[k].version);
    assert Finalized(t.models, k) == t.models;
  }

  /** A second undisturbed pass, at any later time, changes nothing at all. */
  lemma PassIdempotent(w: World, k: Key, first: Weather, second: Weather, now: Time, later: Time)
    requires k in w.models && !w.models[k].deleting && Calm(first) && Calm(second)
    ensures Pass(Pass(w, k, first, now), k, second, later) == Pass(w, k, first, now)
  {
    PassSettles(w, k, first, now);
    SettledStays(Pass(w, k, first, now), k, w.models[k], second, now, later);
  }

  // ----- Histories

  /** What can happen to a VoiceModel and its children over time. The API server refuses to change the selector of a
      Deployment, so `Tamper` keeps it. */
  datatype Happening =
    | EditSpec(spec: ModelSpec)
    | Reconciled(weather: Weather, now: Time)
    | Tamper(replicas: int, readyReplicas: int, conditions: seq<Condition>)
    | LoseDeployment
    | LoseService

  function Happen(w: World, k: Key, h: Happening): World {
    var c := ChildKey(k);
    match h
    case EditSpec(spec) =>
      if k in w.models then w.(models := Stored(w.models, k, w.models[k].(spec := spec))) else w
    case Reconciled(weather, now) => Pass(w, k, weather, now)
    case Tamper(replicas, ready, conditions) =>
      if c !in w.deployments then w
      else
        var d := w.deployments[c];
        w.(deployments := w.deployments[c :=
             d.(spec := d.spec.(replicas := replicas), readyReplicas := ready, conditions := conditions)])
    case LoseDeployment => w.(deployments := w.deployments - {c})
    case LoseService => w.(services := w.services - {c})
  }

  function History(w: World, k: Key, hs: seq<Happening>): World {
    if hs == [] then w else Happen(History(w, k, hs[..|hs| - 1]), k, hs[|hs| - 1])
  }

  predicate DeploymentSelects(deployments: map<Key, Deployment>, k: Key) {
    var c := ChildKey(k);
    c in deployments ==> deployments[c].spec.selector == deployments[c].spec.podLabels == LabelsFor(k)
  }

  predicate ServiceSelects(services: map<Key, Service>, k: Key) {
    var c := ChildKey(k);
    c in services ==> services[c].spec.selector == LabelsFor(k)
  }

  predicate SelectorHolds(w: World, k: Key) {
    DeploymentSelects(w.deployments, k) && ServiceSelects(w.services, k)
  }

  lemma BuiltSelects(deployments: map<Key, Deployment>, services: map<Key, Service>, k: Key, spec: ModelSpec, ip: string)
    ensures DeploymentSelects(Deployed(deployments, k, spec), k) && ServiceSelects(Served(services, k, spec, ip), k)
  {
  }

  lemma PassWrites(w: World, k: Key, weather: Weather, now: Time)
    requires k in w.models
    ensures var t, spec := Pass(w, k, weather, now), w.models[k].spec;
      && t.deployments in {w.deployments, Deployed(w.deployments, k, spec)}
      && t.services in {w.services, Served(w.services, k, spec, weather.clusterIP)}
  {
  }

  lemma PassKeepsSelector(w: World, k: Key, weather: Weather, now: Time)
    requires SelectorHolds(w, k)
    ensures SelectorHolds(Pass(w, k, weather, now), k)
  {
    if k in w.models {
      PassWrites(w, k, weather, now);
      BuiltSelects(w.deployments, w.services, k, w.models[k].spec, weather.clusterIP);
    }
  }

  lemma TamperKeepsSelector(w: World, k: Key, h: Happening)
    requires SelectorHolds(w, k) && h.Tamper?
    ensures SelectorHolds(Happen(w, k, h), k)
  {
  }

  lemma HappenKeepsSelector(w: World, k: Key, h: Happening)
    requires SelectorHolds(w, k)
    ensures SelectorHolds(Happen(w, k, h), k)
  {
    match h
    case Reconciled(weather, now) => PassKeepsSelector(w, k, weather, now);
    case Tamper(_, _, _) => TamperKeepsSelector(w, k, h);
    case _ =>
  }

  /** Over any history of spec edits, failing passes, scaling and deletions, the selectors of Deployment and Service
      never change and always select the Deployment's own pods. */
  lemma {:induction false} SelectorNeverChanges(w: World, k: Key, hs: seq<Happening>)
    requires ChildKey(k) !in w.deployments && ChildKey(k) !in w.services
    ensures SelectorHolds(History(w, k, hs), k)
  {
    if hs != [] {
      SelectorNeverChanges(w, k, hs[..|hs| - 1]);
      HappenKeepsSelector(History(w, k, hs[..|hs| - 1]), k, hs[|hs| - 1]);
    }
  }
}
