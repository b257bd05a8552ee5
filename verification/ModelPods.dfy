/** What a reconcile of a VoiceModel makes the cluster run, and what it reports, read off the stored objects. */
module ModelPods {
  import opened Api
  import opened VoiceModelController

  // ----- Readers

  /** The value of an environment variable; of several with one name the last counts. */
  function EnvValue(env: seq<(string, string)>, name: string): Option<string> {
    if env == [] then None
    else
      var last := env[|env| - 1];
      if last.0 == name then Some(last.1) else EnvValue(env[..|env| - 1], name)
  }

  lemma EnvOf(a: (string, string), b: (string, string), c: (string, string))
    requires a.0 != b.0 && b.0 != c.0 && a.0 != c.0
    ensures var env := [a, b, c];
      EnvValue(env, a.0) == Some(a.1) && EnvValue(env, b.0) == Some(b.1) && EnvValue(env, c.0) == Some(c.1)
  {
    assert [a, b, c][..2] == [a, b] && [a, b][..1] == [a];
    assert EnvValue([a], a.0) == Some(a.1);
    assert EnvValue([a, b], a.0) == EnvValue([a], a.0) && EnvValue([a, b], b.0) == Some(b.1);
  }

  /** How a selector picks pods. */
  predicate Selects(selector: map<string, string>, labels: map<string, string>) {
    forall key :: key in selector ==> key in labels && labels[key] == selector[key]
  }

  // ----- What the pods run

  predicate ImageIsRight(spec: ModelSpec, image: string) {
    && (spec.image != "" ==> image == spec.image)
    && (spec.image == "" && spec.device == "gpu" ==> image == "fedirz/faster-whisper-server:0.3.0-cuda")
    && (spec.image == "" && spec.device != "gpu" ==> image == "fedirz/faster-whisper-server:0.3.0-cpu")
  }

  /** What the model server reads: each variable carries its own field. */
  predicate EnvIsRight(spec: ModelSpec, env: seq<(string, string)>) {
    && |env| == 3
    && EnvValue(env, "WHISPER__MODEL") == Some(spec.model)
    && EnvValue(env, "WHISPER__INFERENCE_DEVICE") == Some(spec.device)
    && EnvValue(env, "WHISPER__COMPUTE_TYPE") == Some(spec.quantization)
  }

  predicate Holds(quantities: map<string, string>, cpu: string, memory: string, gpu: bool) {
    && quantities.Keys == {"cpu", "memory"} + (if gpu then {"nvidia.com/gpu"} else {})
    && quantities["cpu"] == cpu && quantities["memory"] == memory && (gpu ==> quantities["nvidia.com/gpu"] == "1")
  }

  predicate ResourcesAreRight(spec: ModelSpec, resources: Resources) {
    && (spec.resources.Some? ==> resources == spec.resources.value)
    && (spec.resources.None? && spec.device == "gpu" ==>
          Holds(resources.requests, "1", "4Gi", true) && Holds(resources.limits, "4", "8Gi", true))
    && (spec.resources.None? && spec.device != "gpu" ==>
          Holds(resources.requests, "500m", "1Gi", false) && Holds(resources.limits, "1500m", "3Gi", false))
  }

  /** Each field of the health configuration counts for itself. */
  predicate ProbeIsRight(spec: ModelSpec, path: string, delay: int, period: int) {
    var given := spec.health.Some?;
    && path == (if given && spec.health.value.path != "" then spec.health.value.path else "/health")
    && delay == (if given && spec.health.value.initialDelaySeconds > 0 then spec.health.value.initialDelaySeconds else 60)
    && period == (if given && spec.health.value.periodSeconds > 0 then spec.health.value.periodSeconds else 10)
  }

  predicate LabelsAreRight(name: string, labels: map<string, string>) {
    && labels.Keys == {"app.kubernetes.io/name", "app.kubernetes.io/instance", "app.kubernetes.io/managed-by", "vox.io/model"}
    && labels["app.kubernetes.io/name"] == "voicemodel" && labels["app.kubernetes.io/instance"] == name
    && labels["app.kubernetes.io/managed-by"] == "voxplatform-operator" && labels["vox.io/model"] == name
  }

  predicate ScrapeIsRight(spec: ModelSpec, annotations: map<string, string>, port: int) {
    && (spec.metrics == Some(false) ==> annotations == map[])
    && (spec.metrics != Some(false) ==>
          && annotations.Keys == {"prometheus.io/scrape", "prometheus.io/port", "prometheus.io/path"}
          && annotations["prometheus.io/scrape"] == "true" && annotations["prometheus.io/path"] == "/metrics"
          && port > 0 && annotations["prometheus.io/port"] == Decimal(port))
  }

  predicate PodsAreRight(name: string, spec: ModelSpec, d: DeploymentSpec) {
    && ImageIsRight(spec, d.container.image) && EnvIsRight(spec, d.container.env)
    && ResourcesAreRight(spec, d.container.resources)
    && ProbeIsRight(spec, d.container.probePath, d.container.initialDelay, d.container.period)
    && d.container.port == (if spec.port > 0 then spec.port else 8000)
    && d.replicas == (if spec.replicas.Some? then spec.replicas.value else 1)
    && LabelsAreRight(name, d.podLabels) && ScrapeIsRight(spec, d.podAnnotations, d.container.port)
  }

  lemma ResourcesBuilt(k: Key, spec: ModelSpec)
    ensures ResourcesAreRight(spec, BuildDeployment(k, spec).spec.container.resources)
  {
  }

  lemma EnvBuilt(k: Key, spec: ModelSpec)
    ensures EnvIsRight(spec, BuildDeployment(k, spec).spec.container.env)
  {
    var a, b, c := "WHISPER__MODEL", "WHISPER__INFERENCE_DEVICE", "WHISPER__COMPUTE_TYPE";
    assert a[9] == 'M' && b[9] == 'I' && c[9] == 'C';
    EnvOf((a, spec.model), (b, spec.device), (c, spec.quantization));
  }

  lemma LabelsBuilt(k: Key)
    ensures LabelsAreRight(k.name, LabelsFor(k))
  {
  }

  lemma ScrapeBuilt(k: Key, spec: ModelSpec)
    ensures ScrapeIsRight(spec, BuildDeployment(k, spec).spec.podAnnotations, BuildDeployment(k, spec).spec.container.port)
  {
  }

  lemma PodsBuilt(k: Key, spec: ModelSpec)
    ensures PodsAreRight(k.name, spec, BuildDeployment(k, spec).spec)
  {
    ResourcesBuilt(k, spec);
    EnvBuilt(k, spec);
    LabelsBuilt(k);
    ScrapeBuilt(k, spec);
  }

  /** After one undisturbed pass, from any state, the Deployment "vox-<name>" runs what the spec asks for. */
  lemma PodsRunTheSpec(w: World, k: Key, weather: Weather, now: Time)
    requires k in w.models && !w.models[k].deleting && Calm(weather)
    ensures var t, c := Pass(w, k, weather, now), Key(k.ns, "vox-" + k.name);
      && c in t.deployments && PodsAreRight(k.name, w.models[k].spec, t.deployments[c].spec)
      && c in t.services && Selects(t.services[c].spec.selector, t.deployments[c].spec.podLabels)
      && t.services[c].spec.port == t.deployments[c].spec.container.port
  {
    PassConverges(w, k, weather, now);
    PodsBuilt(k, w.models[k].spec);
  }

  /** New children belong to the model and carry its labels; existing ones keep owner and labels. */
  lemma ChildrenAreOwned(w: World, k: Key, weather: Weather, now: Time)
    requires k in w.models && !w.models[k].deleting && Calm(weather)
    ensures var t, c := Pass(w, k, weather, now), ChildKey(k);
      && c in t.deployments && c in t.services
      && (if c in w.deployments
          then t.deployments[c].owner == w.deployments[c].owner && t.deployments[c].labels == w.deployments[c].labels
          else t.deployments[c].owner == k && LabelsAreRight(k.name, t.deployments[c].labels))
      && (if c in w.services
          then t.services[c].owner == w.services[c].owner && t.services[c].labels == w.services[c].labels
          else t.services[c].owner == k && LabelsAreRight(k.name, t.services[c].labels))
  {
    LabelsBuilt(k);
  }

  // ----- Models beside each other

  predicate SameEntry<T(==)>(before: map<Key, T>, after: map<Key, T>, k: Key) {
    (k in before <==> k in after) && (k in before ==> before[k] == after[k])
  }

  lemma ReportKeepsOthers(models: map<Key, VoiceModel>, k: Key, status: ModelStatus, weather: Weather, other: Key)
    requires k in models && other != k
    ensures SameEntry(models, Reported(models, k, status, weather), other)
  {
  }

  lemma ConvergeKeepsOthers(w: World, k: Key, weather: Weather, now: Time, other: Key)
    requires k in w.models && other != k
    ensures SameEntry(w.models, Converged(w, k, weather, now).models, other)
  {
    forall status ensures SameEntry(w.models, Reported(w.models, k, status, weather), other) {
      ReportKeepsOthers(w.models, k, status, weather, other);
    }
  }

  lemma OtherModelStays(w: World, k: Key, weather: Weather, now: Time, other: Key)
    requires other != k
    ensures SameEntry(w.models, Pass(w, k, weather, now).models, other)
  {
    if k in w.models && !w.models[k].deleting && (w.models[k].finalizer || !weather.finalizer) {
      ConvergeKeepsOthers(w.(models := Finalized(w.models, k)), k, weather, now, other);
    }
  }

  /** A pass over one model touches no object of another. */
  lemma PassTouchesOwn(w: World, k: Key, weather: Weather, now: Time, other: Key)
    requires other != k
    ensures var t, c := Pass(w, k, weather, now), ChildKey(other);
      SameEntry(w.models, t.models, other) && SameEntry(w.deployments, t.deployments, c) && SameEntry(w.services, t.services, c)
  {
    OtherModelStays(w, k, weather, now, other);
    ChildrenDiffer(other, k);
    if k in w.models {
      PassWrites(w, k, weather, now);
    }
  }

  /** Neither the Service nor the Deployment of one model ever selects the pods of another. */
  lemma SelectorsApart(w: World, j: Key, k: Key)
    requires SelectorHolds(w, j) && SelectorHolds(w, k) && j.name != k.name
    requires ChildKey(k) in w.deployments
    ensures var pods := w.deployments[ChildKey(k)].spec.podLabels;
      && (ChildKey(j) in w.services ==> !Selects(w.services[ChildKey(j)].spec.selector, pods))
      && (ChildKey(j) in w.deployments ==> !Selects(w.deployments[ChildKey(j)].spec.selector, pods))
  {
    assert LabelsFor(k)["vox.io/model"] != LabelsFor(j)["vox.io/model"] && "vox.io/model" in LabelsFor(j);
  }

  // ----- What is reported

  function ReadSigned(s: string): int {
    if s != "" && s[0] == '-' then -ReadDecimal(s[1..]) else ReadDecimal(s)
  }

  lemma SignedReads(n: int)
    ensures ReadSigned(Signed(n)) == n
  {
    DecimalReads(if n < 0 then -n else n);
    if n < 0 {
      assert Signed(n)[1..] == Decimal(-n);
    } else {
      assert Decimal(n)[0] in Decimal(n);
    }
  }

  predicate Fails(c: Condition) { c.kind == "ReplicaFailure" && c.isTrue }

  predicate FirstFailure(conditions: seq<Condition>, i: int) {
    0 <= i < |conditions| && Fails(conditions[i]) && forall j :: 0 <= j < i ==> !Fails(conditions[j])
  }

  lemma {:induction false} FailureIsFirst(conditions: seq<Condition>, i: int)
    requires FirstFailure(conditions, i)
    ensures ReplicaFailure(conditions) == Some(conditions[i].message)
  {
    if i > 0 {
      assert !Fails(conditions[0]);
      assert FirstFailure(conditions[1..], i - 1);
      FailureIsFirst(conditions[1..], i - 1);
    }
  }

  lemma {:induction false} WhereFirst(conditions: seq<Condition>) returns (i: int)
    requires exists j :: 0 <= j < |conditions| && Fails(conditions[j])
    ensures FirstFailure(conditions, i)
  {
    if Fails(conditions[0]) {
      i := 0;
    } else {
      var j :| 0 <= j < |conditions| && Fails(conditions[j]);
      assert Fails(conditions[1..][j - 1]);
      var k := WhereFirst(conditions[1..]);
      i := k + 1;
    }
  }

  lemma {:induction false} NoFailure(conditions: seq<Condition>)
    requires forall j :: 0 <= j < |conditions| ==> !Fails(conditions[j])
    ensures ReplicaFailure(conditions) == None
  {
    if conditions != [] {
      assert !Fails(conditions[0]);
      NoFailure(conditions[1..]);
    }
  }

  lemma FailuresDecide(conditions: seq<Condition>)
    ensures forall i :: FirstFailure(conditions, i) ==> ReplicaFailure(conditions) == Some(conditions[i].message)
    ensures ReplicaFailure(conditions).Some? <==> exists i :: 0 <= i < |conditions| && Fails(conditions[i])
  {
    forall i | FirstFailure(conditions, i) ensures ReplicaFailure(conditions) == Some(conditions[i].message) {
      FailureIsFirst(conditions, i);
    }
    if exists i :: 0 <= i < |conditions| && Fails(conditions[i]) {
      var i := WhereFirst(conditions);
    } else {
      NoFailure(conditions);
    }
  }

  function Progress(ready: int, want: int): string {
    Signed(ready) + "/" + Signed(want) + " replicas ready"
  }

  /** Phase and message, by the Deployment's report: enough replicas, some, or none and why. */
  ghost predicate ReportIsRight(d: Deployment, want: int, status: ModelStatus) {
    var ready := d.readyReplicas;
    && status.readyReplicas == ready
    && (ready >= want ==> status.phase == Ready && status.message == Progress(ready, want))
    && (0 < ready < want ==> status.phase == Deploying && status.message == Progress(ready, want))
    && (ready < want && ready <= 0 ==>
          && (status.phase == Failed <==> exists i :: 0 <= i < |d.conditions| && Fails(d.conditions[i]))
          && (forall i :: FirstFailure(d.conditions, i) ==> status.message == d.conditions[i].message)
          && (status.phase == Failed || (status.phase == Deploying && status.message == "waiting for pods to be ready")))
  }

  predicate TransitionIsRight(before: ModelStatus, after: ModelStatus, now: Time) {
    after.lastTransition == if before.phase != after.phase then Some(now) else before.lastTransition
  }

  lemma ObservedIsRight(k: Key, vm: VoiceModel, d: Deployment, now: Time)
    ensures var status := Observed(k, vm, Some(d), now);
      && ReportIsRight(d, if vm.spec.replicas.Some? then vm.spec.replicas.value else 1, status)
      && TransitionIsRight(vm.status, status, now)
  {
    FailuresDecide(d.conditions);
  }

  /** An undisturbed pass reports what the Deployment it leaves behind shows. */
  lemma PassReports(w: World, k: Key, weather: Weather, now: Time)
    requires k in w.models && !w.models[k].deleting && Calm(weather)
    ensures var t, c := Pass(w, k, weather, now), ChildKey(k);
      && k in t.models && c in t.deployments
      && ReportIsRight(t.deployments[c], t.deployments[c].spec.replicas, t.models[k].status)
      && TransitionIsRight(w.models[k].status, t.models[k].status, now)
  {
    PassSettles(w, k, weather, now);
    var d := Pass(w, k, weather, now).deployments[ChildKey(k)];
    ObservedIsRight(k, w.models[k], d, now);
    PassConverges(w, k, weather, now);
    PodsBuilt(k, w.models[k].spec);
  }

  /** A failed call for the Deployment leaves both children alone, one for the Service what the Service was; the status says
      Failed with the text of the error, and keeps replicas and endpoint. */
  lemma PassFails(w: World, k: Key, weather: Weather, now: Time)
    requires k in w.models && !w.models[k].deleting && (w.models[k].finalizer || !weather.finalizer) && !weather.status
    requires weather.deployment.Some? || weather.service.Some?
    ensures var t, before := Pass(w, k, weather, now), w.models[k].status;
      && k in t.models && t.models[k].spec == w.models[k].spec && t.services == w.services
      && t.models[k].status.phase == Failed
      && t.models[k].status.message == weather.deployment.GetOr(weather.service.GetOr(""))
      && t.models[k].status.readyReplicas == before.readyReplicas && t.models[k].status.endpoint == before.endpoint
      && TransitionIsRight(before, t.models[k].status, now)
      && (weather.deployment.Some? ==> t.deployments == w.deployments)
      && (weather.deployment.None? ==>
            ChildKey(k) in t.deployments && PodsAreRight(k.name, w.models[k].spec, t.deployments[ChildKey(k)].spec))
  {
    PodsBuilt(k, w.models[k].spec);
    ChildrenBuilt(w, k, w.models[k].spec, "");
  }
}
