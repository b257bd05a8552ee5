/** The custom resources of the operator (operator/api/v1alpha1), as values. */
module Api {

  datatype Option<+T> = None | Some(value: T) {
    function GetOr(default: T): T {
      match this
      case Some(v) => v
      case None => default
    }
  }

  /** Instants, in arbitrary units. */
  type Time = real

  /** A namespaced name. */
  datatype Key = Key(ns: string, name: string)

  /** What a Get by name can return. */
  datatype Lookup<+T> = Found(item: T) | NotFound | GetError(text: string)

  function LookUp<T>(store: map<Key, T>, k: Key): Lookup<T> {
    if k in store then Found(store[k]) else NotFound
  }

  /** What a Reconcile call tells its work queue. */
  datatype Result = Done | RequeueAfter(seconds: nat) | Failure

  // ----- VoiceModel

  datatype ModelPhase = NoPhase | Pending | Deploying | Ready | Failed | Terminating

  datatype HealthConfig = HealthConfig(path: string, initialDelaySeconds: int, periodSeconds: int)

  datatype Resources = Resources(requests: map<string, string>, limits: map<string, string>)

  datatype ModelSpec = ModelSpec(
    model: string,
    replicas: Option<int>,
    device: string,
    quantization: string,
    image: string,
    resources: Option<Resources>,
    port: int,
    health: Option<HealthConfig>,
    metrics: Option<bool>)

  datatype ModelStatus = ModelStatus(
    phase: ModelPhase,
    readyReplicas: int,
    endpoint: string,
    message: string,
    lastTransition: Option<Time>)

  datatype VoiceModel = VoiceModel(spec: ModelSpec, status: ModelStatus, finalizer: bool, deleting: bool, version: nat)

  const FRESH_MODEL_STATUS := ModelStatus(NoPhase, 0, "", "", None)

  // ----- InferencePipeline

  datatype Stage = Stage(name: string, model: string, enabled: Option<bool>)

  datatype StageStatus = StageStatus(name: string, modelRef: string, ready: bool, endpoint: string, message: string)

  datatype PipelinePhase = PipelineNoPhase | PipelineValidating | PipelineReady | PipelineDegraded | PipelineFailed

  datatype PipelineStatus = PipelineStatus(
    phase: PipelinePhase,
    message: string,
    stages: seq<StageStatus>,
    lastTransition: Option<Time>)

  datatype Pipeline = Pipeline(stages: seq<Stage>, deleting: bool, status: PipelineStatus, version: nat)

  const FRESH_PIPELINE_STATUS := PipelineStatus(PipelineNoPhase, "", [], None)

  // ----- Text

  /** The decimal digits of n, as `%d` prints them. */
  function Decimal(n: nat): string {
    if n < 10 then [DIGITS[n]] else Decimal(n / 10) + [DIGITS[n % 10]]
  }

  const DIGITS := "0123456789"

  predicate IsDigit(c: char) { '0' <= c <= '9' }

  /** The number that a text of digits denotes. */
  function ReadDecimal(s: string): int {
    if s == "" then 0 else 10 * ReadDecimal(s[..|s| - 1]) + (s[|s| - 1] as int - '0' as int)
  }

  /** What is printed reads back, in digits only and without leading zeros. */
  lemma {:induction false} DecimalReads(n: nat)
    ensures ReadDecimal(Decimal(n)) == n && |Decimal(n)| > 0
    ensures forall c :: c in Decimal(n) ==> IsDigit(c)
    ensures n > 0 ==> Decimal(n)[0] != '0'
  {
    var d := n % 10;
    assert IsDigit(DIGITS[d]) && DIGITS[d] as int == '0' as int + d && (d > 0 ==> DIGITS[d] != '0');
    if n < 10 {
      assert Decimal(n) == [DIGITS[d]] && Decimal(n)[..0] == "";
    } else {
      DecimalReads(n / 10);
      var s := Decimal(n);
      assert s[..|s| - 1] == Decimal(n / 10);
    }
  }

  lemma Regroup<T>(a: seq<T>, b: seq<T>, c: seq<T>)
    ensures a + b + c == a + (b + c)
  {
  }
}
