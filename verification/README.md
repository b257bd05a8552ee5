# VoxPlatform, modelled and proved in Dafny

This project models the stateful parts of VoxPlatform and proves what they promise. `dafny verify dfyconfig.toml` checks
all of it.

VoxPlatform has three parts that matter here. A Kubernetes operator keeps VoiceModels deployed, aggregates their readiness
into InferencePipelines, and runs EvalRuns as Argo Workflows. A gateway buffers streamed audio, writes it out as WAV files,
and orchestrates the stages stt, diarize and summarize with an event log. An eval harness measures word error rates and
decides whether an EvalRun passes.

| files | what they hold |
|---|---|
| `Api` | the custom resources, as values |
| `InferencePipeline`, `Wakeups`, `MaskedError` | the pipeline reconciler; the same with watches, work queue, timers and restarts as a step system; a run that shows the one hole |
| `VoiceModelController`, `ModelPods`, `ModelWakeups`, `Endpoints` | the VoiceModel reconciler; what its pods run and its status says; the same with watches, work queue and timers; both controllers against one API server |
| `EvalRunController`, `CommandLine`, `EvalRuns`, `RunWakeups`, `Conclusion`, `Submissions`, `Gate` | the EvalRun reconciler; a reader of the command line it writes; EvalRuns and Workflows as a step system; the same with watches, work queue and timers; its terminal phases; what its Workflows were built from; the gate across operator and eval runner |
| `Wav`, `AudioBuffer`, `Stream` | the WAV writer with a reader of the format; the audio buffer; the read loop and the flush loop interleaved |
| `Text`, `StageList`, `PipelineRun`, `FilePath`, `EventLog` | string operations; the stage list; the pipeline handler with its trace; how a request ID becomes a file; the loggers |
| `Normalization`, `Contractions`, `NormalizedText`, `Alignment`, `Metrics`, `EvalRunner` | text normalisation; what its rewrites do; what is left of a text; the word alignment behind WER; WER and its aggregation; the eval run |

How it is built: code that changes state is a class or a method with a loop, proved equal to a specification function. The
step systems use the same functions, so what is proved over all runs is about what the methods compute. Each step of a step
system is one API call or one locked section; a run is any sequence of steps, and a step that is not possible is skipped.
Clocks, backends, the Kubernetes API and Argo are parameters or steps whose outcome is arbitrary.

Results that differ from what the code's own text says, or that hold only under a condition:

- A pipeline whose status is wrong always has a wake-up on its way, except in one case. When a Get of a VoiceModel fails
  while another stage's VoiceModel is missing, the phase is Failed, and Failed has no timer
  (`inferencepipeline_controller.go:113-116`, `194`). Once the queue has drained, a status is correct exactly when it is not of
  that kind (`Wakeups.DrainedIsCorrect`). `MaskedError.MaskedHappens` is a run that ends there.
- A VoiceModel whose first or second call fails gets phase Failed, no error and no timer
  (`voicemodel_controller.go:86-94`, `217-221`). When that happens twice with the same text, nothing wakes it again
  (`ModelWakeups.ForgottenHappens`). Nor does a change of its Deployment or Service that belongs to somebody else
  (`ModelWakeups.MissedHappens`). Without these two a VoiceModel for which nothing is pending is as it should be
  (`ModelWakeups.IdleIsGood`). EvalRuns have no such exception (`RunWakeups.IdleIsFixed`).
- An EvalRun takes over a Workflow of its name that is still there (`evalrun_controller.go:117`), for example that of a dropped
  EvalRun of the same name, and is then judged by the threshold of that one (`Submissions.TakeoverHappens`).
- Disabled stages are not resolved (`inferencepipeline_controller.go:87-96`), although the comment at
  `operator/api/v1alpha1/inferencepipeline_types.go:46` says that they are still validated. A VoiceModel in phase Failed does
  not make the pipeline Failed.
- A buffer need not start with speech. `markSpeech` and `addFrame` are separate critical sections, and so are the read of
  `totalBytes` and `addFrame`. A drain by the flush loop between them always leaves a buffer that does not lead with speech or
  has forgotten when speech was heard (`Stream.TearBreaksTheLead`); `Stream.TearHappens` is such a run with the default
  configuration.
- The WAV round trip holds exactly for an even number of payload bytes, at most 2^32 - 37, and a sample rate below 2^31: the
  writer adds no pad byte, and its words wrap.
- The stage list "," parses to no stages at all, which prints as "", which means all stages. The round trip fails exactly for
  form values that are not empty and consist of commas and white space (`StageList.RoundTripFails`).
- A request's log file is its own events exactly when no other request resolves to the same file. Clients choose the request
  IDs (`internal/gateway/request_id.go:29-33`): the IDs "b" and "a/../b" share a file, and so do two requests with one ID
  (`EventLog.IDsCollide`). Distinct IDs without a slash never do.
- An eval run raises exactly when a transcribed sample has a reference that normalises to nothing and a blank reference or
  prediction; such a sample is measured, and then aggregation fails for all. Datasets hold no blank references
  (`eval/vox_eval/dataset.py:96-101`), so what is left is a reference of punctuation alone where nothing was heard
  (`EvalRunner.LoadedRunRaises`, `EvalRunner.PunctuationRaises`).
- The GCS object name omits the stage, and an upload replaces the object. The comment at `internal/gateway/eventlog.go:138-141`
  speaks of objects that are merged later, but on one day the bucket keeps the events of a request exactly when the request
  does not run stt and a later stage (`EventLog.BucketKeepsTrace`).
- The diarizer's duration estimate for a written file is right exactly for rates below 2^31, and for empty audio whenever the
  byte rate does not wrap to zero (`Wav.DurationAgrees`).
- `pipeline.error` is documented (`docs/reference/pipeline-api.md:119`) and never emitted.
- The verdict of an eval run is about the unrounded WER; the report shows it rounded to four places.

## Model

| member | source | states |
|---|---|---|
| InferencePipeline.ReconcileStages | operator/internal/controller/inferencepipeline_controller.go:75-134 | the one-pass counters give the status that the set form prescribes (phase by quantifiers over enabled stages, message by tallies, one row per stage in order), and the requeue that goes with it; a refused update is a failure |
| InferencePipeline.SetPipelineStatus | operator/internal/controller/inferencepipeline_controller.go:173-199 | phase, message and rows are replaced, the transition time only when the phase changes; 10 s requeue unless Ready or Failed |
| InferencePipeline.TallyBounds | operator/internal/controller/inferencepipeline_controller.go:108-129 | comparing the counters is the same as quantifying over the enabled stages |
| InferencePipeline.RowReadsBack | operator/internal/controller/inferencepipeline_controller.go:87-107 | the comparison of message texts finds exactly the enabled stages whose VoiceModel is absent; no other message collides with it, and a disabled stage is never ready |
| InferencePipeline.PhaseMeaning | operator/internal/controller/inferencepipeline_controller.go:110-129 | Failed exactly when an enabled stage's VoiceModel is missing; otherwise Ready, Degraded or Validating exactly when all (vacuously too), some but not all, or none are ready; one row per stage in the spec's order |
| InferencePipeline.RowMeans | operator/internal/controller/inferencepipeline_controller.go:81-107 | each row in terms of what the Get returned: disabled, absent, failed with its text, ready with the published endpoint, or the phase by name |
| InferencePipeline.MessageMeans | operator/internal/controller/inferencepipeline_controller.go:108-129 | the two figures in the message read back as the number of enabled stages whose VoiceModel is ready and the number of enabled stages; the two other texts appear exactly for an absent VoiceModel and for no enabled stage |
| Api.DecimalReads | operator/internal/controller/inferencepipeline_controller.go:119-128 | a printed number reads back, in digits only and without leading zeros |
| InferencePipeline.OrderIrrelevant | operator/internal/controller/inferencepipeline_controller.go:81-129 | phase and message are the same for every permutation of the stages |
| InferencePipeline.FetchErrorRetried | operator/internal/controller/inferencepipeline_controller.go:113-129 | a failed Get of an enabled stage's VoiceModel is retried by the timer if and only if no other enabled stage's VoiceModel is missing |
| InferencePipeline.MapVoiceModelToPipelines | operator/internal/controller/inferencepipeline_controller.go:218-247 | the requests are exactly the pipelines of the VoiceModel's namespace that name it in some stage, each once; none when List fails |
| Wakeups.UnmappedUnaffected | operator/internal/controller/inferencepipeline_controller.go:230-243 | a change to a VoiceModel cannot alter what any stage of a pipeline that the map function leaves out resolves to |
| Wakeups.CommitLands | operator/internal/controller/inferencepipeline_controller.go:173-199 | a status update accepted while nothing is pending is right for the VoiceModels as they now are, or sets a timer, or is masked |
| Wakeups.RunKeepsInv | operator/internal/controller/inferencepipeline_controller.go:51-71 | the invariant over every interleaving of edits, event delivery, queue, timers, restarts, failing calls and reconciles that read stage by stage |
| Wakeups.NoLostWakeUp | operator/internal/controller/inferencepipeline_controller.go:203-214 | in every reachable state a pipeline whose status is not what reconcileStages would compute now is queued, marked dirty, on a timer, in an undelivered event, or has a reconcile in flight that read nothing stale; the one exception is a masked fetch error |
| Wakeups.DrainedIsCorrect | operator/internal/controller/inferencepipeline_controller.go:35-43 | with queue, timers, events and flights empty, a status is correct if and only if it is not masked; so all are correct when no Get has failed |
| Wakeups.CorrectIsQuiet | operator/internal/controller/inferencepipeline_controller.go:180-192 | reconciling a correct status again changes no object and raises no event |
| Wakeups.OnePassCorrects | operator/internal/controller/inferencepipeline_controller.go:51-71 | from any stored status, one undisturbed reconcile makes it correct |
| MaskedError.MaskedHappens | operator/internal/controller/inferencepipeline_controller.go:113-116 | a run from the empty cluster that ends drained with a wrong status: the exception is real |
| VoiceModelController.Cluster.ReconcileDeployment | operator/internal/controller/voicemodel_controller.go:112-136 | the Deployment is created as built, or keeps everything but its spec, which becomes the built one; nothing changes when a call fails |
| VoiceModelController.Cluster.ReconcileService | operator/internal/controller/voicemodel_controller.go:138-163 | the same for the Service, whose ClusterIP is kept |
| VoiceModelController.Cluster.SetPhase | operator/internal/controller/voicemodel_controller.go:199-222 | phase, message, and the transition time on a change of phase; requeue unless Ready or Failed |
| VoiceModelController.Cluster.UpdateStatus | operator/internal/controller/voicemodel_controller.go:165-197 | the status that follows from the Deployment found: the replica count wanted, the endpoint, the first true ReplicaFailure condition |
| VoiceModelController.Cluster.Converge | operator/internal/controller/voicemodel_controller.go:86-97 | Deployment, then Service, then status; an error in the first two is reported as phase Failed and stops there |
| VoiceModelController.Cluster.Reconcile | operator/internal/controller/voicemodel_controller.go:60-110 | the whole reconcile, for every combination of failing calls, including finalizer and deletion, leaves the API server as the specification says |
| VoiceModelController.PassConverges | operator/internal/controller/voicemodel_controller.go:86-97 | from any absent or drifted Deployment and Service one undisturbed pass makes both specs the built ones with the ClusterIP preserved; Ready exactly when the replicas that were deployed are ready; the endpoint names the Service's port; other models untouched |
| VoiceModelController.PassWiresUp | operator/internal/controller/voicemodel_controller.go:240-358 | after such a pass the Service selects exactly the Deployment's pods, and Service, container, scrape annotation and endpoint have the same positive port; no annotations exactly when metrics are switched off |
| ModelPods.PodsRunTheSpec | operator/internal/controller/voicemodel_controller.go:224-333 | after one undisturbed pass from any state the Deployment runs the given image, or the cuda image exactly for device "gpu" and else the cpu image; each WHISPER variable carries its own field; resources are the given ones, or the defaults with one "nvidia.com/gpu" exactly for device "gpu"; probe, replicas, port, labels and scrape annotations are the given values or their defaults |
| ModelPods.ChildrenAreOwned | operator/internal/controller/voicemodel_controller.go:112-163 | children that a pass creates belong to the VoiceModel and carry its labels; existing ones keep owner and labels |
| ModelPods.PassTouchesOwn | operator/internal/controller/voicemodel_controller.go:60-98 | a pass over one VoiceModel, calm or not, touches no VoiceModel, Deployment or Service of another |
| ModelPods.SelectorsApart | operator/internal/controller/voicemodel_controller.go:386-393 | neither the Service nor the Deployment of a VoiceModel selects the pods of another |
| ModelPods.PassReports | operator/internal/controller/voicemodel_controller.go:165-197 | the status after an undisturbed pass in terms of the Deployment it leaves: Ready from the wanted replicas on, Deploying with the figures for some, and for none Failed exactly when a ReplicaFailure condition is true, with the text of the first |
| ModelPods.PassFails | operator/internal/controller/voicemodel_controller.go:86-94 | a failed call for the Deployment leaves both children alone, one for the Service the Service; the status becomes Failed with the text of the error and keeps replicas and endpoint |
| ModelPods.SignedReads | operator/internal/controller/voicemodel_controller.go:173-190 | the numbers in messages and endpoints read back |
| VoiceModelController.PassSettles | operator/internal/controller/voicemodel_controller.go:86-97 | what an undisturbed pass leaves is settled: building Deployment, Service and status again gives the same |
| VoiceModelController.PassIdempotent | operator/internal/controller/voicemodel_controller.go:60-98 | a second undisturbed pass, at any later time, changes nothing at all |
| VoiceModelController.HappenKeepsSelector | operator/internal/controller/voicemodel_controller.go:282-291 | every single happening, a failing pass at any call included, keeps the selectors |
| VoiceModelController.SelectorNeverChanges | operator/internal/controller/voicemodel_controller.go:386-393 | over any history of spec edits, failing passes, scaling and deletions, the selectors of Deployment and Service stay what they were and match the pod labels |
| ModelWakeups.RunKeepsInv | operator/internal/controller/voicemodel_controller.go:60-98 | the invariant over every interleaving of edits, changes of children, events, restarts and reconciles whose calls may fail |
| ModelWakeups.IdleIsGood | operator/internal/controller/voicemodel_controller.go:86-98 | in every reachable state a VoiceModel for which nothing is pending has the Deployment, Service and status that its spec asks for, except after a reconcile that gave up on a failed call, or when somebody has changed its child since its last Get and it was not told; but for the echo of a ReplicaFailure the first exception is an equivalence |
| ModelWakeups.StrangersAreMissed | operator/internal/controller/voicemodel_controller.go:361-367 | somebody else's change of the Deployment is missed, and leaves an idle VoiceModel idle, if and only if the VoiceModel owned it neither before nor after |
| ModelWakeups.ForgottenHappens | operator/internal/controller/voicemodel_controller.go:86-89 | a run from the empty cluster after which a VoiceModel has no Deployment and nothing will wake it |
| ModelWakeups.MissedHappens | operator/internal/controller/voicemodel_controller.go:133-135 | a run from the empty cluster that ends with an idle VoiceModel whose status is Ready and whose Deployment, owned by somebody else, is not |
| ModelWakeups.PassIsGood | operator/internal/controller/voicemodel_controller.go:60-98 | from any state the step system's calls of one reconcile, with nothing in between, make a VoiceModel good |
| ModelWakeups.GoodIsQuiet | operator/internal/controller/voicemodel_controller.go:60-98 | and leave a good one alone: nothing is written and nothing is pending afterwards |
| Endpoints.StepsPass | operator/internal/controller/voicemodel_controller.go:60-98 | the step system's calls of one reconcile, with nothing in between, do what the controller's pass does |
| Endpoints.CommitWritesAnswers | operator/internal/controller/inferencepipeline_controller.go:158-161 | if every answer read and every stored row that is ready carries a published endpoint, so does every row after a status update |
| Endpoints.ReportStep | operator/internal/controller/voicemodel_controller.go:173-175 | a refused status update publishes and changes nothing; an accepted one that makes a VoiceModel Ready records its endpoint with the Service that this reconcile wrote |
| Endpoints.RunKeepsInv | operator/internal/controller/voicemodel_controller.go:60-98 | the invariant over every interleaving of both controllers, cut off anywhere |
| Endpoints.ReadyStageHasPublishedEndpoint | operator/internal/controller/inferencepipeline_controller.go:158-161 | over all runs of both controllers a stage reported ready carries a non-empty endpoint that a reconcile of its VoiceModel got accepted in a status, with the name, namespace and port of the Service the same reconcile wrote |
| EvalRunController.ReportIsFirst | operator/internal/controller/evalrun_controller.go:245-263 | only the first eval-report parameter counts: when it holds no report, there is none, whatever follows |
| EvalRunController.ReportNeedsParam | operator/internal/controller/evalrun_controller.go:245-265 | without such a parameter there is no report |
| EvalRunController.ExtractEvalReport | operator/internal/controller/evalrun_controller.go:239-266 | the loop with its skips and early exits finds that report |
| EvalRunController.ProjectionMeans | operator/internal/controller/evalrun_controller.go:193-231 | Running exactly while the Workflow is there and has not ended; Succeeded exactly when it has ended, in whatever phase, and its first report passed; otherwise Failed; figures, message and completion time follow |
| EvalRunController.WaitingAndStarting | operator/internal/controller/evalrun_controller.go:95-134 | suspending keeps the Workflow's name, figures and times; submitting sets name and start time |
| CommandLine.CommandReadsBack | operator/internal/controller/evalrun_controller.go:136-189 | whatever the spec, reading the container's command line gives back dataset, gateway URL, threshold (0.3 when empty) and model (absent exactly when empty), and the report path is the file that the output parameter "eval-report" is taken from; image and deadline (600 when absent) are those of the spec |
| EvalRunController.Cluster.SetStatus | operator/internal/controller/evalrun_controller.go:286-311 | phase, Workflow name and message are replaced, CompletionTime only on entering another terminal phase; 10 s requeue while Running |
| EvalRunController.Cluster.SubmitWorkflow | operator/internal/controller/evalrun_controller.go:109-126 | the Workflow is created as built unless one of that name exists, which is taken over as it is; the name is persisted only if the status update is accepted |
| EvalRunController.Cluster.ReconcileWorkflow | operator/internal/controller/evalrun_controller.go:193-232 | the Workflow's outcome (gone, running, no report, passed, not passed) projected into the status |
| EvalRunController.Cluster.Reconcile | operator/internal/controller/evalrun_controller.go:81-106 | runs, Workflows and result after a whole reconcile, for every combination of failing calls; suspended EvalRuns never submit |
| EvalRuns.StepsReconcile | operator/internal/controller/evalrun_controller.go:81-106 | the step system's calls of one reconcile, with nothing in between, do what the controller's Reconcile does |
| EvalRuns.RunKeepsInv | operator/internal/controller/evalrun_controller.go:81-106 | the invariant over every interleaving of users, Argo and reconciles that may be cut off between any two API calls |
| EvalRuns.NoCreateOnceSubmitted | operator/internal/controller/evalrun_controller.go:101-106 | whenever a Create can be issued the persisted Workflow name is empty; so none is issued once it is set, not even after the Workflow has been deleted |
| EvalRuns.OneWorkflowPerRun | operator/internal/controller/evalrun_controller.go:109-119 | at any moment at most one Workflow belongs to an EvalRun, and it has the EvalRun's name |
| EvalRuns.SuspendedNeverSubmits | operator/internal/controller/evalrun_controller.go:97-99 | an EvalRun that was suspended in every state never gets a Workflow |
| EvalRuns.RefNeverLost | operator/internal/controller/evalrun_controller.go:286-304 | the persisted Workflow name is empty or the EvalRun's own name, and once set never changes |
| EvalRuns.GateIsSound | operator/internal/controller/evalrun_controller.go:206-231 | in every reachable state Succeeded implies that Passed and the three metrics are those of one passing report, the first eval-report parameter of a terminal Workflow that a reconcile of this very EvalRun (by uid) read, whatever its raw phase |
| RunWakeups.RunKeepsInv | operator/internal/controller/evalrun_controller.go:81-106 | the invariant over every interleaving of users, Argo, events, restarts and reconciles whose calls may fail |
| RunWakeups.IdleIsFixed | operator/internal/controller/evalrun_controller.go:286-311 | in every reachable state an EvalRun for which nothing is pending has exactly the status that a reconcile would write at any time; there is no exception |
| RunWakeups.IdleMeans | operator/internal/controller/evalrun_controller.go:97-106 | so it is suspended and says so, or is in a terminal phase with its Workflow ended or gone |
| RunWakeups.FixedIsQuiet | operator/internal/controller/evalrun_controller.go:193-232 | conversely a reconcile of such a status changes no object and leads to no other |
| Conclusion.SettledStep | operator/internal/controller/evalrun_controller.go:286-311 | no single step of a reconcile, no edit that does not suspend, and no deletion mark disturbs a concluded EvalRun |
| Conclusion.TerminalIsAbsorbing | operator/internal/controller/evalrun_controller.go:193-231 | with the Workflow frozen and the EvalRun not suspended, any number of further reconciles, whole or cut off, edits and deletion marks keeps phase, metrics and times |
| Conclusion.CompletionWrittenOnce | operator/internal/controller/evalrun_controller.go:293-296 | once the Workflow has ended, CompletionTime is written exactly once, on the way into the terminal phase, even with stale reconciles in flight |
| Conclusion.OnePassConcludes | operator/internal/controller/evalrun_controller.go:193-232 | one undisturbed reconcile concludes, with Succeeded exactly for a passing first report |
| Conclusion.EndedIsDecided | operator/internal/controller/evalrun_controller.go:193-232 | in every reachable state, if Argo leaves ended Workflows alone, a submitted EvalRun whose Workflow has ended is concluded for good or not yet concluded, and no reconcile in flight can write anything but that Workflow's outcome or an outdated Running |
| Conclusion.ConcludesOnce | operator/internal/controller/evalrun_controller.go:193-311 | so over whole runs from the empty cluster: after the Workflow has ended the EvalRun enters a terminal phase at most once, with that Workflow's outcome, and keeps phase, metrics and times from then on |
| Submissions.WorkflowsAreBuilt | operator/internal/controller/evalrun_controller.go:131-189 | every Workflow's spec is the one built from some version of its owner that was not suspended |
| Submissions.WorkflowsExecuteTheirOwner | operator/internal/controller/evalrun_controller.go:110-189 | in every reachable state each Workflow, read that way, runs what a version of its owner asked for that was not suspended |
| Submissions.ThresholdAsSubmitted | operator/internal/controller/evalrun_controller.go:117-119 | the Workflow that decides an EvalRun runs with the threshold it was submitted with if and only if the submission found no leftover Workflow with another threshold |
| Submissions.TakeoverHappens | operator/internal/controller/evalrun_controller.go:117-119 | a run in which an EvalRun with threshold 0.1 is submitted to a leftover Workflow with 0.9 |
| Submissions.WorkflowCarriesThreshold | operator/internal/controller/evalrun_controller.go:131-153 | the runner is started with the EvalRun's threshold, 0.3 when none is given |
| Gate.GenuineStays | operator/internal/controller/evalrun_controller.go:239-266 | when every report that Argo sets was written by the runner, so was every report the operator has ever read |
| Gate.SucceededMeansWithinThreshold | eval/vox_eval/runner.py:162-173 | in every reachable state of the operator, Succeeded implies that the runner, started with the threshold of a Workflow that a reconcile of this very EvalRun read, measured an unrounded corpus WER of at most that threshold; the persisted WER is that figure rounded; and when that is the threshold the EvalRun was submitted with |
| Gate.SucceededMeansOwnThreshold | eval/vox_eval/runner.py:162-173 | so unless a leftover Workflow with another threshold was taken over, the WER was at most the threshold that the EvalRun was submitted with |
| Wav.WordReadsBack | internal/gateway/stream.go:207-212 | a written word reads back modulo 2^32, and as itself exactly below 2^32 |
| Wav.PutLE16 | internal/gateway/stream.go:202-205 | two little-endian bytes in place, the rest of the slice unchanged |
| Wav.PutLE32 | internal/gateway/stream.go:207-212 | four little-endian bytes in place, the rest of the slice unchanged |
| Wav.WriteHeader | internal/gateway/stream.go:173-190 | the first 44 bytes after all header writes |
| Wav.BuildWAV | internal/gateway/stream.go:169-200 | the running offset lays out header and frames with no gap and no overlap: the buffer is the header followed by the frames, concatenated |
| Wav.WrittenReads | internal/gateway/stream.go:169-200 | what a chunk-by-chunk reader, which checks RIFF size, byte rate and block align, makes of the written bytes, in all cases |
| Wav.RoundTrip | internal/gateway/stream.go:169-200 | reading gives back the sample rate and the concatenated frames if and only if the payload is even and at most 2^32 - 37 bytes and the doubled rate is below 2^32 |
| Wav.DurationAgrees | services/diarizer/diarizer_server.py:150-164 | the diarizer's duration estimate for a written file is the number of seconds that shouldFlush computes for the same frames if and only if the doubled rate is below 2^32, or there is no audio and the byte rate written is not zero |
| Wav.EstimateWithoutHeader | services/diarizer/diarizer_server.py:150-164 | without a header the estimate is that of 16 kHz 16-bit mono, but at least a tenth of a second |
| AudioBuffer.AudioBuffer.AddFrame | internal/gateway/stream.go:80-86 | the frame is last, everything else is kept, and totalBytes stays the number of buffered bytes |
| AudioBuffer.AudioBuffer.MarkSpeech | internal/gateway/stream.go:89-99 | the times of speech: the start only when not already speaking, the last always |
| AudioBuffer.AudioBuffer.MarkSilence | internal/gateway/stream.go:102-107 | only isSpeaking changes |
| AudioBuffer.AudioBuffer.ShouldFlushNow | internal/gateway/stream.go:111-138 | the early exits together are exactly: at least one second buffered, and at the maximum or quiet for the delay |
| AudioBuffer.PauseDecides | internal/gateway/stream.go:132-137 | with a second or more buffered, below the maximum and after speech, the check says yes if and only if nobody is speaking and at least the delay has passed since the last mark of speech |
| AudioBuffer.YesStays | internal/gateway/stream.go:111-138 | a yes stays a yes at every later time while nothing is added |
| AudioBuffer.AudioBuffer.Flush | internal/gateway/stream.go:141-165 | nil exactly for an empty buffer; otherwise the WAV file of everything buffered, and the buffer is reset |
| Stream.OnFrame | internal/gateway/stream.go:278-299 | the read loop's body for one frame, as a function of the buffer; a failed VAD call counts as speech |
| Stream.OnTick | internal/gateway/stream.go:318-321 | one tick drains everything or leaves the buffer alone, by the flush rule |
| Stream.FrameSteps | internal/gateway/stream.go:288-298 | the atomic steps for one frame, with nothing in between, do what the loop body does |
| Stream.TickSteps | internal/gateway/stream.go:318-321 | the check and the drain, with nothing in between, do what one tick does |
| Stream.AudioIsConserved | internal/gateway/stream.go:80-165 | under every interleaving the drained payloads, in drain order, followed by the buffered frames are exactly the frames ever added; once the read loop has closed, emitted equals added |
| Stream.SpeechIsNeverDropped | internal/gateway/stream.go:279-298 | every received frame meets its fate in order, and no speech frame and no frame whose VAD call failed is dropped |
| Stream.BufferIsBounded | internal/gateway/stream.go:311-321 | the buffer holds less than max(1 s, maximum) plus what was added since the last check that said no or the last drain; every file the flush loop drains holds at least one second although check and drain are separate steps |
| Stream.SpeechLeadsUnlessTorn | internal/gateway/stream.go:288-298 | in every run in which no drain splits a frame's mark or check from its add, every non-empty buffer starts with a speech frame and has lastSpeech set |
| Stream.TearBreaksTheLead | internal/gateway/stream.go:288-298 | a drain by the flush loop at that point, in any reachable state, empties a non-empty buffer and breaks the lead |
| Stream.TearHappens | internal/gateway/stream.go:288-298 | a run with the default configuration that reaches such a point with a non-empty buffer and ends with a buffer that does not lead with speech |
| Stream.SilenceFlushNeedsSpeech | internal/gateway/stream.go:132-137 | below the maximum and outside speech, a buffer can reach the silence flush at some time if and only if lastSpeech is set |
| Stream.PausesAreWaited | internal/gateway/stream.go:311-321 | over all runs, every file below the maximum that the flush loop drains was decided at least the delay after the last mark of speech |
| StageList.ParseStages | internal/gateway/pipeline.go:337-350 | the non-empty, trimmed, lower-cased parts in order, repetitions kept; all three stages for "" |
| StageList.ParsedPartByPart | internal/gateway/pipeline.go:341-348 | two non-empty form values with a comma between them parse to their lists one after the other |
| StageList.ParsedOne | internal/gateway/pipeline.go:343-346 | a name in any case with any white space around it parses to that name in lower case |
| StageList.ParsedPlain | internal/gateway/pipeline.go:337-340 | a name in small letters parses to itself, and no value to stt, diarize, summarize |
| StageList.Contains | internal/gateway/pipeline.go:352-359 | membership |
| StageList.PrintParseRoundTrip | internal/gateway/pipeline.go:101-107 | for every form value, parsing the logged form of its list gives the list back if and only if the list is not empty |
| StageList.NoStages | internal/gateway/pipeline.go:341-349 | a form value names no stage if and only if it is not empty and consists of commas and white space |
| StageList.RoundTripFails | internal/gateway/pipeline.go:337-350 | the round trip fails exactly for those form values; for "," it gives all stages instead of none |
| Text.SplitUndoesJoin | internal/gateway/pipeline.go:341 | splitting undoes joining for a non-empty list of parts without the separator |
| PipelineRun.HandlePipeline | internal/gateway/pipeline.go:68-224 | status and code of each rejected upload, with no event; otherwise events, response and reply for every stage list, URL configuration and backend outcome |
| PipelineRun.SttStage | internal/gateway/pipeline.go:124-152 | what the first stage adds to response and log |
| PipelineRun.DiarizeStage | internal/gateway/pipeline.go:155-179 | what the second stage adds, if requested and configured; its failure is not fatal |
| PipelineRun.SummarizeStage | internal/gateway/pipeline.go:182-206 | what the third stage adds, if requested, configured and there is a transcript; its failure is not fatal |
| PipelineRun.TraceReplays | internal/gateway/pipeline.go:110-215 | the trace is pipeline.start, bracketed stages in the order stt, diarize, summarize, then pipeline.complete, absent exactly when stt failed, whose stage.error is then last; replaying it gives exactly the keys and success flags of the response's stages |
| PipelineRun.TraceIgnoresListOrder | internal/gateway/pipeline.go:123-206 | order and repetition in the form field change nothing but the echo of the list in the first event |
| PipelineRun.ResponseStages | internal/gateway/pipeline.go:117-206 | the response reports exactly the stages that ran, with their outcome |
| PipelineRun.StagesReported | internal/gateway/pipeline.go:123-182 | in terms of list, URLs and backends alone: stt is reported exactly when asked for; diarize when asked for, configured and not cut off by a failed stt; summarize when asked for, configured by its own URL, and stt was asked for and heard something |
| PipelineRun.EntriesTell | internal/gateway/pipeline.go:128-206 | each entry has the time of its own stage, and the text of its own backend's error exactly when that failed |
| PipelineRun.PayloadsTell | internal/gateway/pipeline.go:137-205 | transcript, segments and summary are those of the stages that were reported and succeeded |
| PipelineRun.LogAgrees | internal/gateway/pipeline.go:123-206 | a stage has events exactly when it has an entry, and they carry its time, its error and the size of its payload |
| PipelineRun.SummarizerURLOnly | internal/gateway/pipeline.go:182-206 | changing the summarizer's URL changes no other stage's entry, events or payload |
| PipelineRun.DiarizerURLOnly | internal/gateway/pipeline.go:155-179 | nor does changing the diarizer's |
| EventLog.LocalFileLogger.Log | internal/gateway/eventlog.go:74-100 | one line is appended to the request's file; the handle is opened once and kept, also when the write fails; a failed open or write is an error and changes no file |
| EventLog.LocalFileLogger.Close | internal/gateway/eventlog.go:102-114 | all handles are dropped, no file changes, and logging can go on; an error if and only if closing some open file failed |
| EventLog.FileIsSubsequence | internal/gateway/eventlog.go:74-114 | for every interleaving of calls each file holds, in order, exactly the accepted events whose request ID resolves to it |
| EventLog.Demultiplexed | internal/gateway/eventlog.go:65-67 | a request's file is exactly the in-order subsequence of its own events if and only if no accepted event of another request resolves to the same file |
| EventLog.PlainIDsDemultiplex | internal/gateway/eventlog.go:88-96 | with request IDs that contain no slash: if and only if no other request uses the same ID |
| EventLog.IDsCollide | internal/gateway/request_id.go:29-33 | "b" and "a/../b" share a file in any directory, and an ID sent twice mixes two requests |
| EventLog.FilesReplay | internal/gateway/eventlog.go:65-67 | for every interleaving of the handlers of any number of requests with files of their own, each file is the trace of its request, and replaying it gives exactly the stages and success flags of the response |
| EventLog.PlainFilesApart | internal/gateway/eventlog.go:90 | requests whose IDs contain no slash have files of their own if and only if their IDs are distinct |
| FilePath.PlainResolves | internal/gateway/eventlog.go:90 | an ID without a slash becomes the file of that name in the cleaned directory |
| FilePath.PlainApart | internal/gateway/eventlog.go:90 | two such IDs share a file if and only if they are equal |
| FilePath.DetourResolves | internal/gateway/eventlog.go:90 | an ID that enters a directory and leaves it again resolves to the same file as what follows |
| EventLog.NothingLost | internal/gateway/eventlog.go:88-99 | while files can be opened and written every event is accepted, also after Close |
| EventLog.BucketKeepsLast | internal/gateway/eventlog.go:138-146 | of all events with one object name the store keeps the last |
| EventLog.BucketLosesStages | internal/gateway/eventlog.go:138-146 | when a request runs stt and a later stage, the start of stt is gone from the bucket |
| EventLog.BucketKeepsTrace | internal/gateway/eventlog.go:138-146 | on one day every event of a request's trace is the value of some object if and only if the request does not run stt and a later stage |
| EventLog.AllStagesLoseEvents | internal/gateway/eventlog.go:138-146 | a request for all stages with working backends is such an input |
| Normalization.NormalizeIsCanonical | eval/vox_eval/metrics.py:67-90 | for every string the result is lower case, has no punctuation, no white space around it and only single spaces inside |
| Normalization.CanonicalStays | eval/vox_eval/metrics.py:73-89 | such texts are fixed points: no contraction can fire without an apostrophe |
| Normalization.NormalizeIsIdempotent | eval/vox_eval/metrics.py:67-90 | normalising twice is normalising once, and the fixed points are exactly the canonical texts |
| Normalization.WordsJoinBack | eval/vox_eval/metrics.py:88-90 | joining the words of a normalised text with single spaces returns it |
| Normalization.BlankNormalizesAway | eval/vox_eval/metrics.py:109-117 | what strips to nothing normalises to nothing |
| Normalization.PunctuationVanishes | eval/vox_eval/metrics.py:67-90 | a text of punctuation alone is not blank, but normalises to nothing |
| Contractions.ContractionExpands | eval/vox_eval/metrics.py:74-87 | in any text that has no other apostrophe a contraction is written out and the rest stays; "she's" is met by the rewrite of "he's" |
| Contractions.OthersStay | eval/vox_eval/metrics.py:74-87 | an apostrophe that belongs to no contraction changes nothing |
| NormalizedText.LettersAreKept | eval/vox_eval/metrics.py:67-90 | without apostrophes the visible characters of the result are exactly those of the lower-cased text that are no punctuation, in order |
| NormalizedText.WordsAreKept | eval/vox_eval/metrics.py:88-90 | and its words are what stands between white space there |
| NormalizedText.NegationsAreWritten | eval/vox_eval/metrics.py:74-76 | for all canonical a and b, `a don't b` normalises to `a do not b`, and likewise "can't" and "won't"; at an empty end the space goes |
| NormalizedText.BeingAreWritten | eval/vox_eval/metrics.py:77-82 | the same for "i'm", "it's", "he's", "she's", "we're" and "they're" |
| NormalizedText.HaveAndWillAreWritten | eval/vox_eval/metrics.py:83-87 | the same for "i've", "you've", "we've", "i'll" and "you'll" |
| NormalizedText.NormalizedWordByWord | eval/vox_eval/metrics.py:73-90 | a lower-case text, with any number of apostrophes, is normalised word by word |
| NormalizedText.AmongAnyWords | eval/vox_eval/metrics.py:74-87 | among any such words a contraction and its expansion are the same to the normalisation |
| Normalization.AsciiLowercases | eval/vox_eval/metrics.py:73 | what these results assume of lower-casing is met by the one for ASCII letters |
| Alignment.BestIsMinimal | eval/vox_eval/metrics.py:3-7 | the counted alignment costs no more than any other |
| Alignment.CountsAddUp | eval/vox_eval/metrics.py:3-7 | hits, substitutions and deletions make up the reference, hits, substitutions and insertions the hypothesis, and the errors the cost |
| Alignment.DistanceExtremes | eval/vox_eval/metrics.py:9-11 | no errors exactly for equal word lists; the whole reference for an empty hypothesis |
| Metrics.NormalizeIsNormalizer | eval/vox_eval/metrics.py:67-90 | `_normalize` meets what the WER results below ask of a normalisation |
| Metrics.WerIsErrorRate | eval/vox_eval/metrics.py:93-126 | the WER of a sample whose reference has words is its errors over its normalised reference words, also in the branch for a blank prediction |
| Metrics.ZeroWerMeansSameText | eval/vox_eval/metrics.py:9 | a WER of zero if and only if the normalised texts are equal |
| Metrics.ContractionIsNoError | eval/vox_eval/metrics.py:67-126 | a reference and a transcription that differ, but for capitals, only by a contraction have a WER of zero, whichever of them has it |
| Metrics.CountsAreMinimal | eval/vox_eval/metrics.py:119-126 | the three counts returned add up to no more than the cost of any alignment |
| Metrics.CountsBalance | eval/vox_eval/metrics.py:119-126 | insertions and deletions make up the difference in length, and neither text is charged for more words than it has |
| Metrics.CorpusWerIsWeightedMean | eval/vox_eval/metrics.py:149-156 | the corpus WER is the mean of the sample WERs weighted by normalised reference length; so min_wer <= corpus_wer <= max_wer for any non-empty list, blank predictions included |
| Metrics.AggregatesCombine | eval/vox_eval/metrics.py:143-181 | the figures of two lists together follow from theirs: counts add up, the means weigh by samples, the corpus WER by words, and the extremes are those of either list |
| Metrics.SingleAggregate | eval/vox_eval/metrics.py:143-181 | the figures of one sample are its own |
| Metrics.MeanWerIsBetween | eval/vox_eval/metrics.py:170-174 | the mean WER lies between the smallest and the largest |
| Metrics.MedianIgnoresOrder | eval/vox_eval/metrics.py:146-163 | the median is the same for every order of the samples |
| Metrics.MedianSplits | eval/vox_eval/metrics.py:158-163 | at least half of the WERs lie on each side of the median |
| Metrics.AggregateRaises | eval/vox_eval/metrics.py:143-156 | aggregation raises if and only if there is no sample or some reference normalises to nothing |
| EvalRunner.Run | eval/vox_eval/runner.py:98-182 | the loop with its two kinds of exceptions gives the outcome that the specification computes from the jobs |
| EvalRunner.EverySampleCounts | eval/vox_eval/runner.py:101-150 | every sample is measured or listed as an error, exactly once, and aggregation sees what compute_wer returned |
| EvalRunner.JobsTell | eval/vox_eval/runner.py:101-150 | samples and errors are those of the jobs in the order of the dataset, and each job adds one entry with its own fields, by what its transcription did |
| EvalRunner.RoundingIsClose | eval/vox_eval/runner.py:257-259 | rounding gives a whole number of units of the fourth place, at most half a unit away, and an even one halfway |
| EvalRunner.VerdictIsUnrounded | eval/vox_eval/runner.py:164-173 | passed if and only if the unrounded corpus WER is at most the threshold, and how far the rounded figure in the report can be from that |
| EvalRunner.FinishedRunIsBounded | eval/vox_eval/runner.py:155-182 | a finished run's corpus WER lies between its best and its worst sample |
| EvalRunner.RunEnds | eval/vox_eval/runner.py:101-162 | a run fails as a whole exactly when every sample is an error, raises exactly when a transcribed sample has a reference that normalises to nothing and a blank reference or prediction, and finishes otherwise |
| EvalRunner.LoadedRunRaises | eval/vox_eval/dataset.py:96-101 | for datasets without blank references, which are the ones that load, a run raises exactly when some transcription is blank and its reference normalises to nothing |
| EvalRunner.PunctuationRaises | eval/vox_eval/runner.py:113-162 | any reference of punctuation alone with a blank transcription makes the run raise, whatever the other samples are |
| EvalRunner.DotRaises | eval/vox_eval/runner.py:113-162 | the reference "." with the transcription "" is such an input |

## Left out

- HTTP, WebSocket, multipart, GCS and metadata-token transport, authentication, middleware, metrics and request IDs: a backend call is an arbitrary success or error value.
- Delivery of transcripts after a flush: a failed Whisper call loses that audio by design (`internal/gateway/stream.go:336-381`), so conservation ends where the buffer is drained.
- JSON encoding and decoding: a report parameter is text that is or is not a report; a log line is an event.
- The Kubernetes client cache: a Get returns the object as it is at that moment, and a status update is refused when the object's version has changed.
- NoLostWakeUp: runs in which List fails in mapVoiceModelToPipelines, which drops the event (`operator/internal/controller/inferencepipeline_controller.go:226-228`).
- A failed Get of the VoiceModel itself, which only returns an error (`operator/internal/controller/voicemodel_controller.go:70`).
- API server defaulting of Deployment and Service fields, image pull policy, port and container names, and the target port name.
- Owner-reference garbage collection; the update path does not adopt existing objects (`operator/internal/controller/voicemodel_controller.go:133-135`), so nothing is claimed about their cleanup.
- SelectorNeverChanges: histories start without the Deployment and Service, and nobody but the API server's own refusal is assumed to protect a Deployment's selector.
- SucceededMeansWithinThreshold: assumes that a report found in a Workflow's outputs was written by the runner with that Workflow's arguments, and that nobody else creates Workflows; how `--threshold` is parsed into a number is a parameter, and the persisted WER is a real, not its `%.4f` text.
- EventLog.LocalFileLogger.Log: a write that fails after part of the line; symbolic links, file systems that ignore case, and a directory changed from outside.
- FilesReplay: requests that are cut off before their last event; `filepath.Join` is that of Unix.
- IdleIsFixed: EvalRuns that are being deleted, Workflows that somebody else creates under an EvalRun's name, and calls that fail after they have taken effect; an owner reference wakes the owner by its name.
- IdleIsGood: VoiceModels that are being deleted, and calls that fail after they have taken effect; a failed Get or finalizer update only leaves the wake-up in place.
- EndedIsDecided: assumes that Argo does not change a Workflow after it has ended.
- RoundTrip: Go's `int` is taken as unbounded, so only the 32-bit words of the file wrap.
- BufferIsBounded: floating-point seconds are reals; a nanosecond clock is an arbitrary real, and no order of readings is needed.
- PrintParseRoundTrip: `strings.ToLower` is any character map that is idempotent and neither makes nor removes commas.
- NormalizeIsIdempotent: `str.lower` is any function into characters on which it does nothing, such as the small ASCII letters.
- CommandReadsBack: the reader takes the value after each flag as it is; `argparse` refuses some values that begin with a dash.
- ContractionExpands: texts with several apostrophes are covered word by word (`NormalizedText.NormalizedWordByWord`), one apostrophe to a word.
- BestIsMinimal: which alignment jiwer takes among equally cheap ones, so only sums of counts are fixed; the separate corpus totals of substitutions, insertions and deletions are one number.
- CorpusWerIsWeightedMean: over reals, without rounding; jiwer is assumed to raise an error for a reference without words.
- The runner's progress output, summary text, report files, dataset loading and command line; the report fields that decide nothing downstream.
- Whisper, Silero, pyannote, llama.cpp, vLLM and jiwer internals; client SDKs, Helm, Terraform, CRD YAML and generated code.
