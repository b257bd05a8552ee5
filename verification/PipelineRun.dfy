/** handlePipeline of internal/gateway/pipeline.go: the stages, the response and the event trace. */
module PipelineRun {
  import opened Api
  import opened StageList

  datatype Segment = Segment(start: real, end: real, speaker: string, text: string)

  /** What a backend call returns. */
  datatype Outcome<+T> = Ok(value: T) | Err(text: string)

  datatype Kind = PipelineStart | StageStart | StageComplete | StageError | PipelineComplete

  /** The payload of an event. */
  datatype Data = NoData | Stages(stages: seq<string>, filename: string) | ErrorData(text: string)
                | Measured(duration: Time, size: nat) | Lasted(duration: Time)

  datatype Event = Event(requestID: string, kind: Kind, stage: string, data: Data)

  datatype StageResult = StageResult(duration: Time, success: bool, error: string)

  datatype Response = Response(
    stages: map<string, StageResult>, transcript: string, segments: seq<Segment>, summary: string)

  datatype Reply = Rejected(status: int, code: string, message: string) | Answered(response: Response)

  datatype Form = BadForm | NoFile | Unreadable | Upload(filename: string, stages: string)

  datatype Backends = Backends(
    diarizerURL: string, summarizerURL: string,
    stt: Outcome<string>, diarize: Outcome<seq<Segment>>, summarize: Outcome<string>)

  /** The seconds that each stage and the whole request took. */
  datatype Clock = Clock(stt: Time, diarize: Time, summarize: Time, total: Time)

  // ----- Which stages run, and how they end

  predicate SttRuns(stages: seq<string>) { "stt" in stages }

  predicate Aborts(stages: seq<string>, b: Backends) { SttRuns(stages) && b.stt.Err? }

  predicate DiarizeRuns(stages: seq<string>, b: Backends) {
    !Aborts(stages, b) && "diarize" in stages && b.diarizerURL != ""
  }

  function Transcript(stages: seq<string>, b: Backends): string {
    if SttRuns(stages) && b.stt.Ok? then b.stt.value else ""
  }

  predicate SummarizeRuns(stages: seq<string>, b: Backends) {
    !Aborts(stages, b) && "summarize" in stages && b.summarizerURL != "" && Transcript(stages, b) != ""
  }

  /** The stages that run, with whether they succeed. */
  function Ran(stages: seq<string>, b: Backends): map<string, bool> {
    map name | name in {"stt", "diarize", "summarize"} && Runs(stages, b, name) :: Succeeds(b, name)
  }

  predicate Runs(stages: seq<string>, b: Backends, name: string) {
    || (name == "stt" && SttRuns(stages))
    || (name == "diarize" && DiarizeRuns(stages, b))
    || (name == "summarize" && SummarizeRuns(stages, b))
  }

  predicate Succeeds(b: Backends, name: string) {
    if name == "stt" then b.stt.Ok? else if name == "diarize" then b.diarize.Ok? else b.summarize.Ok?
  }

  // ----- The trace

  function Bracket<T>(id: string, stage: string, o: Outcome<T>, data: Data): seq<Event> {
    [Event(id, StageStart, stage, NoData),
     match o
     case Ok(_) => Event(id, StageComplete, stage, data)
     case Err(text) => Event(id, StageError, stage, ErrorData(text))]
  }

  function SttTrace(id: string, stages: seq<string>, b: Backends, clock: Clock): seq<Event> {
    if SttRuns(stages) then Bracket(id, "stt", b.stt, Measured(clock.stt, |Transcript(stages, b)|)) else []
  }

  function DiarizeTrace(id: string, stages: seq<string>, b: Backends, clock: Clock): seq<Event> {
    if DiarizeRuns(stages, b) then
      Bracket(id, "diarize", b.diarize, Measured(clock.diarize, if b.diarize.Ok? then |b.diarize.value| else 0))
    else []
  }

  function SummarizeTrace(id: string, stages: seq<string>, b: Backends, clock: Clock): seq<Event> {
    if SummarizeRuns(stages, b) then Bracket(id, "summarize", b.summarize, Lasted(clock.summarize)) else []
  }

  function Trace(id: string, filename: string, stages: seq<string>, b: Backends, clock: Clock): seq<Event> {
    [Event(id, PipelineStart, "", Stages(stages, filename))]
    + SttTrace(id, stages, b, clock) + DiarizeTrace(id, stages, b, clock) + SummarizeTrace(id, stages, b, clock)
    + if Aborts(stages, b) then [] else [Event(id, PipelineComplete, "", Lasted(clock.total))]
  }

  // ----- The response

  function Put<T>(results: map<string, StageResult>, name: string, runs: bool, o: Outcome<T>, duration: Time)
    : map<string, StageResult>
  {
    if !runs then results
    else
      results[name := match o
                      case Ok(_) => StageResult(duration, true, "")
                      case Err(text) => StageResult(duration, false, text)]
  }

  /** The response as it stands when the handler returns. */
  function ResponseOf(stages: seq<string>, b: Backends, clock: Clock): Response {
    var stt := Put(map[], "stt", SttRuns(stages), b.stt, clock.stt);
    var diarize := Put(stt, "diarize", DiarizeRuns(stages, b), b.diarize, clock.diarize);
    Response(
      Put(diarize, "summarize", SummarizeRuns(stages, b), b.summarize, clock.summarize),
      Transcript(stages, b),
      if DiarizeRuns(stages, b) && b.diarize.Ok? then b.diarize.value else [],
      if SummarizeRuns(stages, b) && b.summarize.Ok? then b.summarize.value else "")
  }

  // ----- What the response says, from the list, the URLs and the backends alone

  /** A stage is reported if and only if it is asked for and configured, nothing before it is in the way, and for a summary
      there is a text. */
  lemma StagesReported(stages: seq<string>, b: Backends, clock: Clock)
    ensures var r := ResponseOf(stages, b, clock).stages;
      && ("stt" in r <==> "stt" in stages)
      && ("diarize" in r <==> "diarize" in stages && b.diarizerURL != "" && ("stt" in stages ==> b.stt.Ok?))
      && ("summarize" in r <==>
          "summarize" in stages && b.summarizerURL != "" && "stt" in stages && b.stt.Ok? && b.stt.value != "")
      && forall name :: name in r ==> name in {"stt", "diarize", "summarize"}
  {
    Distinct();
  }

  /** An entry has the time of its own stage, and the text of its own backend's error, if there was one. */
  predicate EntryOf<T>(r: map<string, StageResult>, name: string, o: Outcome<T>, duration: Time) {
    name in r ==>
      && r[name].duration == duration
      && (o.Ok? ==> r[name].success && r[name].error == "")
      && (o.Err? ==> !r[name].success && r[name].error == o.text)
  }

  lemma EntriesTell(stages: seq<string>, b: Backends, clock: Clock)
    ensures var r := ResponseOf(stages, b, clock).stages;
      && EntryOf(r, "stt", b.stt, clock.stt)
      && EntryOf(r, "diarize", b.diarize, clock.diarize)
      && EntryOf(r, "summarize", b.summarize, clock.summarize)
  {
    Distinct();
  }

  /** The payloads are those of the stages that succeeded. */
  lemma PayloadsTell(stages: seq<string>, b: Backends, clock: Clock)
    ensures var r := ResponseOf(stages, b, clock);
      && r.transcript == (if "stt" in stages && b.stt.Ok? then b.stt.value else "")
      && r.segments == (if "diarize" in r.stages && b.diarize.Ok? then b.diarize.value else [])
      && r.summary == (if "summarize" in r.stages && b.summarize.Ok? then b.summarize.value else "")
  {
    StagesReported(stages, b, clock);
  }

  // ----- The handler

  lemma TraceParts(id: string, filename: string, stages: seq<string>, b: Backends, clock: Clock)
    ensures var log := [] + [Event(id, PipelineStart, "", Stages(stages, filename))] + SttTrace(id, stages, b, clock);
      Trace(id, filename, stages, b, clock) ==
      if Aborts(stages, b) then log
      else log + DiarizeTrace(id, stages, b, clock) + SummarizeTrace(id, stages, b, clock)
           + [Event(id, PipelineComplete, "", Lasted(clock.total))]
  {
  }

  /** handlePipeline; `events` is what it hands to the event log, whose errors it ignores. */
  method HandlePipeline(id: string, form: Form, fold: char -> char, b: Backends, clock: Clock)
    returns (reply: Reply, resp: Response, events: seq<Event>)
    ensures !form.Upload? ==> events == [] && reply.Rejected?
    ensures form.BadForm? ==> reply.status == 400 && reply.code == "file_too_large"
    ensures form.NoFile? ==> reply.status == 400 && reply.code == "file_required"
    ensures form.Unreadable? ==> reply.status == 500 && reply.code == "internal_error"
    ensures form.Upload? ==>
      var stages := Parsed(form.stages, fold);
      && events == Trace(id, form.filename, stages, b, clock)
      && resp == ResponseOf(stages, b, clock)
      && reply == if "stt" in stages && b.stt.Err?
                  then Rejected(502, "backend_error", "STT stage failed: " + b.stt.text)
                  else Answered(resp)
    ensures form.Upload? ==>
      var stages := Parsed(form.stages, fold);
      && ("diarize" in resp.stages <==>
          "diarize" in stages && b.diarizerURL != "" && ("stt" in stages ==> b.stt.Ok?))
      && ("summarize" in resp.stages <==>
          "summarize" in stages && b.summarizerURL != "" && "stt" in stages && b.stt.Ok? && b.stt.value != "")
  {
    events, resp := [], Response(map[], "", [], "");
    match form {
      case BadForm =>
        reply := Rejected(400, "file_too_large", "invalid multipart form or file too large (max 32MB)");
        return;
      case NoFile =>
        reply := Rejected(400, "file_required", "missing 'file' field in form data");
        return;
      case Unreadable =>
        reply := Rejected(500, "internal_error", "reading audio file");
        return;
      case Upload(_, _) =>
    }
    var stages := ParseStages(form.stages, fold);
    TraceParts(id, form.filename, stages, b, clock);
    StagesReported(stages, b, clock);
    events := events + [Event(id, PipelineStart, "", Stages(stages, form.filename))];
    resp, events := SttStage(id, stages, b, clock, resp, events);
    if Aborts(stages, b) {
      // STT is required
      reply := Rejected(502, "backend_error", "STT stage failed: " + b.stt.text);
      return;
    }
    resp, events := DiarizeStage(id, stages, b, clock, resp, events);
    resp, events := SummarizeStage(id, stages, b, clock, resp, events);
    events := events + [Event(id, PipelineComplete, "", Lasted(clock.total))];
    reply := Answered(resp);
  }

  method SttStage(id: string, stages: seq<string>, b: Backends, clock: Clock, before: Response, log: seq<Event>)
    returns (resp: Response, events: seq<Event>)
    ensures events == log + SttTrace(id, stages, b, clock)
    ensures resp == before.(stages := Put(before.stages, "stt", SttRuns(stages), b.stt, clock.stt),
                            transcript := if SttRuns(stages) && b.stt.Ok? then b.stt.value else before.transcript)
  {
    resp, events := before, log;
    var wanted := Contains(stages, "stt");
    if wanted {
      events := events + [Event(id, StageStart, "stt", NoData)];
      if b.stt.Err? {
        resp := resp.(stages := resp.stages["stt" := StageResult(clock.stt, false, b.stt.text)]);
        events := events + [Event(id, StageError, "stt", ErrorData(b.stt.text))];
        return;
      }
      resp := resp.(transcript := b.stt.value);
      resp := resp.(stages := resp.stages["stt" := StageResult(clock.stt, true, "")]);
      events := events + [Event(id, StageComplete, "stt", Measured(clock.stt, |b.stt.value|))];
    }
  }

  method DiarizeStage(id: string, stages: seq<string>, b: Backends, clock: Clock, before: Response, log: seq<Event>)
    returns (resp: Response, events: seq<Event>)
    requires !Aborts(stages, b)
    ensures events == log + DiarizeTrace(id, stages, b, clock)
    ensures resp == before.(stages := Put(before.stages, "diarize", DiarizeRuns(stages, b), b.diarize, clock.diarize),
                            segments := if DiarizeRuns(stages, b) && b.diarize.Ok? then b.diarize.value
                                        else before.segments)
  {
    resp, events := before, log;
    var wanted := Contains(stages, "diarize");
    if wanted && b.diarizerURL != "" {
      events := events + [Event(id, StageStart, "diarize", NoData)];
      match b.diarize {
        case Err(text) =>
          resp := resp.(stages := resp.stages["diarize" := StageResult(clock.diarize, false, text)]);
          events := events + [Event(id, StageError, "diarize", ErrorData(text))];
        case Ok(segments) =>
          resp := resp.(segments := segments);
          resp := resp.(stages := resp.stages["diarize" := StageResult(clock.diarize, true, "")]);
          events := events + [Event(id, StageComplete, "diarize", Measured(clock.diarize, |segments|))];
      }
    }
  }

  method SummarizeStage(id: string, stages: seq<string>, b: Backends, clock: Clock, before: Response, log: seq<Event>)
    returns (resp: Response, events: seq<Event>)
    requires !Aborts(stages, b) && before.transcript == Transcript(stages, b)
    ensures events == log + SummarizeTrace(id, stages, b, clock)
    ensures resp == before.(stages := Put(before.stages, "summarize", SummarizeRuns(stages, b), b.summarize,
                                          clock.summarize),
                            summary := if SummarizeRuns(stages, b) && b.summarize.Ok? then b.summarize.value
                                       else before.summary)
  {
    resp, events := before, log;
    var wanted := Contains(stages, "summarize");
    if wanted && b.summarizerURL != "" && resp.transcript != "" {
      events := events + [Event(id, StageStart, "summarize", NoData)];
      match b.summarize {
        case Err(text) =>
          resp := resp.(stages := resp.stages["summarize" := StageResult(clock.summarize, false, text)]);
          events := events + [Event(id, StageError, "summarize", ErrorData(text))];
        case Ok(summary) =>
          resp := resp.(summary := summary);
          resp := resp.(stages := resp.stages["summarize" := StageResult(clock.summarize, true, "")]);
          events := events + [Event(id, StageComplete, "summarize", Lasted(clock.summarize))];
      }
    }
  }

  // ----- Replay

  function Flags(results: map<string, StageResult>): map<string, bool> {
    map name | name in results :: results[name].success
  }

  /** What a reader of the log reconstructs: the last verdict on every stage. */
  function Replay(events: seq<Event>): map<string, bool> {
    if events == [] then map[]
    else
      var e, before := events[|events| - 1], Replay(events[..|events| - 1]);
      if e.kind.StageComplete? then before[e.stage := true]
      else if e.kind.StageError? then before[e.stage := false]
      else before
  }

  /** The states of a reader that checks the shape of a log: stages in the order of ALL_STAGES, each bracketed, nothing
      after a failed stt, and pipeline.complete at the very end otherwise. */
  datatype Reader = Fresh | Between(next: nat) | Inside(stage: nat) | Over | Aborted | Bad

  function Rank(stage: string): nat {
    if stage == "stt" then 0 else if stage == "diarize" then 1 else if stage == "summarize" then 2 else 3
  }

  function Reads(r: Reader, e: Event): Reader {
    match (r, e.kind)
    case (Fresh, PipelineStart) => Between(0)
    case (Between(n), StageStart) => if n <= Rank(e.stage) <= 2 then Inside(Rank(e.stage)) else Bad
    case (Inside(n), StageComplete) => if Rank(e.stage) == n then Between(n + 1) else Bad
    case (Inside(n), StageError) => if Rank(e.stage) != n then Bad else if n == 0 then Aborted else Between(n + 1)
    case (Between(_), PipelineComplete) => Over
    case _ => Bad
  }

  function ReadAll(events: seq<Event>): Reader {
    if events == [] then Fresh else Reads(ReadAll(events[..|events| - 1]), events[|events| - 1])
  }

  lemma ReadOne(log: seq<Event>, e: Event)
    ensures ReadAll(log + [e]) == Reads(ReadAll(log), e)
    ensures Replay(log + [e]) ==
            (if e.kind.StageComplete? then Replay(log)[e.stage := true]
             else if e.kind.StageError? then Replay(log)[e.stage := false]
             else Replay(log))
  {
    assert (log + [e])[..|log|] == log;
  }

  lemma ReadBracket<T>(log: seq<Event>, id: string, stage: string, o: Outcome<T>, data: Data)
    requires ReadAll(log).Between? && ReadAll(log).next <= Rank(stage) <= 2
    ensures var more := log + Bracket(id, stage, o, data);
      && ReadAll(more) == (if Rank(stage) == 0 && o.Err? then Aborted else Between(Rank(stage) + 1))
      && Replay(more) == Replay(log)[stage := o.Ok?]
  {
    var b := Bracket(id, stage, o, data);
    ReadOne(log, b[0]);
    ReadOne(log + [b[0]], b[1]);
    assert log + [b[0]] + [b[1]] == log + b;
  }

  lemma FlagsPut<T>(results: map<string, StageResult>, name: string, runs: bool, o: Outcome<T>, duration: Time)
    ensures Flags(Put(results, name, runs, o, duration)) ==
            if runs then Flags(results)[name := o.Ok?] else Flags(results)
  {
  }

  /** One stage's part of the log, whether or not the stage runs. */
  lemma ReadPart<T>(log: seq<Event>, id: string, stage: string, runs: bool, o: Outcome<T>, data: Data)
    requires ReadAll(log).Between? && ReadAll(log).next <= Rank(stage) <= 2
    ensures var more := log + if runs then Bracket(id, stage, o, data) else [];
      && Replay(more) == (if runs then Replay(log)[stage := o.Ok?] else Replay(log))
      && (if runs && Rank(stage) == 0 && o.Err? then ReadAll(more) == Aborted
          else ReadAll(more).Between? && ReadAll(more).next <= Rank(stage) + 1)
  {
    if runs {
      ReadBracket(log, id, stage, o, data);
    } else {
      assert log + [] == log;
    }
  }

  lemma AbortedReplays(id: string, filename: string, stages: seq<string>, b: Backends, clock: Clock)
    requires Aborts(stages, b)
    ensures var events := Trace(id, filename, stages, b, clock);
      ReadAll(events) == Aborted && Replay(events) == Flags(ResponseOf(stages, b, clock).stages)
  {
    var log := [Event(id, PipelineStart, "", Stages(stages, filename))];
    ReadOne([], log[0]);
    assert [] + log == log;
    ReadPart(log, id, "stt", true, b.stt, Measured(clock.stt, |Transcript(stages, b)|));
    assert Trace(id, filename, stages, b, clock) == log + SttTrace(id, stages, b, clock);
    FlagsPut(map[], "stt", true, b.stt, clock.stt);
  }

  /** The three parts of the log, whichever of them are there. */
  lemma PartsReplay(log: seq<Event>, id: string, stages: seq<string>, b: Backends, clock: Clock)
    requires ReadAll(log) == Between(0) && Replay(log) == map[] && !Aborts(stages, b)
    ensures var more := log + SttTrace(id, stages, b, clock) + DiarizeTrace(id, stages, b, clock)
                        + SummarizeTrace(id, stages, b, clock);
      && ReadAll(more).Between?
      && Replay(more) == (var m0: map<string, bool> := map[];
                          var m1 := if SttRuns(stages) then m0["stt" := b.stt.Ok?] else m0;
                          var m2 := if DiarizeRuns(stages, b) then m1["diarize" := b.diarize.Ok?] else m1;
                          if SummarizeRuns(stages, b) then m2["summarize" := b.summarize.Ok?] else m2)
  {
    ReadPart(log, id, "stt", SttRuns(stages), b.stt, Measured(clock.stt, |Transcript(stages, b)|));
    var log1 := log + SttTrace(id, stages, b, clock);
    ReadPart(log1, id, "diarize", DiarizeRuns(stages, b), b.diarize,
             Measured(clock.diarize, if b.diarize.Ok? then |b.diarize.value| else 0));
    var log2 := log1 + DiarizeTrace(id, stages, b, clock);
    ReadPart(log2, id, "summarize", SummarizeRuns(stages, b), b.summarize, Lasted(clock.summarize));
  }

  lemma ResponseFlags(stages: seq<string>, b: Backends, clock: Clock)
    ensures var m0: map<string, bool> := map[];
      var m1 := if SttRuns(stages) then m0["stt" := b.stt.Ok?] else m0;
      var m2 := if DiarizeRuns(stages, b) then m1["diarize" := b.diarize.Ok?] else m1;
      Flags(ResponseOf(stages, b, clock).stages) ==
      if SummarizeRuns(stages, b) then m2["summarize" := b.summarize.Ok?] else m2
  {
    var r1 := Put(map[], "stt", SttRuns(stages), b.stt, clock.stt);
    var r2 := Put(r1, "diarize", DiarizeRuns(stages, b), b.diarize, clock.diarize);
    FlagsPut(map[], "stt", SttRuns(stages), b.stt, clock.stt);
    FlagsPut(r1, "diarize", DiarizeRuns(stages, b), b.diarize, clock.diarize);
    FlagsPut(r2, "summarize", SummarizeRuns(stages, b), b.summarize, clock.summarize);
  }

  lemma CompletedReplays(id: string, filename: string, stages: seq<string>, b: Backends, clock: Clock)
    requires !Aborts(stages, b)
    ensures var events := Trace(id, filename, stages, b, clock);
      ReadAll(events) == Over && Replay(events) == Flags(ResponseOf(stages, b, clock).stages)
  {
    var log := [Event(id, PipelineStart, "", Stages(stages, filename))];
    ReadOne([], log[0]);
    assert [] + log == log;
    var most := log + SttTrace(id, stages, b, clock) + DiarizeTrace(id, stages, b, clock)
                + SummarizeTrace(id, stages, b, clock);
    ReadOne(most, Event(id, PipelineComplete, "", Lasted(clock.total)));
    assert ReadAll(most).Between? && Replay(most) == Flags(ResponseOf(stages, b, clock).stages) by {
      PartsReplay(log, id, stages, b, clock);
      ResponseFlags(stages, b, clock);
    }
  }

  /** For every stage list, URL configuration and backend outcome: the log has the documented shape, it ends with
      pipeline.complete unless stt failed, in which case its stage.error is last; and replaying it gives exactly the keys
      and success flags of the response's stages. */
  lemma TraceReplays(id: string, filename: string, stages: seq<string>, b: Backends, clock: Clock)
    ensures var events := Trace(id, filename, stages, b, clock);
      && ReadAll(events) == (if Aborts(stages, b) then Aborted else Over)
      && Replay(events) == Flags(ResponseOf(stages, b, clock).stages)
      && forall i :: 0 <= i < |events| ==> events[i].requestID == id
  {
    if Aborts(stages, b) {
      AbortedReplays(id, filename, stages, b, clock);
    } else {
      CompletedReplays(id, filename, stages, b, clock);
    }
  }

  /** The stages run in their fixed order, whatever the order or repetition in the form field: only the echo of the list in
      the first event depends on those. */
  lemma TraceIgnoresListOrder(
    id: string, filename: string, stages: seq<string>, others: seq<string>, b: Backends, clock: Clock)
    requires forall name :: name in stages <==> name in others
    ensures Trace(id, filename, stages, b, clock)[1..] == Trace(id, filename, others, b, clock)[1..]
    ensures ResponseOf(stages, b, clock) == ResponseOf(others, b, clock)
  {
  }

  /** Which stages the response reports, and with which success flag. */
  lemma ResponseStages(stages: seq<string>, b: Backends, clock: Clock)
    ensures Flags(ResponseOf(stages, b, clock).stages) == Ran(stages, b)
  {
    Distinct();
  }

  // ----- What the log says, stage by stage

  /** The events of one stage. */
  function Of(events: seq<Event>, stage: string): seq<Event> {
    if events == [] then []
    else
      var n := |events| - 1;
      Of(events[..n], stage) + if events[n].stage == stage then [events[n]] else []
  }

  lemma {:induction false} OfConcat(a: seq<Event>, b: seq<Event>, stage: string)
    ensures Of(a + b, stage) == Of(a, stage) + Of(b, stage)
  {
    if b == [] {
      assert a + b == a && Of(a, stage) + [] == Of(a, stage);
    } else {
      var n := |b| - 1;
      OfConcat(a, b[..n], stage);
      OfLast(a + b, stage);
      assert (a + b)[..|a + b| - 1] == a + b[..n];
      Regroup(Of(a, stage), Of(b[..n], stage), if b[n].stage == stage then [b[n]] else []);
    }
  }

  lemma OfLast(events: seq<Event>, stage: string)
    requires events != []
    ensures var n := |events| - 1;
      Of(events, stage) == Of(events[..n], stage) + if events[n].stage == stage then [events[n]] else []
  {
  }

  lemma OfPart<T>(id: string, name: string, runs: bool, o: Outcome<T>, data: Data, stage: string)
    ensures var part := if runs then Bracket(id, name, o, data) else [];
      Of(part, stage) == if name == stage then part else []
  {
    var part := Bracket(id, name, o, data);
    assert part[..1] == [part[0]] && part[..1][..0] == [];
    assert Of(part[..1], stage) == if name == stage then [part[0]] else [];
  }

  function Own(name: string, stage: string, part: seq<Event>): seq<Event> {
    if name == stage then part else []
  }

  lemma OfParts(id: string, stages: seq<string>, b: Backends, clock: Clock, stage: string)
    ensures Of(SttTrace(id, stages, b, clock), stage) == Own("stt", stage, SttTrace(id, stages, b, clock))
    ensures Of(DiarizeTrace(id, stages, b, clock), stage) == Own("diarize", stage, DiarizeTrace(id, stages, b, clock))
    ensures Of(SummarizeTrace(id, stages, b, clock), stage)
            == Own("summarize", stage, SummarizeTrace(id, stages, b, clock))
  {
    OfPart(id, "stt", SttRuns(stages), b.stt, Measured(clock.stt, |Transcript(stages, b)|), stage);
    OfPart(id, "diarize", DiarizeRuns(stages, b), b.diarize,
           Measured(clock.diarize, if b.diarize.Ok? then |b.diarize.value| else 0), stage);
    OfPart(id, "summarize", SummarizeRuns(stages, b), b.summarize, Lasted(clock.summarize), stage);
  }

  lemma OfTraceAt(id: string, filename: string, stages: seq<string>, b: Backends, clock: Clock, stage: string)
    requires stage != ""
    ensures Of(Trace(id, filename, stages, b, clock), stage) ==
            Of(SttTrace(id, stages, b, clock), stage) + Of(DiarizeTrace(id, stages, b, clock), stage)
            + Of(SummarizeTrace(id, stages, b, clock), stage)
  {
    var first := [Event(id, PipelineStart, "", Stages(stages, filename))];
    var last := if Aborts(stages, b) then [] else [Event(id, PipelineComplete, "", Lasted(clock.total))];
    OfNameless(first, stage);
    OfNameless(last, stage);
    OfFive(first, SttTrace(id, stages, b, clock), DiarizeTrace(id, stages, b, clock),
           SummarizeTrace(id, stages, b, clock), last, stage);
  }

  lemma OfNameless(events: seq<Event>, stage: string)
    requires |events| <= 1 && stage != "" && forall i :: 0 <= i < |events| ==> events[i].stage == ""
    ensures Of(events, stage) == []
  {
    if events != [] {
      assert events[..0] == [];
    }
  }

  lemma OfFive(first: seq<Event>, a: seq<Event>, b: seq<Event>, c: seq<Event>, last: seq<Event>, stage: string)
    requires Of(first, stage) == [] && Of(last, stage) == []
    ensures Of(first + a + b + c + last, stage) == Of(a, stage) + Of(b, stage) + Of(c, stage)
  {
    OfConcat(first + a + b + c, last, stage);
    OfConcat(first + a + b, c, stage);
    OfConcat(first + a, b, stage);
    OfConcat(first, a, stage);
  }

  /** The events of a stage are its own part of the log. */
  lemma OfTrace(id: string, filename: string, stages: seq<string>, b: Backends, clock: Clock)
    ensures var events := Trace(id, filename, stages, b, clock);
      && Of(events, "stt") == SttTrace(id, stages, b, clock)
      && Of(events, "diarize") == DiarizeTrace(id, stages, b, clock)
      && Of(events, "summarize") == SummarizeTrace(id, stages, b, clock)
  {
    Distinct();
    OfTraceAt(id, filename, stages, b, clock, "stt");
    OfParts(id, stages, b, clock, "stt");
    OfTraceAt(id, filename, stages, b, clock, "diarize");
    OfParts(id, stages, b, clock, "diarize");
    OfTraceAt(id, filename, stages, b, clock, "summarize");
    OfParts(id, stages, b, clock, "summarize");
  }

  /** The two events of a reported stage: its start, and its end with the figures of the response, or with its error. */
  predicate Told(events: seq<Event>, id: string, stage: string, entry: StageResult, done: Data) {
    events == [Event(id, StageStart, stage, NoData),
               if entry.success then Event(id, StageComplete, stage, done)
               else Event(id, StageError, stage, ErrorData(entry.error))]
  }

  /** The log tells what the response tells: a stage has events if and only if it has an entry, and they have its time, its
      error, and the size of its payload. */
  lemma LogAgrees(id: string, filename: string, stages: seq<string>, b: Backends, clock: Clock)
    ensures var events, r := Trace(id, filename, stages, b, clock), ResponseOf(stages, b, clock);
      && ("stt" !in r.stages ==> Of(events, "stt") == [])
      && ("stt" in r.stages ==>
          Told(Of(events, "stt"), id, "stt", r.stages["stt"], Measured(r.stages["stt"].duration, |r.transcript|)))
      && ("diarize" !in r.stages ==> Of(events, "diarize") == [])
      && ("diarize" in r.stages ==>
          Told(Of(events, "diarize"), id, "diarize", r.stages["diarize"],
               Measured(r.stages["diarize"].duration, |r.segments|)))
      && ("summarize" !in r.stages ==> Of(events, "summarize") == [])
      && ("summarize" in r.stages ==>
          Told(Of(events, "summarize"), id, "summarize", r.stages["summarize"], Lasted(r.stages["summarize"].duration)))
  {
    OfTrace(id, filename, stages, b, clock);
    Distinct();
  }

  /** A backend's URL decides about its own stage: changing the summarizer's changes no other stage's entry, events or
      payload. */
  lemma SummarizerURLOnly(id: string, filename: string, stages: seq<string>, b: Backends, clock: Clock, url: string)
    ensures var c := b.(summarizerURL := url);
      var r, q := ResponseOf(stages, b, clock), ResponseOf(stages, c, clock);
      var events, others := Trace(id, filename, stages, b, clock), Trace(id, filename, stages, c, clock);
      && r.stages - {"summarize"} == q.stages - {"summarize"}
      && r.transcript == q.transcript && r.segments == q.segments
      && Of(events, "stt") == Of(others, "stt") && Of(events, "diarize") == Of(others, "diarize")
  {
    var c := b.(summarizerURL := url);
    OfTrace(id, filename, stages, b, clock);
    OfTrace(id, filename, stages, c, clock);
    assert SttTrace(id, stages, b, clock) == SttTrace(id, stages, c, clock);
    assert DiarizeTrace(id, stages, b, clock) == DiarizeTrace(id, stages, c, clock);
    WithoutSummary(stages, b, clock);
    WithoutSummary(stages, c, clock);
  }

  lemma WithoutSummary(stages: seq<string>, b: Backends, clock: Clock)
    ensures ResponseOf(stages, b, clock).stages - {"summarize"} ==
            Put(Put(map[], "stt", SttRuns(stages), b.stt, clock.stt),
                "diarize", DiarizeRuns(stages, b), b.diarize, clock.diarize)
  {
    Distinct();
  }

  /** And likewise for the diarizer's. */
  lemma DiarizerURLOnly(id: string, filename: string, stages: seq<string>, b: Backends, clock: Clock, url: string)
    ensures var c := b.(diarizerURL := url);
      var r, q := ResponseOf(stages, b, clock), ResponseOf(stages, c, clock);
      var events, others := Trace(id, filename, stages, b, clock), Trace(id, filename, stages, c, clock);
      && r.stages - {"diarize"} == q.stages - {"diarize"}
      && r.transcript == q.transcript && r.summary == q.summary
      && Of(events, "stt") == Of(others, "stt") && Of(events, "summarize") == Of(others, "summarize")
  {
    var c := b.(diarizerURL := url);
    OfTrace(id, filename, stages, b, clock);
    OfTrace(id, filename, stages, c, clock);
    assert SttTrace(id, stages, b, clock) == SttTrace(id, stages, c, clock);
    assert SummarizeTrace(id, stages, b, clock) == SummarizeTrace(id, stages, c, clock);
    WithoutSegments(stages, b, clock);
    WithoutSegments(stages, c, clock);
  }

  lemma WithoutSegments(stages: seq<string>, b: Backends, clock: Clock)
    ensures ResponseOf(stages, b, clock).stages - {"diarize"} ==
            Put(Put(map[], "stt", SttRuns(stages), b.stt, clock.stt),
                "summarize", SummarizeRuns(stages, b), b.summarize, clock.summarize)
  {
    Distinct();
  }

  lemma Distinct()
    ensures "stt" != "diarize" && "stt" != "summarize" && "diarize" != "summarize"
  {
    assert "stt"[1] == 't' && "diarize"[1] == 'i' && "summarize"[1] == 'u';
  }
}
