/** internal/gateway/eventlog.go: the local file logger, and the object naming of the GCS logger. A file is the list of the
    events on its lines. */
module EventLog {
  import opened Api
  import opened FilePath
  import opened PipelineRun

  type Files = map<string, seq<Event>>

  function Content(files: Files, path: string): seq<Event> {
    if path in files then files[path] else []
  }

  function Appended(files: Files, path: string, e: Event): Files {
    files[path := Content(files, path) + [e]]
  }

  // ----- The logger

  class Disk {
    var files: Files

    constructor ()
      ensures files == map[]
    {
      files := map[];
    }
  }

  /** `fds` maps request IDs to the files that are open for appending. */
  class LocalFileLogger {
    const dir: string
    const disk: Disk
    var fds: Option<map<string, string>>

    predicate Valid()
      reads this
    {
      fds.Some? ==> forall id :: id in fds.value ==> fds.value[id] == Resolve(dir, id)
    }

    function Open(): set<string>
      reads this
    {
      if fds.None? then {} else fds.value.Keys
    }

    constructor (dir: string, disk: Disk)
      ensures this.dir == dir && this.disk == disk && fds == None && Valid()
    {
      this.dir, this.disk, fds := dir, disk, None;
    }

    /** Log, under the mutex; `canOpen` and `canWrite` say whether opening the file and writing the line would succeed. */
    method Log(e: Event, canOpen: bool, canWrite: bool) returns (ok: bool)
      requires Valid()
      modifies this, disk
      ensures Valid()
      ensures var reached := e.requestID in old(Open()) || canOpen;
        && ok == (reached && canWrite)
        && Open() == (if reached then old(Open()) + {e.requestID} else old(Open()))
      ensures disk.files == if ok then Appended(old(disk.files), Resolve(dir, e.requestID), e) else old(disk.files)
    {
      if fds.None? {
        fds := Some(map[]);
      }
      if e.requestID !in fds.value {
        if !canOpen {
          return false;
        }
        fds := Some(fds.value[e.requestID := Resolve(dir, e.requestID)]);
      }
      var f := fds.value[e.requestID];
      if !canWrite {
        return false;
      }
      disk.files := Appended(disk.files, f, e);
      return true;
    }

    /** Close; closing the file of a request in `broken` fails, and the others are closed all the same. */
    method Close(broken: set<string>) returns (ok: bool)
      requires Valid()
      modifies this
      ensures Valid() && Open() == {}
      ensures ok <==> old(Open()) !! broken
    {
      ok := true;
      var ids := Open();
      while ids != {}
        invariant ids <= old(Open())
        invariant ok <==> (old(Open()) - ids) !! broken
        decreases |ids|
      {
        var id :| id in ids;
        if id in broken {
          ok := false;
        }
        ids := ids - {id};
      }
      fds := None;
    }
  }

  // ----- Any interleaving of calls

  /** An event, with the request that logs it; the event itself carries only the request's ID. */
  datatype Entry = Entry(request: nat, event: Event)

  datatype Call = Log(entry: Entry, canOpen: bool, canWrite: bool) | Close

  /** The logger, its files, and the entries that were accepted so far, over all requests. */
  datatype Logger = Logger(open: set<string>, files: Files, accepted: seq<Entry>)

  function FileOf(dir: string, x: Entry): string { Resolve(dir, x.event.requestID) }

  function Called(l: Logger, dir: string, call: Call): Logger {
    match call
    case Close => l.(open := {})
    case Log(x, canOpen, canWrite) =>
      var id := x.event.requestID;
      if id !in l.open && !canOpen then l
      else if !canWrite then l.(open := l.open + {id})
      else Logger(l.open + {id}, Appended(l.files, FileOf(dir, x), x.event), l.accepted + [x])
  }

  function CallAll(dir: string, calls: seq<Call>): Logger {
    if calls == [] then Logger({}, map[], [])
    else Called(CallAll(dir, calls[..|calls| - 1]), dir, calls[|calls| - 1])
  }

  /** The events of the entries with property p, in order. */
  function Select(entries: seq<Entry>, p: Entry -> bool): seq<Event> {
    if entries == [] then []
    else
      var n := |entries| - 1;
      Select(entries[..n], p) + if p(entries[n]) then [entries[n].event] else []
  }

  lemma SelectSnoc(entries: seq<Entry>, x: Entry, p: Entry -> bool)
    ensures Select(entries + [x], p) == Select(entries, p) + if p(x) then [x.event] else []
  {
    assert (entries + [x])[..|entries|] == entries;
  }

  function Entries(calls: seq<Call>): seq<Entry> {
    if calls == [] then []
    else
      var last := calls[|calls| - 1];
      Entries(calls[..|calls| - 1]) + if last.Log? then [last.entry] else []
  }

  /** Every file holds, in order, exactly the accepted events whose request ID resolves to it. */
  lemma {:induction false} FileIsSubsequence(dir: string, calls: seq<Call>, file: string)
    ensures var l := CallAll(dir, calls);
      Content(l.files, file) == Select(l.accepted, (x: Entry) => FileOf(dir, x) == file)
  {
    if calls != [] {
      FileIsSubsequence(dir, calls[..|calls| - 1], file);
      CalledIsSelected(CallAll(dir, calls[..|calls| - 1]), dir, calls[|calls| - 1], file);
    }
  }

  predicate IsSelected(l: Logger, dir: string, file: string) {
    Content(l.files, file) == Select(l.accepted, (x: Entry) => FileOf(dir, x) == file)
  }

  lemma CalledIsSelected(l: Logger, dir: string, call: Call, file: string)
    requires IsSelected(l, dir, file)
    ensures IsSelected(Called(l, dir, call), dir, file)
  {
    if call.Log? {
      SelectSnoc(l.accepted, call.entry, (x: Entry) => FileOf(dir, x) == file);
    }
  }

  lemma {:induction false} SelectWiden(entries: seq<Entry>, narrow: Entry -> bool, wide: Entry -> bool)
    requires forall x :: x in entries && narrow(x) ==> wide(x)
    ensures |Select(entries, narrow)| <= |Select(entries, wide)|
    ensures Select(entries, narrow) == Select(entries, wide) <==> forall x :: x in entries && wide(x) ==> narrow(x)
    ensures Select(entries, narrow) != Select(entries, wide) ==>
              |Select(entries, narrow)| < |Select(entries, wide)|
  {
    if entries != [] {
      var n := |entries| - 1;
      assert forall x :: x in entries <==> x in entries[..n] || x == entries[n];
      SelectWiden(entries[..n], narrow, wide);
    }
  }

  /** A request logs under one ID. */
  predicate LogsAs(entries: seq<Entry>, request: nat, id: string) {
    forall x :: x in entries && x.request == request ==> x.event.requestID == id
  }

  /** A request's file is exactly its own accepted events, in order, if and only if no accepted event of another request
      resolved to the same file. */
  lemma {:induction false} Demultiplexed(dir: string, calls: seq<Call>, request: nat, id: string)
    requires LogsAs(CallAll(dir, calls).accepted, request, id)
    ensures var l := CallAll(dir, calls);
      Content(l.files, Resolve(dir, id)) == Select(l.accepted, (x: Entry) => x.request == request)
      <==> forall x :: x in l.accepted && FileOf(dir, x) == Resolve(dir, id) ==> x.request == request
  {
    FileIsSubsequence(dir, calls, Resolve(dir, id));
    SelectWiden(CallAll(dir, calls).accepted,
                (x: Entry) => x.request == request, (x: Entry) => FileOf(dir, x) == Resolve(dir, id));
  }

  predicate NoSlashes(entries: seq<Entry>) {
    forall x :: x in entries ==> '/' !in x.event.requestID
  }

  /** With IDs that contain no slash that depends on the IDs alone: on whether another request uses the same one. */
  lemma {:induction false} PlainIDsDemultiplex(dir: string, calls: seq<Call>, request: nat, id: string)
    requires NoSlashes(CallAll(dir, calls).accepted) && '/' !in id
    requires LogsAs(CallAll(dir, calls).accepted, request, id)
    ensures var l := CallAll(dir, calls);
      Content(l.files, Resolve(dir, id)) == Select(l.accepted, (x: Entry) => x.request == request)
      <==> forall x :: x in l.accepted && x.event.requestID == id ==> x.request == request
  {
    Demultiplexed(dir, calls, request, id);
    var accepted := CallAll(dir, calls).accepted;
    forall x | x in accepted ensures FileOf(dir, x) == Resolve(dir, id) <==> x.event.requestID == id {
      PlainApart(dir, x.event.requestID, id);
    }
  }

  /** Two requests whose IDs resolve to one file mix their events in it. */
  lemma MixedFile(dir: string, e: Event, f: Event)
    requires Resolve(dir, e.requestID) == Resolve(dir, f.requestID)
    ensures var l := CallAll(dir, [Log(Entry(0, e), true, true), Log(Entry(1, f), true, true)]);
      Content(l.files, Resolve(dir, e.requestID)) == [e, f] && Select(l.accepted, (x: Entry) => x.request == 0) == [e]
  {
    var first := [Log(Entry(0, e), true, true)];
    var both := [Log(Entry(0, e), true, true), Log(Entry(1, f), true, true)];
    assert both[..1] == first && first[..0] == [];
    assert CallAll(dir, first[..0]) == Logger({}, map[], []);
    assert CallAll(dir, first).accepted == [] + [Entry(0, e)];
    assert CallAll(dir, both).accepted == [Entry(0, e)] + [Entry(1, f)];
    SelectSnoc([], Entry(0, e), (x: Entry) => x.request == 0);
    SelectSnoc([Entry(0, e)], Entry(1, f), (x: Entry) => x.request == 0);
  }

  /** Clients choose the IDs: "b" and "a/../b" share a file in any directory, and so does an ID that is sent twice. */
  lemma IDsCollide(dir: string, kind: Kind)
    ensures Resolve(dir, "a/../b") == Resolve(dir, "b")
    ensures var e, f := Event("b", kind, "", NoData), Event("a/../b", kind, "", NoData);
      && Content(CallAll(dir, [Log(Entry(0, e), true, true), Log(Entry(1, f), true, true)]).files, Resolve(dir, "b"))
         == [e, f]
      && Content(CallAll(dir, [Log(Entry(0, e), true, true), Log(Entry(1, e), true, true)]).files, Resolve(dir, "b"))
         == [e, e]
  {
    DetourResolves(dir, "a", "b");
    assert "a/../b" == "a" + ['/'] + (".." + ['/'] + "b");
    var e, f := Event("b", kind, "", NoData), Event("a/../b", kind, "", NoData);
    MixedFile(dir, e, f);
    MixedFile(dir, e, e);
  }

  predicate AllWork(calls: seq<Call>) {
    forall i :: 0 <= i < |calls| && calls[i].Log? ==> calls[i].canOpen && calls[i].canWrite
  }

  /** Nothing is lost while files can be opened and written, also after Close has dropped the handles. */
  lemma {:induction false} NothingLost(dir: string, calls: seq<Call>)
    requires AllWork(calls)
    ensures CallAll(dir, calls).accepted == Entries(calls)
  {
    if calls != [] {
      NothingLost(dir, calls[..|calls| - 1]);
    }
  }

  // ----- Replay from the file

  /** What a pipeline request is made of. */
  datatype Request = Request(id: string, filename: string, stages: seq<string>, backends: Backends, clock: Clock)

  function TraceOf(r: Request): seq<Event> {
    Trace(r.id, r.filename, r.stages, r.backends, r.clock)
  }

  /** The calls are the traces of the requests, interleaved in any way; Close may come at any point. */
  predicate Interleaves(calls: seq<Call>, requests: seq<Request>) {
    && (forall x :: x in Entries(calls) ==> x.request < |requests|)
    && (forall r :: 0 <= r < |requests| ==>
          Select(Entries(calls), (x: Entry) => x.request == r) == TraceOf(requests[r]))
  }

  predicate FilesApart(dir: string, requests: seq<Request>) {
    forall i, j :: 0 <= i < j < |requests| ==> Resolve(dir, requests[i].id) != Resolve(dir, requests[j].id)
  }

  lemma {:induction false} SelectedIsLogged(entries: seq<Entry>, x: Entry, p: Entry -> bool)
    requires x in entries && p(x)
    ensures x.event in Select(entries, p)
  {
    var n := |entries| - 1;
    if x == entries[n] {
      assert x.event == Select(entries, p)[|Select(entries, p)| - 1];
    } else {
      SelectedIsLogged(entries[..n], x, p);
    }
  }

  lemma RequestsLogAs(calls: seq<Call>, requests: seq<Request>, x: Entry)
    requires Interleaves(calls, requests) && x in Entries(calls)
    ensures x.request < |requests| && x.event.requestID == requests[x.request].id
  {
    var r := requests[x.request];
    SelectedIsLogged(Entries(calls), x, (y: Entry) => y.request == x.request);
    TraceReplays(r.id, r.filename, r.stages, r.backends, r.clock);
  }

  /** For every interleaving of the handlers of any number of requests with files of their own, the file of a request is its
      trace, and replaying it gives exactly the stages and success flags of its response. */
  lemma FilesReplay(dir: string, calls: seq<Call>, requests: seq<Request>, k: nat)
    requires Interleaves(calls, requests) && AllWork(calls) && FilesApart(dir, requests) && k < |requests|
    ensures var r := requests[k]; var file := Content(CallAll(dir, calls).files, Resolve(dir, r.id));
      file == TraceOf(r) && Replay(file) == Flags(ResponseOf(r.stages, r.backends, r.clock).stages)
  {
    var r := requests[k];
    NothingLost(dir, calls);
    forall x | x in Entries(calls)
      ensures x.request < |requests| && x.event.requestID == requests[x.request].id
    {
      RequestsLogAs(calls, requests, x);
    }
    Demultiplexed(dir, calls, k, r.id);
    TraceReplays(r.id, r.filename, r.stages, r.backends, r.clock);
  }

  /** Distinct IDs without slashes are enough for that. */
  lemma PlainFilesApart(dir: string, requests: seq<Request>)
    requires forall i :: 0 <= i < |requests| ==> '/' !in requests[i].id
    ensures FilesApart(dir, requests) <==> forall i, j :: 0 <= i < j < |requests| ==> requests[i].id != requests[j].id
  {
    forall i, j | 0 <= i < j < |requests|
      ensures Resolve(dir, requests[i].id) == Resolve(dir, requests[j].id) <==> requests[i].id == requests[j].id
    {
      PlainApart(dir, requests[i].id, requests[j].id);
    }
  }

  // ----- The GCS object names

  /** events/<date>/<request id>/<type>.jsonl: the stage is not part of the name. */
  datatype ObjectName = ObjectName(date: string, requestID: string, kind: Kind)

  datatype Dated = Dated(date: string, event: Event)

  function NameOf(d: Dated): ObjectName { ObjectName(d.date, d.event.requestID, d.event.kind) }

  /** The bucket after a sequence of uploads; an upload replaces the object of its name. */
  function Bucket(uploads: seq<Dated>): map<ObjectName, Event> {
    if uploads == [] then map[]
    else Bucket(uploads[..|uploads| - 1])[NameOf(uploads[|uploads| - 1]) := uploads[|uploads| - 1].event]
  }

  /** An event is still in the bucket unless another of the same day, request ID and type came later. */
  lemma {:induction false} BucketKeepsLast(uploads: seq<Dated>, i: nat)
    requires i < |uploads|
    requires forall j :: i < j < |uploads| ==>
      || uploads[j].date != uploads[i].date || uploads[j].event.requestID != uploads[i].event.requestID
      || uploads[j].event.kind != uploads[i].event.kind
    ensures var name := NameOf(uploads[i]); name in Bucket(uploads) && Bucket(uploads)[name] == uploads[i].event
  {
    var n := |uploads| - 1;
    if i < n {
      assert uploads[..n][i] == uploads[i];
      BucketKeepsLast(uploads[..n], i);
    }
  }

  function OnDay(date: string, events: seq<Event>): seq<Dated> {
    seq(|events|, i requires 0 <= i < |events| => Dated(date, events[i]))
  }

  /** On one day an event is kept when no later one is of its type. */
  lemma KeptOnDay(date: string, id: string, events: seq<Event>, i: nat)
    requires i < |events| && forall j :: 0 <= j < |events| ==> events[j].requestID == id
    requires forall j :: i < j < |events| ==> events[j].kind != events[i].kind
    ensures var bucket, name := Bucket(OnDay(date, events)), ObjectName(date, id, events[i].kind);
      name in bucket && bucket[name] == events[i]
  {
    var uploads := OnDay(date, events);
    assert uploads[i] == Dated(date, events[i]);
    BucketKeepsLast(uploads, i);
  }

  /** The request runs stt and a later stage. */
  predicate RunsTwo(stages: seq<string>, b: Backends) {
    SttRuns(stages) && (DiarizeRuns(stages, b) || SummarizeRuns(stages, b))
  }

  /** So the bucket cannot replay a request of two or more stages: when a later stage ran too, the start of stt is gone. */
  lemma BucketLosesStages(
    date: string, id: string, filename: string, stages: seq<string>, b: Backends, clock: Clock)
    requires RunsTwo(stages, b)
    ensures var events := Trace(id, filename, stages, b, clock); var lost := Event(id, StageStart, "stt", NoData);
      lost in events && forall name :: name in Bucket(OnDay(date, events)) ==> Bucket(OnDay(date, events))[name] != lost
  {
    Distinct();
    var events := Trace(id, filename, stages, b, clock);
    var lost := Event(id, StageStart, "stt", NoData);
    assert events[1] == lost;
    var i: nat := if SummarizeRuns(stages, b) && DiarizeRuns(stages, b) then 5 else 3;
    assert events[i].kind == StageStart && events[i].stage != "stt";
    assert forall j :: i < j < |events| ==> events[j].kind != StageStart;
    var uploads := OnDay(date, events);
    KeptOnDay(date, id, events, i);
    forall name | name in Bucket(uploads) ensures Bucket(uploads)[name] != lost {
      BucketNames(uploads, name);
    }
  }

  /** Every event can be found in the bucket. */
  predicate BucketHas(bucket: map<ObjectName, Event>, events: seq<Event>) {
    forall e :: e in events ==> exists name :: name in bucket && bucket[name] == e
  }

  /** Without two stages no two events are of the same kind. */
  lemma KindsDiffer(id: string, filename: string, stages: seq<string>, b: Backends, clock: Clock)
    requires !RunsTwo(stages, b)
    ensures var events := Trace(id, filename, stages, b, clock);
      forall i, j :: 0 <= i < j < |events| ==> events[i].kind != events[j].kind
  {
    // a summary needs a transcript
    assert SummarizeRuns(stages, b) ==> SttRuns(stages);
  }

  /** The bucket keeps the whole trace of a request on one day if and only if the request does not run stt and a later
      stage. */
  lemma BucketKeepsTrace(
    date: string, id: string, filename: string, stages: seq<string>, b: Backends, clock: Clock)
    ensures var events := Trace(id, filename, stages, b, clock);
      BucketHas(Bucket(OnDay(date, events)), events) <==>
      !RunsTwo(stages, b)
  {
    var events := Trace(id, filename, stages, b, clock);
    var uploads := OnDay(date, events);
    if RunsTwo(stages, b) {
      BucketLosesStages(date, id, filename, stages, b, clock);
      assert Event(id, StageStart, "stt", NoData) in events;
    } else {
      KindsDiffer(id, filename, stages, b, clock);
      forall e | e in events ensures exists name :: name in Bucket(uploads) && Bucket(uploads)[name] == e {
        var i :| 0 <= i < |events| && events[i] == e;
        KeptOnDay(date, id, events, i);
      }
    }
  }

  /** With all stages and working backends the start of stt is lost. */
  lemma AllStagesLoseEvents(date: string, id: string, clock: Clock)
    ensures var b := Backends("d", "s", Ok("text"), Ok([]), Ok("summary"));
      var events := Trace(id, "a.wav", ["stt", "diarize", "summarize"], b, clock);
      !BucketHas(Bucket(OnDay(date, events)), events)
  {
    var b := Backends("d", "s", Ok("text"), Ok([]), Ok("summary"));
    var stages := ["stt", "diarize", "summarize"];
    assert stages[0] == "stt" && stages[1] == "diarize";
    BucketKeepsTrace(date, id, "a.wav", stages, b, clock);
  }

  lemma {:induction false} BucketNames(uploads: seq<Dated>, name: ObjectName)
    requires name in Bucket(uploads)
    ensures exists d :: d in uploads && NameOf(d) == name && Bucket(uploads)[name] == d.event
  {
    var n := |uploads| - 1;
    if NameOf(uploads[n]) == name {
      assert uploads[n] in uploads;
    } else {
      BucketNames(uploads[..n], name);
    }
  }
}
