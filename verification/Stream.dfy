/** The read loop and the flush loop of internal/gateway/stream.go over one audio buffer. Every locked method, and the
    unlocked read of totalBytes, is one step; the loops interleave in any order. */
module Stream {
  import opened Api
  import opened Wav
  import opened AudioBuffer

  datatype Config = Config(delay: Time, max: Time, rate: nat)

  const DEFAULT_CONFIG := Config(2.0, 30.0, 16000)

  /** What the VAD said of a frame; when the call fails the frame counts as speech. */
  datatype Verdict = Speech | Silence | VadDown

  datatype Heard = Heard(frame: Frame, verdict: Verdict)

  datatype Fate = Fate(heard: Heard, kept: bool)

  datatype Reader =
    | Waiting
    | Marking(heard: Heard)
    | AddingSpeech(heard: Heard)
    | Checking(heard: Heard)
    | AddingSilence(heard: Heard)
    | Silencing
    | Closing
    | Closed

  /** A check of the flush loop that said yes: when it was, what was buffered, and when speech had last been marked. */
  datatype Check = Check(at: Time, bytes: nat, marked: Option<Time>)

  datatype Flusher = Ticking | Draining(why: Check) | Stopped

  /** A file, and the check that led to it if the flush loop drained it. */
  datatype Emitted = Emitted(wav: seq<byte>, why: Option<Check>)

  /** The buffer, the two program counters, and what has happened: frames received, the fate of each, the WAV files
      drained, the verdicts of the buffered frames, the bytes added since the last check that said no, whether a drain
      has come between a decision to add a frame and the add, and when speech was last marked. */
  datatype State = State(
    buf: Buffer,
    reader: Reader,
    flusher: Flusher,
    received: seq<Heard>,
    fates: seq<Fate>,
    emitted: seq<Emitted>,
    verdicts: seq<Verdict>,
    sinceCheck: nat,
    torn: bool,
    lastMark: Option<Time>)

  const START := State(EMPTY, Waiting, Ticking, [], [], [], [], 0, false, None)

  datatype Step =
    | Receive(heard: Heard)
    | Hangup
    | Read(now: Time)
    | Tick(now: Time)
    | Drain
    | Stop

  predicate CanStep(s: State, step: Step) {
    match step
    case Receive(_) => s.reader.Waiting?
    case Hangup => s.reader.Waiting?
    case Read(_) => !s.reader.Waiting? && !s.reader.Closed?
    case Tick(_) => s.flusher.Ticking?
    case Drain => s.flusher.Draining?
    case Stop => s.flusher.Ticking?
  }

  function Add(s: State, h: Heard): State {
    s.(buf := Added(s.buf, h.frame), fates := s.fates + [Fate(h, true)], verdicts := s.verdicts + [h.verdict],
       sinceCheck := s.sinceCheck + |h.frame|)
  }

  predicate MidFrame(s: State) {
    s.reader.AddingSpeech? || s.reader.AddingSilence?
  }

  function Flush(c: Config, s: State, why: Option<Check>): State {
    if s.buf.frames == [] then s
    else s.(buf := Flushed(s.buf), verdicts := [],
            emitted := s.emitted + [Emitted(WavBytes(s.buf.frames, c.rate), why)],
            torn := s.torn || MidFrame(s))
  }

  function Apply(c: Config, s: State, step: Step): State
    requires c.rate > 0 && CanStep(s, step)
  {
    match step
    case Receive(h) =>
      s.(received := s.received + [h], reader := if h.verdict.Silence? then Checking(h) else Marking(h))
    case Hangup => s.(reader := Closing)
    case Read(now) =>
      (match s.reader
       case Marking(h) => s.(buf := SpeechMarked(s.buf, now), reader := AddingSpeech(h), lastMark := Some(now))
       case AddingSpeech(h) => Add(s, h).(reader := Waiting)
       case Checking(h) =>
         if s.buf.totalBytes > 0 then s.(reader := AddingSilence(h))
         else s.(fates := s.fates + [Fate(h, false)], reader := Silencing)
       case AddingSilence(h) => Add(s, h).(reader := Silencing)
       case Silencing => s.(buf := SilenceMarked(s.buf), reader := Waiting)
       case Closing => Flush(c, s, None).(reader := Closed))
    case Tick(now) =>
      if ShouldFlush(s.buf, c.delay, c.max, c.rate, now) then
        s.(flusher := Draining(Check(now, s.buf.totalBytes, s.lastMark)))
      else s.(sinceCheck := 0)
    case Drain => Flush(c, s, Some(s.flusher.why)).(flusher := Ticking, sinceCheck := 0)
    case Stop => s.(flusher := Stopped)
  }

  function After(c: Config, s: State, step: Step): State
    requires c.rate > 0
  {
    if CanStep(s, step) then Apply(c, s, step) else s
  }

  function Execute(c: Config, s: State, steps: seq<Step>): State
    requires c.rate > 0
  {
    if steps == [] then s else After(c, Execute(c, s, steps[..|steps| - 1]), steps[|steps| - 1])
  }

  // ----- Conservation

  function KeptFrames(fates: seq<Fate>): seq<Frame> {
    if fates == [] then []
    else
      var last := fates[|fates| - 1];
      KeptFrames(fates[..|fates| - 1]) + if last.kept then [last.heard.frame] else []
  }

  /** The PCM of a file: what follows its 44-byte header. */
  function Payload(e: Emitted): seq<byte> {
    if |e.wav| >= 44 then e.wav[44..] else []
  }

  function Payloads(es: seq<Emitted>): seq<byte> {
    if es == [] then [] else Payloads(es[..|es| - 1]) + Payload(es[|es| - 1])
  }

  predicate Conserved(s: State) {
    && Counted(s.buf)
    && Payloads(s.emitted) + Flatten(s.buf.frames) == Flatten(KeptFrames(s.fates))
    && (s.reader.Closed? ==> s.buf.frames == [])
  }

  lemma FateStep(fates: seq<Fate>, f: Fate)
    ensures Flatten(KeptFrames(fates + [f])) == Flatten(KeptFrames(fates)) + if f.kept then f.heard.frame else []
  {
    assert (fates + [f])[..|fates|] == fates;
    var kept := KeptFrames(fates);
    if f.kept {
      assert (kept + [f.heard.frame])[..|kept|] == kept;
    } else {
      assert kept + [] == kept && Flatten(kept) + [] == Flatten(kept);
    }
  }

  lemma AddConserves(s: State, h: Heard)
    requires Conserved(s) && !s.reader.Closed?
    ensures Conserved(Add(s, h))
  {
    FateStep(s.fates, Fate(h, true));
    CountedStays(s.buf, h.frame);
    Regroup(Payloads(s.emitted), Flatten(s.buf.frames), h.frame);
  }

  lemma FlushConserves(c: Config, s: State, why: Option<Check>)
    requires Conserved(s)
    ensures Conserved(Flush(c, s, why)) && Flush(c, s, why).buf.frames == []
  {
    if s.buf.frames != [] {
      var e := Emitted(WavBytes(s.buf.frames, c.rate), why);
      PayloadIsAudio(s.buf.frames, c.rate, e);
      assert (s.emitted + [e])[..|s.emitted|] == s.emitted;
      assert Flatten(Flushed(s.buf).frames) == [];
    }
  }

  lemma PayloadIsAudio(frames: seq<Frame>, rate: nat, e: Emitted)
    requires e.wav == WavBytes(frames, rate)
    ensures Payload(e) == Flatten(frames)
  {
    HeaderAndRest(Header(|Flatten(frames)|, rate), Flatten(frames));
  }

  lemma HeaderAndRest(h: seq<byte>, rest: seq<byte>)
    requires |h| == 44
    ensures |h + rest| >= 44 && (h + rest)[44..] == rest
  {
  }

  /** Only the buffer, the files, the fates and being closed matter. */
  lemma SameAudio(s: State, t: State)
    requires Conserved(s) && t.buf.frames == s.buf.frames && t.buf.totalBytes == s.buf.totalBytes
    requires t.emitted == s.emitted && t.fates == s.fates
    requires t.reader.Closed? ==> s.buf.frames == []
    ensures Conserved(t)
  {
  }

  lemma DropConserves(s: State, h: Heard)
    requires Conserved(s)
    ensures Conserved(s.(fates := s.fates + [Fate(h, false)], reader := Silencing))
  {
    FateStep(s.fates, Fate(h, false));
  }

  lemma DrainConserves(c: Config, s: State)
    requires c.rate > 0 && Conserved(s) && CanStep(s, Drain)
    ensures Conserved(Apply(c, s, Drain))
  {
    FlushConserves(c, s, Some(s.flusher.why));
    SameAudio(Flush(c, s, Some(s.flusher.why)), Apply(c, s, Drain));
  }

  lemma AddingConserves(c: Config, s: State, now: Time)
    requires c.rate > 0 && Conserved(s) && MidFrame(s)
    ensures Conserved(Apply(c, s, Read(now)))
  {
    AddConserves(s, s.reader.heard);
    SameAudio(Add(s, s.reader.heard), Apply(c, s, Read(now)));
  }

  lemma ClosingConserves(c: Config, s: State, now: Time)
    requires c.rate > 0 && Conserved(s) && s.reader.Closing?
    ensures Conserved(Apply(c, s, Read(now)))
  {
    FlushConserves(c, s, None);
    SameAudio(Flush(c, s, None), Apply(c, s, Read(now)));
  }

  predicate LeavesAudio(s: State, step: Step) {
    step.Receive? || step.Hangup? || step.Tick? || step.Stop? ||
    (step.Read? && (s.reader.Marking? || s.reader.Silencing? || (s.reader.Checking? && s.buf.totalBytes > 0)))
  }

  lemma OtherConserves(c: Config, s: State, step: Step)
    requires c.rate > 0 && Conserved(s) && CanStep(s, step) && LeavesAudio(s, step)
    ensures Conserved(Apply(c, s, step))
  {
    SameAudio(s, Apply(c, s, step));
  }

  lemma StepConserves(c: Config, s: State, step: Step)
    requires c.rate > 0 && Conserved(s) && CanStep(s, step)
    ensures Conserved(Apply(c, s, step))
  {
    if step.Drain? {
      DrainConserves(c, s);
    } else if LeavesAudio(s, step) {
      OtherConserves(c, s, step);
    } else if MidFrame(s) {
      AddingConserves(c, s, step.now);
    } else if s.reader.Closing? {
      ClosingConserves(c, s, step.now);
    } else {
      DropConserves(s, s.reader.heard);
    }
  }

  lemma {:induction false} RunConserves(c: Config, steps: seq<Step>)
    requires c.rate > 0
    ensures Conserved(Execute(c, START, steps))
  {
    if steps != [] {
      RunConserves(c, steps[..|steps| - 1]);
      var s := Execute(c, START, steps[..|steps| - 1]);
      if CanStep(s, steps[|steps| - 1]) {
        StepConserves(c, s, steps[|steps| - 1]);
      }
    }
  }

  /** Under every interleaving the drained payloads, in drain order, followed by what is buffered, are the frames ever
      added; and once the read loop has closed, what was emitted is what was added, for good. */
  lemma {:induction false} AudioIsConserved(c: Config, steps: seq<Step>)
    requires c.rate > 0
    ensures var s := Execute(c, START, steps);
      && Payloads(s.emitted) + Flatten(s.buf.frames) == Flatten(KeptFrames(s.fates))
      && (s.reader.Closed? ==> s.buf.frames == [] && Payloads(s.emitted) == Flatten(KeptFrames(s.fates)))
  {
    RunConserves(c, steps);
  }

  // ----- Which frames are added

  function HeardBefore(fates: seq<Fate>): seq<Heard> {
    seq(|fates|, i requires 0 <= i < |fates| => fates[i].heard)
  }

  /** The frame that the read loop has received and not yet decided on or added. */
  function InHand(reader: Reader): seq<Heard> {
    match reader
    case Marking(h) => [h]
    case AddingSpeech(h) => [h]
    case Checking(h) => [h]
    case AddingSilence(h) => [h]
    case _ => []
  }

  predicate Fair(s: State) {
    && HeardBefore(s.fates) + InHand(s.reader) == s.received
    && (forall i :: 0 <= i < |s.fates| && !s.fates[i].kept ==> s.fates[i].heard.verdict.Silence?)
    && (s.reader.Checking? || s.reader.AddingSilence? ==> s.reader.heard.verdict.Silence?)
    && (s.reader.Marking? || s.reader.AddingSpeech? ==> !s.reader.heard.verdict.Silence?)
  }

  lemma {:induction false} RunIsFair(c: Config, steps: seq<Step>)
    requires c.rate > 0
    ensures Fair(Execute(c, START, steps))
  {
    if steps != [] {
      RunIsFair(c, steps[..|steps| - 1]);
      var s, step := Execute(c, START, steps[..|steps| - 1]), steps[|steps| - 1];
      if CanStep(s, step) {
        var t := Apply(c, s, step);
        if step.Read? && |t.fates| > |s.fates| {
          assert HeardBefore(t.fates) == HeardBefore(s.fates) + InHand(s.reader);
        } else {
          assert t.fates == s.fates;
        }
      }
    }
  }

  /** Every received frame meets its fate in order, and only frames that the VAD called silent are ever dropped: no
      speech frame, and no frame whose VAD call failed. */
  lemma SpeechIsNeverDropped(c: Config, steps: seq<Step>, i: nat)
    requires c.rate > 0 && i < |Execute(c, START, steps).fates|
    ensures var s := Execute(c, START, steps);
      && i < |s.received| <= |s.fates| + 1
      && s.fates[i].heard == s.received[i]
      && (s.received[i].verdict.Speech? || s.received[i].verdict.VadDown? ==> s.fates[i].kept)
  {
    RunIsFair(c, steps);
    var s := Execute(c, START, steps);
    assert s.received[i] == HeardBefore(s.fates)[i];
  }

  // ----- The flush policy over time

  function Limit(c: Config): real {
    if c.max > 1.0 then c.max else 1.0
  }

  predicate Paced(c: Config, s: State)
    requires c.rate > 0
  {
    && Counted(s.buf)
    && (s.reader.Closed? ==> s.buf.frames == [])
    && (s.flusher.Draining? ==> Seconds(s.buf.totalBytes, c.rate) >= 1.0 || s.reader.Closed?)
    && (forall i :: 0 <= i < |s.emitted| && s.emitted[i].why.Some? ==> Seconds(|Payload(s.emitted[i])|, c.rate) >= 1.0)
    && Seconds(s.buf.totalBytes, c.rate) < Limit(c) + Seconds(s.sinceCheck, c.rate)
  }

  lemma SecondsAdd(m: nat, n: nat, rate: nat)
    requires rate > 0
    ensures Seconds(m + n, rate) == Seconds(m, rate) + Seconds(n, rate)
    ensures Seconds(n, rate) >= 0.0 && Seconds(0, rate) == 0.0
  {
    var x, y, r := m as real / 2.0, n as real / 2.0, rate as real;
    assert (x / r + y / r) * r == x + y;
  }

  lemma AddIsPaced(c: Config, s: State, h: Heard, t: State)
    requires c.rate > 0 && Paced(c, s) && !s.reader.Closed? && !t.reader.Closed?
    requires t == Add(s, h).(reader := t.reader)
    ensures Paced(c, t)
  {
    CountedStays(s.buf, h.frame);
    SecondsAdd(s.buf.totalBytes, |h.frame|, c.rate);
    SecondsAdd(s.sinceCheck, |h.frame|, c.rate);
  }

  lemma FlushIsPaced(c: Config, s: State, why: Option<Check>, t: State)
    requires c.rate > 0 && Paced(c, s) && (why.Some? ==> s.flusher.Draining? && why.value == s.flusher.why)
    requires t == if why.Some? then Flush(c, s, Some(s.flusher.why)).(flusher := Ticking, sinceCheck := 0)
                  else Flush(c, s, None).(reader := Closed)
    ensures Paced(c, t)
  {
    SecondsAdd(0, s.sinceCheck, c.rate);
    if s.buf.frames != [] {
      PayloadIsAudio(s.buf.frames, c.rate, Emitted(WavBytes(s.buf.frames, c.rate), why));
    }
  }

  lemma StepIsPaced(c: Config, s: State, step: Step)
    requires c.rate > 0 && Paced(c, s) && CanStep(s, step)
    ensures Paced(c, Apply(c, s, step))
  {
    var t := Apply(c, s, step);
    SecondsAdd(0, 0, c.rate);
    if step.Drain? {
      FlushIsPaced(c, s, Some(s.flusher.why), t);
    } else if step.Read? {
      match s.reader
      case AddingSpeech(h) => AddIsPaced(c, s, h, t);
      case AddingSilence(h) => AddIsPaced(c, s, h, t);
      case Closing => FlushIsPaced(c, s, None, t);
      case _ =>
    }
  }

  lemma {:induction false} RunIsPaced(c: Config, steps: seq<Step>)
    requires c.rate > 0
    ensures Paced(c, Execute(c, START, steps))
  {
    if steps == [] {
      SecondsAdd(0, 0, c.rate);
    } else {
      RunIsPaced(c, steps[..|steps| - 1]);
      var s := Execute(c, START, steps[..|steps| - 1]);
      if CanStep(s, steps[|steps| - 1]) {
        StepIsPaced(c, s, steps[|steps| - 1]);
      }
    }
  }

  /** At any time the buffer holds less than max(1 s, maxDuration) plus what was added since the last check that said no
      or the last drain by the flush loop; and although check and drain are separate steps, every file that the flush loop
      drains holds at least one second. */
  lemma BufferIsBounded(c: Config, steps: seq<Step>)
    requires c.rate > 0
    ensures var s := Execute(c, START, steps);
      && Seconds(|Flatten(s.buf.frames)|, c.rate) < Limit(c) + Seconds(s.sinceCheck, c.rate)
      && forall i :: 0 <= i < |s.emitted| && s.emitted[i].why.Some? ==>
           Seconds(|Payload(s.emitted[i])|, c.rate) >= 1.0
  {
    RunIsPaced(c, steps);
  }

  // ----- The pause before a file

  /** A check that says yes has waited: for the maximum, or for `delay` since speech was last marked. */
  predicate Waited(c: Config, w: Check)
    requires c.rate > 0
  {
    Seconds(w.bytes, c.rate) >= 1.0 &&
    (Seconds(w.bytes, c.rate) >= c.max || (w.marked.Some? && w.at >= w.marked.value + c.delay))
  }

  predicate Explained(c: Config, e: Emitted)
    requires c.rate > 0
  {
    e.why.Some? ==> Waited(c, e.why.value) && e.why.value.bytes <= |Payload(e)|
  }

  predicate Patient(c: Config, s: State)
    requires c.rate > 0
  {
    && Counted(s.buf) && (s.reader.Closed? ==> s.buf.frames == [])
    && (s.buf.lastSpeech.Some? ==> s.buf.lastSpeech == s.lastMark)
    && (s.flusher.Draining? ==>
          Waited(c, s.flusher.why) && (s.flusher.why.bytes <= s.buf.totalBytes || s.reader.Closed?))
    && forall i :: 0 <= i < |s.emitted| ==> Explained(c, s.emitted[i])
  }

  lemma AddIsPatient(c: Config, s: State, now: Time)
    requires c.rate > 0 && Patient(c, s) && MidFrame(s)
    ensures Patient(c, Apply(c, s, Read(now)))
  {
    CountedStays(s.buf, s.reader.heard.frame);
  }

  lemma FlushIsPatient(c: Config, s: State, why: Option<Check>, t: State)
    requires c.rate > 0 && Patient(c, s)
    requires why.Some? ==> s.flusher.Draining? && why.value == s.flusher.why
    requires t == if why.Some? then Flush(c, s, why).(flusher := Ticking, sinceCheck := 0)
                  else Flush(c, s, why).(reader := Closed)
    ensures Patient(c, t)
  {
    if s.buf.frames != [] {
      PayloadIsAudio(s.buf.frames, c.rate, Emitted(WavBytes(s.buf.frames, c.rate), why));
      assert Flatten(Flushed(s.buf).frames) == [];
    }
  }

  lemma ReadIsPatient(c: Config, s: State, now: Time)
    requires c.rate > 0 && Patient(c, s) && CanStep(s, Read(now))
    ensures Patient(c, Apply(c, s, Read(now)))
  {
    if s.reader.Closing? {
      FlushIsPatient(c, s, None, Apply(c, s, Read(now)));
    } else if MidFrame(s) {
      AddIsPatient(c, s, now);
    }
  }

  lemma TickIsPatient(c: Config, s: State, now: Time)
    requires c.rate > 0 && Patient(c, s) && CanStep(s, Tick(now))
    ensures Patient(c, Apply(c, s, Tick(now)))
  {
  }

  lemma StepIsPatient(c: Config, s: State, step: Step)
    requires c.rate > 0 && Patient(c, s) && CanStep(s, step)
    ensures Patient(c, Apply(c, s, step))
  {
    match step
    case Read(now) => ReadIsPatient(c, s, now);
    case Tick(now) => TickIsPatient(c, s, now);
    case Drain => FlushIsPatient(c, s, Some(s.flusher.why), Apply(c, s, step));
    case _ =>
  }

  lemma {:induction false} RunIsPatient(c: Config, steps: seq<Step>)
    requires c.rate > 0
    ensures Patient(c, Execute(c, START, steps))
  {
    if steps != [] {
      RunIsPatient(c, steps[..|steps| - 1]);
      var s := Execute(c, START, steps[..|steps| - 1]);
      if CanStep(s, steps[|steps| - 1]) {
        StepIsPatient(c, s, steps[|steps| - 1]);
      }
    }
  }

  lemma MoreSeconds(m: nat, n: nat, rate: nat)
    requires rate > 0 && m <= n
    ensures Seconds(m, rate) <= Seconds(n, rate)
  {
    SecondsAdd(m, n - m, rate);
  }

  /** Over all runs: every file below the maximum that the flush loop drains was decided at least `delay` after speech had
      last been marked. */
  lemma PausesAreWaited(c: Config, steps: seq<Step>, i: nat)
    requires c.rate > 0 && i < |Execute(c, START, steps).emitted|
    requires var e := Execute(c, START, steps).emitted[i]; e.why.Some? && Seconds(|Payload(e)|, c.rate) < c.max
    ensures var w := Execute(c, START, steps).emitted[i].why.value; w.marked.Some? && w.at >= w.marked.value + c.delay
  {
    RunIsPatient(c, steps);
    var e := Execute(c, START, steps).emitted[i];
    assert Explained(c, e);
    MoreSeconds(e.why.value.bytes, |Payload(e)|, c.rate);
  }

  // ----- Speech leads

  /** A non-empty buffer starts with a speech frame and knows when speech was last heard. */
  predicate SpeechLed(s: State) {
    s.buf.frames != [] ==> |s.verdicts| > 0 && !s.verdicts[0].Silence? && s.buf.lastSpeech.Some?
  }

  predicate Led(s: State) {
    && |s.verdicts| == |s.buf.frames| && Counted(s.buf)
    && (s.reader.Marking? || s.reader.AddingSpeech? ==> !s.reader.heard.verdict.Silence?)
    && (s.reader.Checking? || s.reader.AddingSilence? ==> s.reader.heard.verdict.Silence?)
    && (!s.torn ==>
        && SpeechLed(s)
        && (s.reader.AddingSpeech? ==> s.buf.lastSpeech.Some?)
        && (s.reader.AddingSilence? ==> s.buf.frames != []))
  }

  lemma ReadIsLed(c: Config, s: State, now: Time)
    requires c.rate > 0 && Led(s) && CanStep(s, Read(now))
    ensures Led(Apply(c, s, Read(now)))
  {
    if MidFrame(s) {
      CountedStays(s.buf, s.reader.heard.frame);
    }
  }

  lemma StepIsLed(c: Config, s: State, step: Step)
    requires c.rate > 0 && Led(s) && CanStep(s, step)
    ensures Led(Apply(c, s, step))
  {
    if step.Read? {
      ReadIsLed(c, s, step.now);
    }
  }

  lemma {:induction false} RunIsLed(c: Config, steps: seq<Step>)
    requires c.rate > 0
    ensures Led(Execute(c, START, steps))
  {
    if steps != [] {
      RunIsLed(c, steps[..|steps| - 1]);
      var s := Execute(c, START, steps[..|steps| - 1]);
      if CanStep(s, steps[|steps| - 1]) {
        StepIsLed(c, s, steps[|steps| - 1]);
      }
    }
  }

  /** Speech leads the buffer in every state of every run in which no drain has split a frame's mark or check from its
      add. */
  lemma SpeechLeadsUnlessTorn(c: Config, steps: seq<Step>)
    requires c.rate > 0 && !Execute(c, START, steps).torn
    ensures SpeechLed(Execute(c, START, steps))
  {
    RunIsLed(c, steps);
  }

  /** What a draining flush loop finds is at least a second of audio. */
  lemma DrainingHasAudio(c: Config, s: State)
    requires c.rate > 0 && Paced(c, s) && s.flusher.Draining? && !s.reader.Closed?
    ensures s.buf.frames != []
  {
    SecondsAdd(0, 0, c.rate);
  }

  /** And a drain at that point always breaks it: it empties the buffer, and the add that follows leaves one that does not
      start with speech or has forgotten when speech was heard. */
  lemma {:induction false} TearBreaksTheLead(c: Config, steps: seq<Step>, now: Time)
    requires c.rate > 0
    requires var s := Execute(c, START, steps); MidFrame(s) && s.flusher.Draining?
    ensures var s := Execute(c, START, steps); var t := After(c, After(c, s, Drain), Read(now));
      s.buf.frames != [] && |t.buf.frames| == 1 && t.torn && !SpeechLed(t)
  {
    RunIsPaced(c, steps);
    DrainingHasAudio(c, Execute(c, START, steps));
    RunIsLed(c, steps);
  }

  lemma ExecuteSnoc(c: Config, steps: seq<Step>, step: Step)
    requires c.rate > 0
    ensures Execute(c, START, steps + [step]) == After(c, Execute(c, START, steps), step)
  {
    assert (steps + [step])[..|steps|] == steps;
  }

  /** A second of speech and a silent frame have been added, with the pause long enough. */
  function Paused(speech: Heard, pause: Heard): State {
    START.(buf := Buffer([speech.frame, pause.frame], |speech.frame| + |pause.frame|, Some(0.0), Some(0.0), false),
           received := [speech, pause], fates := [Fate(speech, true), Fate(pause, true)],
           verdicts := [Speech, Silence], sinceCheck := |speech.frame| + |pause.frame|, lastMark := Some(0.0))
  }

  function Spoken(speech: Heard): State {
    START.(buf := Buffer([speech.frame], |speech.frame|, Some(0.0), Some(0.0), true),
           received := [speech], fates := [Fate(speech, true)], verdicts := [Speech], sinceCheck := |speech.frame|,
           lastMark := Some(0.0))
  }

  lemma SpeechArrives(c: Config, speech: Heard)
    requires c.rate > 0 && speech.verdict == Speech
    ensures After(c, After(c, After(c, START, Receive(speech)), Read(0.0)), Read(0.0)) == Spoken(speech)
  {
    var s1 := START.(received := [speech], reader := Marking(speech));
    var s2 := s1.(buf := SpeechMarked(EMPTY, 0.0), reader := AddingSpeech(speech), lastMark := Some(0.0));
    assert After(c, START, Receive(speech)) == s1;
    assert After(c, s1, Read(0.0)) == s2;
    assert Add(s2, speech).(reader := Waiting) == Spoken(speech);
  }

  lemma PauseArrives(c: Config, speech: Heard, pause: Heard)
    requires c.rate > 0 && pause.verdict == Silence && |speech.frame| > 0
    ensures After(c, After(c, After(c, After(c, Spoken(speech), Receive(pause)), Read(0.0)), Read(0.0)), Read(0.0))
            == Paused(speech, pause)
  {
    var s := Spoken(speech);
    var s1 := s.(received := [speech, pause], reader := Checking(pause));
    assert After(c, s, Receive(pause)) == s1;
    assert After(c, s1, Read(0.0)) == s1.(reader := AddingSilence(pause));
    var s3 := Add(s1, pause).(reader := Silencing);
    assert After(c, s1.(reader := AddingSilence(pause)), Read(0.0)) == s3;
    assert SilenceMarked(s3.buf) == Paused(speech, pause).buf;
  }

  lemma PauseHappens(speech: Heard, pause: Heard) returns (steps: seq<Step>)
    requires speech.verdict == Speech && pause.verdict == Silence && |speech.frame| == 32000
    ensures Execute(DEFAULT_CONFIG, START, steps) == Paused(speech, pause)
  {
    var c := DEFAULT_CONFIG;
    SpeechArrives(c, speech);
    PauseArrives(c, speech, pause);
    steps := [] + [Receive(speech)];
    ExecuteSnoc(c, [], Receive(speech));
    ExecuteSnoc(c, steps, Read(0.0));
    ExecuteSnoc(c, steps + [Read(0.0)], Read(0.0));
    steps := steps + [Read(0.0)] + [Read(0.0)];
    ExecuteSnoc(c, steps, Receive(pause));
    steps := steps + [Receive(pause)];
    ExecuteSnoc(c, steps, Read(0.0));
    ExecuteSnoc(c, steps + [Read(0.0)], Read(0.0));
    ExecuteSnoc(c, steps + [Read(0.0)] + [Read(0.0)], Read(0.0));
    steps := steps + [Read(0.0)] + [Read(0.0)] + [Read(0.0)];
  }

  /** The exception is real, with the default configuration: the flush loop has decided, the read loop checks totalBytes for
      the next silent frame, the drain comes, and then the frame is added to the empty buffer. */
  lemma TearHappens(speech: Heard, pause: Heard, late: Heard) returns (steps: seq<Step>)
    requires speech.verdict == Speech && pause.verdict == late.verdict == Silence && |speech.frame| == 32000
    ensures var s := Execute(DEFAULT_CONFIG, START, steps);
      !s.torn && MidFrame(s) && s.flusher.Draining? && s.buf.frames != []
    ensures !SpeechLed(Execute(DEFAULT_CONFIG, START, steps + [Drain] + [Read(2.0)]))
  {
    var c, p := DEFAULT_CONFIG, Paused(speech, pause);
    steps := PauseHappens(speech, pause);
    SecondsAdd(32000, |pause.frame|, 16000);
    assert ShouldFlush(p.buf, c.delay, c.max, c.rate, 2.0);
    ExecuteSnoc(c, steps, Tick(2.0));
    steps := steps + [Tick(2.0)];
    ExecuteSnoc(c, steps, Receive(late));
    steps := steps + [Receive(late)];
    ExecuteSnoc(c, steps, Read(2.0));
    steps := steps + [Read(2.0)];
    TearBreaksTheLead(c, steps, 2.0);
    ExecuteSnoc(c, steps, Drain);
    ExecuteSnoc(c, steps + [Drain], Read(2.0));
  }

  /** Below the maximum and outside speech, a buffer of a second or more can be flushed at some later time exactly when it
      knows when speech was last heard; a torn one waits for more audio. */
  lemma SilenceFlushNeedsSpeech(b: Buffer, c: Config)
    requires c.rate > 0 && 1.0 <= Seconds(b.totalBytes, c.rate) < c.max && !b.isSpeaking
    ensures (exists now :: ShouldFlush(b, c.delay, c.max, c.rate, now)) <==> b.lastSpeech.Some?
  {
    if b.lastSpeech.Some? {
      assert ShouldFlush(b, c.delay, c.max, c.rate, b.lastSpeech.value + c.delay);
    }
  }

  // ----- The two loops, undisturbed

  function FrameEffect(b: Buffer, h: Heard, now: Time): Buffer {
    if !h.verdict.Silence? then Added(SpeechMarked(b, now), h.frame)
    else if b.totalBytes > 0 then SilenceMarked(Added(b, h.frame))
    else SilenceMarked(b)
  }

  /** The body of the read loop for a binary message. */
  method OnFrame(buffer: AudioBuffer, h: Heard, now: Time)
    requires buffer.Valid()
    modifies buffer
    ensures buffer.Valid() && buffer.Value() == FrameEffect(old(buffer.Value()), h, now)
  {
    var isSpeech := h.verdict.Speech?;
    if h.verdict.VadDown? {
      isSpeech := true;
    }
    if isSpeech {
      buffer.MarkSpeech(now);
      buffer.AddFrame(h.frame);
    } else {
      if buffer.totalBytes > 0 {
        buffer.AddFrame(h.frame);
      }
      buffer.MarkSilence();
    }
  }

  /** One tick of the flush loop. */
  method OnTick(buffer: AudioBuffer, c: Config, now: Time) returns (wav: Option<array<byte>>)
    requires buffer.Valid() && c.rate > 0
    modifies buffer
    ensures buffer.Valid()
    ensures var b := old(buffer.Value());
      if ShouldFlush(b, c.delay, c.max, c.rate, now)
      then buffer.Value() == Flushed(b) && wav.Some? && wav.value[..] == WavBytes(b.frames, c.rate)
      else buffer.Value() == b && wav.None?
  {
    var flush := buffer.ShouldFlushNow(c.delay, c.max, c.rate, now);
    if flush {
      wav := buffer.Flush(c.rate);
    } else {
      wav := None;
    }
  }

  /** The read loop's steps for one frame, with nothing in between, do what its body does. */
  lemma FrameSteps(c: Config, s: State, h: Heard, now: Time)
    requires c.rate > 0 && s.reader.Waiting?
    ensures var t := After(c, After(c, After(c, After(c, s, Receive(h)), Read(now)), Read(now)), Read(now));
      t.reader.Waiting? && t.buf == FrameEffect(s.buf, h, now)
  {
    var t1 := After(c, s, Receive(h));
    var t2 := After(c, t1, Read(now));
    var t3 := After(c, t2, Read(now));
    if !h.verdict.Silence? {
      assert t2.reader == AddingSpeech(h) && t3.reader.Waiting?;
    } else if s.buf.totalBytes > 0 {
      assert t2.reader == AddingSilence(h) && t3.reader.Silencing?;
    } else {
      assert t2.reader.Silencing? && t3.reader.Waiting?;
    }
  }

  /** And so do the flush loop's steps for one tick. */
  lemma TickSteps(c: Config, s: State, now: Time)
    requires c.rate > 0 && s.flusher.Ticking? && Counted(s.buf)
    ensures var t, flush := After(c, After(c, s, Tick(now)), Drain), ShouldFlush(s.buf, c.delay, c.max, c.rate, now);
      && t.flusher.Ticking? && t.reader == s.reader
      && t.buf == (if flush then Flushed(s.buf) else s.buf)
      && t.emitted == s.emitted + (if flush then [Emitted(WavBytes(s.buf.frames, c.rate), Some(Check(now, s.buf.totalBytes, s.lastMark)))]
                                     else [])
  {
    if ShouldFlush(s.buf, c.delay, c.max, c.rate, now) {
      SecondsAdd(0, 0, c.rate);
      assert s.buf.frames != [];
    }
  }
}
