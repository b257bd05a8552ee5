/** class audioBuffer of internal/gateway/stream.go. Each method runs under the buffer's mutex. */
module AudioBuffer {
  import opened Api
  import opened Wav

  /** The fields of an audioBuffer; a zero time.Time is None. */
  datatype Buffer = Buffer(
    frames: seq<Frame>, totalBytes: nat, speechStart: Option<Time>, lastSpeech: Option<Time>, isSpeaking: bool)

  const EMPTY := Buffer([], 0, None, None, false)

  function Added(b: Buffer, frame: Frame): Buffer {
    b.(frames := b.frames + [frame], totalBytes := b.totalBytes + |frame|)
  }

  function SpeechMarked(b: Buffer, now: Time): Buffer {
    b.(speechStart := if b.isSpeaking then b.speechStart else Some(now), isSpeaking := true, lastSpeech := Some(now))
  }

  function SilenceMarked(b: Buffer): Buffer {
    b.(isSpeaking := false)
  }

  function Flushed(b: Buffer): Buffer {
    if b.frames == [] then b else b.(frames := [], totalBytes := 0, lastSpeech := None, isSpeaking := false)
  }

  /** The flush rule: at least one second is buffered, and the buffer is full or quiet for long enough. */
  predicate ShouldFlush(b: Buffer, delay: Time, max: Time, rate: nat, now: Time)
    requires rate > 0
  {
    && Seconds(b.totalBytes, rate) >= 1.0
    && (Seconds(b.totalBytes, rate) >= max || Quiet(b, delay, now))
  }

  predicate Quiet(b: Buffer, delay: Time, now: Time) {
    !b.isSpeaking && b.lastSpeech.Some? && now - b.lastSpeech.value >= delay
  }

  predicate Counted(b: Buffer) {
    b.totalBytes == |Flatten(b.frames)|
  }

  lemma CountedStays(b: Buffer, frame: Frame)
    requires Counted(b)
    ensures Counted(Added(b, frame)) && Flatten(Added(b, frame).frames) == Flatten(b.frames) + frame
  {
    assert (b.frames + [frame])[..|b.frames|] == b.frames;
  }

  /** Between one second and the maximum, after speech: the check says yes from `delay` after the last speech on, and not
      before. */
  lemma PauseDecides(b: Buffer, delay: Time, max: Time, rate: nat, now: Time)
    requires rate > 0 && 1.0 <= Seconds(b.totalBytes, rate) < max && b.lastSpeech.Some?
    ensures ShouldFlush(b, delay, max, rate, now) <==> !b.isSpeaking && now >= b.lastSpeech.value + delay
  {
  }

  /** A yes stays a yes while nothing is added. */
  lemma YesStays(b: Buffer, delay: Time, max: Time, rate: nat, now: Time, later: Time)
    requires rate > 0 && ShouldFlush(b, delay, max, rate, now) && later >= now
    ensures ShouldFlush(b, delay, max, rate, later)
  {
  }

  class AudioBuffer {
    var frames: seq<Frame>
    var totalBytes: nat
    var speechStart: Option<Time>
    var lastSpeech: Option<Time>
    var isSpeaking: bool

    function Value(): Buffer
      reads this
    {
      Buffer(frames, totalBytes, speechStart, lastSpeech, isSpeaking)
    }

    predicate Valid()
      reads this
    {
      Counted(Value())
    }

    constructor ()
      ensures Value() == EMPTY && Valid()
    {
      frames, totalBytes, speechStart, lastSpeech, isSpeaking := [], 0, None, None, false;
    }

    method AddFrame(frame: Frame)
      requires Valid()
      modifies this
      ensures Valid() && Value() == Added(old(Value()), frame)
      ensures Flatten(frames) == old(Flatten(frames)) + frame
    {
      CountedStays(Value(), frame);
      frames := frames + [frame];
      totalBytes := totalBytes + |frame|;
    }

    method MarkSpeech(now: Time)
      requires Valid()
      modifies this
      ensures Valid() && Value() == SpeechMarked(old(Value()), now)
    {
      if !isSpeaking {
        speechStart := Some(now);
        isSpeaking := true;
      }
      lastSpeech := Some(now);
    }

    method MarkSilence()
      requires Valid()
      modifies this
      ensures Valid() && Value() == SilenceMarked(old(Value()))
    {
      isSpeaking := false;
    }

    /** The early exits of shouldFlush together say yes exactly when at least a second is buffered and either the maximum is
        reached or, outside speech, the last speech is at least `delay` ago. */
    method ShouldFlushNow(delay: Time, max: Time, rate: nat, now: Time) returns (flush: bool)
      requires Valid() && rate > 0
      ensures var seconds := Seconds(totalBytes, rate);
        flush <==> (&& seconds >= 1.0
                    && (seconds >= max || (!isSpeaking && lastSpeech.Some? && now >= lastSpeech.value + delay)))
      ensures flush <==> ShouldFlush(Value(), delay, max, rate, now)
    {
      if |frames| == 0 {
        return false;
      }
      var bufferSecs := Seconds(totalBytes, rate);
      if bufferSecs < 1.0 {
        return false;
      }
      if bufferSecs >= max {
        return true;
      }
      if !isSpeaking && lastSpeech.Some? {
        return now - lastSpeech.value >= delay;
      }
      return false;
    }

    /** None stands for the nil slice; otherwise the WAV file of everything that was buffered. */
    method Flush(rate: nat) returns (wav: Option<array<byte>>)
      requires Valid()
      modifies this
      ensures Valid() && Value() == Flushed(old(Value()))
      ensures wav.None? <==> old(frames) == []
      ensures wav.Some? ==> fresh(wav.value) && wav.value[..] == WavBytes(old(frames), rate)
    {
      if |frames| == 0 {
        return None;
      }
      var totalPCM := 0;
      for i := 0 to |frames|
        invariant totalPCM == |Flatten(frames[..i])|
      {
        assert frames[..i + 1][..i] == frames[..i];
        totalPCM := totalPCM + |frames[i]|;
      }
      assert frames[..|frames|] == frames;
      var file := BuildWAV(frames, totalPCM, rate);
      frames := [];
      totalBytes := 0;
      lastSpeech := None;
      isSpeaking := false;
      return Some(file);
    }
  }
}
