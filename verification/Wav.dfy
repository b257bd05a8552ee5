/** The WAV writer of internal/gateway/stream.go, a chunk-by-chunk reader of the format, and the header reader of
    services/diarizer/diarizer_server.py. */
module Wav {
  import opened Api

  type byte = x: int | 0 <= x < 256

  const WORD := 0x1_0000_0000

  type Frame = seq<byte>

  function Flatten(frames: seq<Frame>): seq<byte> {
    if frames == [] then [] else Flatten(frames[..|frames| - 1]) + frames[|frames| - 1]
  }

  lemma {:induction false} FlattenConcat(a: seq<Frame>, b: seq<Frame>)
    ensures Flatten(a + b) == Flatten(a) + Flatten(b)
  {
    if b == [] {
      assert a + b == a && Flatten(a) + [] == Flatten(a);
    } else {
      var n := |b| - 1;
      FlattenConcat(a, b[..n]);
      assert Flatten(a + b) == Flatten(a + b[..n]) + b[n] by {
        assert (a + b)[..|a + b| - 1] == a + b[..n];
      }
      Regroup(Flatten(a), Flatten(b[..n]), b[n]);
    }
  }

  // ----- Little-endian words

  function LE16(v: nat): seq<byte> {
    [v % 256, v / 256 % 256]
  }

  function LE32(v: nat): seq<byte> {
    [v % 256, v / 256 % 256, v / 65536 % 256, v / 16777216 % 256]
  }

  function U16(b: seq<byte>, at: nat): nat
    requires at + 2 <= |b|
  {
    b[at] as int + 256 * (b[at + 1] as int)
  }

  function U32(b: seq<byte>, at: nat): nat
    requires at + 4 <= |b|
  {
    b[at] as int + 256 * (b[at + 1] as int) + 65536 * (b[at + 2] as int) + 16777216 * (b[at + 3] as int)
  }

  lemma Digits(v: nat)
    ensures v % WORD == v % 256 + 256 * (v / 256 % 256) + 65536 * (v / 65536 % 256) + 16777216 * (v / 16777216 % 256)
  {
    var v1 := v / 256;
    var v2 := v1 / 256;
    var v3 := v2 / 256;
    var v4 := v3 / 256;
    Quotients(v, v1, v2, v3, v4);
    assert v == 256 * v1 + v % 256;
    assert v1 == 256 * v2 + v1 % 256;
    assert v2 == 256 * v3 + v2 % 256;
    assert v3 == 256 * v4 + v3 % 256;
    assert v == WORD * v4 + v % WORD;
  }

  lemma Quotients(v: nat, v1: nat, v2: nat, v3: nat, v4: nat)
    requires v1 == v / 256 && v2 == v1 / 256 && v3 == v2 / 256 && v4 == v3 / 256
    ensures v2 == v / 65536 && v3 == v / 16777216 && v4 == v / WORD
  {
  }

  lemma Wraps(v: nat)
    ensures v % WORD == v <==> v < WORD
  {
  }

  /** Reading back a written word gives its value modulo 2^32. */
  lemma WordReadsBack(v: nat)
    ensures U32(LE32(v), 0) == v % WORD && (U32(LE32(v), 0) == v <==> v < WORD)
  {
    Digits(v);
    Wraps(v);
  }

  // ----- The writer

  const RIFF: seq<byte> := [0x52, 0x49, 0x46, 0x46]
  const WAVE: seq<byte> := [0x57, 0x41, 0x56, 0x45]
  const FMT: seq<byte> := [0x66, 0x6d, 0x74, 0x20]
  const DATA: seq<byte> := [0x64, 0x61, 0x74, 0x61]

  function Header(totalPCM: nat, rate: nat): (h: seq<byte>)
    ensures |h| == 44
  {
    RIFF + LE32(36 + totalPCM) + WAVE +
    FMT + LE32(16) + LE16(1) + LE16(1) + LE32(rate) + LE32(rate * 2) + LE16(2) + LE16(16) +
    DATA + LE32(totalPCM)
  }

  function WavBytes(frames: seq<Frame>, rate: nat): seq<byte> {
    Header(|Flatten(frames)|, rate) + Flatten(frames)
  }

  method PutLE16(b: array<byte>, at: nat, v: nat)
    requires at + 2 <= b.Length
    modifies b
    ensures b[..] == old(b[..at]) + LE16(v) + old(b[at + 2..])
  {
    b[at] := v % 256;
    b[at + 1] := v / 256 % 256;
  }

  method PutLE32(b: array<byte>, at: nat, v: nat)
    requires at + 4 <= b.Length
    modifies b
    ensures b[..] == old(b[..at]) + LE32(v) + old(b[at + 4..])
  {
    b[at] := v % 256;
    b[at + 1] := v / 256 % 256;
    b[at + 2] := v / 65536 % 256;
    b[at + 3] := v / 16777216 % 256;
  }

  /** Go's copy into a slice of the buffer. */
  method CopyAt(b: array<byte>, at: nat, src: seq<byte>)
    requires at + |src| <= b.Length
    modifies b
    ensures b[..] == old(b[..at]) + src + old(b[at + |src|..])
  {
    for i := 0 to |src|
      invariant b[..] == old(b[..at]) + src[..i] + old(b[at + i..])
    {
      b[at + i] := src[i];
    }
  }

  /** buildWAV: header fields at fixed offsets, then the frames at a running offset. */
  method BuildWAV(frames: seq<Frame>, totalPCM: nat, rate: nat) returns (buf: array<byte>)
    requires totalPCM == |Flatten(frames)|
    ensures fresh(buf) && buf[..] == WavBytes(frames, rate)
  {
    buf := new byte[44 + totalPCM];
    WriteHeader(buf, totalPCM, rate);
    var offset := 44;
    for i := 0 to |frames|
      invariant 44 <= offset <= buf.Length
      invariant buf[..offset] == Header(totalPCM, rate) + Flatten(frames[..i])
    {
      FrameFits(frames, i);
      ghost var before := buf[..offset];
      CopyAt(buf, offset, frames[i]);
      assert buf[..offset + |frames[i]|] == before + frames[i];
      Regroup(Header(totalPCM, rate), Flatten(frames[..i]), frames[i]);
      offset := offset + |frames[i]|;
    }
    assert frames[..|frames|] == frames;
  }

  lemma FrameFits(frames: seq<Frame>, i: nat)
    requires i < |frames|
    ensures Flatten(frames[..i + 1]) == Flatten(frames[..i]) + frames[i]
    ensures |Flatten(frames[..i + 1])| <= |Flatten(frames)|
  {
    assert frames[..i + 1][..i] == frames[..i];
    FlattenConcat(frames[..i + 1], frames[i + 1..]);
    assert frames[..i + 1] + frames[i + 1..] == frames;
  }

  method WriteHeader(buf: array<byte>, totalPCM: nat, rate: nat)
    requires buf.Length >= 44
    modifies buf
    ensures buf[..44] == Header(totalPCM, rate)
  {
    CopyAt(buf, 0, RIFF);
    PutLE32(buf, 4, 36 + totalPCM);
    CopyAt(buf, 8, WAVE);
    assert buf[..12] == RIFF + LE32(36 + totalPCM) + WAVE;
    CopyAt(buf, 12, FMT);
    PutLE32(buf, 16, 16);
    PutLE16(buf, 20, 1);
    PutLE16(buf, 22, 1);
    assert buf[..24] == RIFF + LE32(36 + totalPCM) + WAVE + FMT + LE32(16) + LE16(1) + LE16(1);
    PutLE32(buf, 24, rate);
    PutLE32(buf, 28, rate * 2);
    PutLE16(buf, 32, 2);
    PutLE16(buf, 34, 16);
    CopyAt(buf, 36, DATA);
    PutLE32(buf, 40, totalPCM);
  }

  // ----- A reader of the format

  datatype Chunk = Chunk(id: seq<byte>, body: seq<byte>)

  /** The chunks of a RIFF body: a name, a length, that many bytes, and a pad byte after an odd length. */
  function Chunks(b: seq<byte>): Option<seq<Chunk>> {
    if b == [] then Some([])
    else if |b| < 8 then None
    else
      var size := U32(b, 4);
      var end := 8 + size + size % 2;
      if |b| < end then None
      else
        match Chunks(b[end..])
        case None => None
        case Some(rest) => Some([Chunk(b[..4], b[8..8 + size])] + rest)
  }

  function Find(chunks: seq<Chunk>, id: seq<byte>): Option<seq<byte>> {
    if chunks == [] then None
    else if chunks[0].id == id then Some(chunks[0].body)
    else Find(chunks[1..], id)
  }

  datatype Wave = Wave(channels: nat, rate: nat, bits: nat, data: seq<byte>)

  /** PCM audio from the fmt and data chunks, if byte rate and block align agree with the format. */
  function FromChunks(chunks: seq<Chunk>): Option<Wave> {
    var fmt, data := Find(chunks, FMT), Find(chunks, DATA);
    if fmt.None? || data.None? || |fmt.value| < 16 || U16(fmt.value, 0) != 1 then None
    else
      var f := fmt.value;
      var channels, rate, align, bits := U16(f, 2), U32(f, 4), U16(f, 12), U16(f, 14);
      if align * 8 != channels * bits || U32(f, 8) != rate * align then None
      else Some(Wave(channels, rate, bits, data.value))
  }

  /** Reads a file, checking the RIFF size. */
  function ReadWave(b: seq<byte>): Option<Wave> {
    if |b| < 12 || b[..4] != RIFF || U32(b, 4) != |b| - 8 || b[8..12] != WAVE then None
    else
      match Chunks(b[12..])
      case None => None
      case Some(chunks) => FromChunks(chunks)
  }

  /** The body of the fmt chunk as written. */
  function FormatBody(rate: nat): (f: seq<byte>)
    ensures |f| == 16
  {
    LE16(1) + LE16(1) + LE32(rate) + LE32(rate * 2) + LE16(2) + LE16(16)
  }

  // The lemmas about layout take the encoded words as any four bytes with the right value.

  lemma {:induction false} FirstChunk(id: seq<byte>, size: seq<byte>, body: seq<byte>, rest: seq<byte>)
    requires |id| == |size| == 4 && U32(size, 0) == |body| && |body| % 2 == 0
    ensures var after := Chunks(rest);
      Chunks(id + size + body + rest) == if after.None? then None else Some([Chunk(id, body)] + after.value)
  {
    var b := id + size + body + rest;
    ReadsInside(b, 4, size);
    assert b[8 + |body|..] == rest && b[8..8 + |body|] == body && b[..4] == id;
  }

  /** An odd chunk without its pad byte is not accepted. */
  lemma OddChunk(id: seq<byte>, size: seq<byte>, body: seq<byte>)
    requires |id| == |size| == 4 && U32(size, 0) == |body| && |body| % 2 == 1
    ensures Chunks(id + size + body) == None
  {
    ReadsInside(id + size + body, 4, size);
  }

  lemma FormatFields(rate: nat)
    ensures var f := FormatBody(rate);
      && U16(f, 0) == 1 && U16(f, 2) == 1 && U16(f, 12) == 2 && U16(f, 14) == 16
      && U32(f, 4) == rate % WORD && U32(f, 8) == (rate * 2) % WORD
  {
    WordReadsBack(rate);
    WordReadsBack(rate * 2);
    ReadsInside(FormatBody(rate), 4, LE32(rate));
    ReadsInside(FormatBody(rate), 8, LE32(rate * 2));
  }

  lemma ReadsInside(b: seq<byte>, at: nat, word: seq<byte>)
    requires |word| == 4 && at + 4 <= |b| && b[at..at + 4] == word
    ensures U32(b, at) == U32(word, 0)
  {
    assert b[at] == word[0] && b[at + 1] == word[1] && b[at + 2] == word[2] && b[at + 3] == word[3];
  }

  lemma {:induction false} TwoChunks(sixteen: seq<byte>, f: seq<byte>, length: seq<byte>, pcm: seq<byte>)
    requires |sixteen| == |length| == 4 && |f| == 16 && U32(sixteen, 0) == 16 && U32(length, 0) == |pcm|
    ensures Chunks(FMT + sixteen + f + (DATA + length + pcm)) ==
            if |pcm| % 2 == 0 then Some([Chunk(FMT, f), Chunk(DATA, pcm)]) else None
  {
    DataChunk(length, pcm);
    AfterFormat(sixteen, f, DATA + length + pcm, pcm);
  }

  lemma DataChunk(length: seq<byte>, pcm: seq<byte>)
    requires |length| == 4 && U32(length, 0) == |pcm|
    ensures Chunks(DATA + length + pcm) == if |pcm| % 2 == 0 then Some([Chunk(DATA, pcm)]) else None
  {
    if |pcm| % 2 == 0 {
      LastChunk(DATA, length, pcm);
    } else {
      OddChunk(DATA, length, pcm);
    }
  }

  lemma AfterFormat(sixteen: seq<byte>, f: seq<byte>, tail: seq<byte>, pcm: seq<byte>)
    requires |sixteen| == 4 && |f| == 16 && U32(sixteen, 0) == 16
    requires Chunks(tail) == if |pcm| % 2 == 0 then Some([Chunk(DATA, pcm)]) else None
    ensures Chunks(FMT + sixteen + f + tail) ==
            if |pcm| % 2 == 0 then Some([Chunk(FMT, f), Chunk(DATA, pcm)]) else None
  {
    FirstChunk(FMT, sixteen, f, tail);
    assert [Chunk(FMT, f)] + [Chunk(DATA, pcm)] == [Chunk(FMT, f), Chunk(DATA, pcm)];
  }

  lemma {:induction false} LastChunk(id: seq<byte>, size: seq<byte>, body: seq<byte>)
    requires |id| == |size| == 4 && U32(size, 0) == |body| && |body| % 2 == 0
    ensures Chunks(id + size + body) == Some([Chunk(id, body)])
  {
    FirstChunk(id, size, body, []);
    assert id + size + body + [] == id + size + body;
    assert [Chunk(id, body)] + [] == [Chunk(id, body)];
  }

  lemma TwoFound(f: seq<byte>, pcm: seq<byte>)
    ensures var chunks := [Chunk(FMT, f), Chunk(DATA, pcm)];
      Find(chunks, FMT) == Some(f) && Find(chunks, DATA) == Some(pcm)
  {
    var chunks := [Chunk(FMT, f), Chunk(DATA, pcm)];
    assert chunks[1..] == [Chunk(DATA, pcm)];
    assert FMT[0] != DATA[0];
  }

  /** A file of a fmt chunk and a data chunk, as the reader sees it. */
  lemma FileReads(size: seq<byte>, sixteen: seq<byte>, f: seq<byte>, length: seq<byte>, pcm: seq<byte>)
    requires |size| == |sixteen| == |length| == 4 && |f| == 16 && U32(sixteen, 0) == 16
    requires U16(f, 0) == 1 && U16(f, 2) == 1 && U16(f, 12) == 2 && U16(f, 14) == 16
    requires U32(size, 0) == 36 + |pcm| ==> U32(length, 0) == |pcm|
    ensures ReadWave(RIFF + size + WAVE + (FMT + sixteen + f + (DATA + length + pcm))) ==
            if U32(size, 0) == 36 + |pcm| && |pcm| % 2 == 0 && U32(f, 8) == U32(f, 4) * 2
            then Some(Wave(1, U32(f, 4), 16, pcm)) else None
  {
    var body := FMT + sixteen + f + (DATA + length + pcm);
    var b := RIFF + size + WAVE + body;
    assert b[4..8] == size && b[..4] == RIFF && b[8..12] == WAVE && b[12..] == body;
    ReadsInside(b, 4, size);
    if U32(size, 0) == 36 + |pcm| {
      TwoChunks(sixteen, f, length, pcm);
      TwoFound(f, pcm);
    }
  }

  /** What the reader makes of the writer's bytes, in all cases. */
  lemma WrittenReads(frames: seq<Frame>, rate: nat)
    ensures var pcm := Flatten(frames);
      ReadWave(WavBytes(frames, rate)) ==
      if 36 + |pcm| < WORD && |pcm| % 2 == 0 && (rate * 2) % WORD == rate % WORD * 2
      then Some(Wave(1, rate % WORD, 16, pcm)) else None
  {
    var size, sixteen, f, length := Pieces(frames, rate);
    var pcm := Flatten(frames);
    var b := RIFF + size + WAVE + (FMT + sixteen + f + (DATA + length + pcm));
    assert ReadWave(b) == if U32(size, 0) == 36 + |pcm| && |pcm| % 2 == 0 && U32(f, 8) == U32(f, 4) * 2
                          then Some(Wave(1, U32(f, 4), 16, pcm)) else None by {
      FileReads(size, sixteen, f, length, pcm);
    }
  }

  lemma Pieces(frames: seq<Frame>, rate: nat)
    returns (size: seq<byte>, sixteen: seq<byte>, f: seq<byte>, length: seq<byte>)
    ensures |size| == |sixteen| == |length| == 4 && |f| == 16
    ensures U32(sixteen, 0) == 16 && (U32(size, 0) == 36 + |Flatten(frames)| <==> 36 + |Flatten(frames)| < WORD)
    ensures 36 + |Flatten(frames)| < WORD ==> U32(length, 0) == |Flatten(frames)|
    ensures U16(f, 0) == 1 && U16(f, 2) == 1 && U16(f, 12) == 2 && U16(f, 14) == 16
    ensures U32(f, 4) == rate % WORD && U32(f, 8) == (rate * 2) % WORD
    ensures WavBytes(frames, rate) == RIFF + size + WAVE + (FMT + sixteen + f + (DATA + length + Flatten(frames)))
  {
    var n := |Flatten(frames)|;
    WordReadsBack(36 + n);
    WordReadsBack(n);
    WordReadsBack(16);
    FormatFields(rate);
    size, sixteen, f, length := LE32(36 + n), LE32(16), FormatBody(rate), LE32(n);
    Joined(frames, rate, size, sixteen, f, length);
  }

  lemma Joined(
    frames: seq<Frame>, rate: nat, size: seq<byte>, sixteen: seq<byte>, f: seq<byte>, length: seq<byte>)
    requires size == LE32(36 + |Flatten(frames)|) && sixteen == LE32(16)
    requires f == FormatBody(rate) && length == LE32(|Flatten(frames)|)
    ensures WavBytes(frames, rate) == RIFF + size + WAVE + (FMT + sixteen + f + (DATA + length + Flatten(frames)))
  {
  }

  /** The round trip holds exactly for even payloads of at most 2^32 - 37 bytes and rates below 2^31. */
  lemma {:induction false} RoundTrip(frames: seq<Frame>, rate: nat)
    ensures var pcm := Flatten(frames);
      ReadWave(WavBytes(frames, rate)) == Some(Wave(1, rate, 16, pcm))
      <==> |pcm| <= WORD - 37 && |pcm| % 2 == 0 && rate * 2 < WORD
  {
    WrittenReads(frames, rate);
    DoubledRate(rate);
  }

  lemma DoubledRate(rate: nat)
    ensures (rate * 2) % WORD == rate % WORD * 2 && rate % WORD == rate <==> rate * 2 < WORD
  {
    if rate < WORD <= rate * 2 {
      assert (rate * 2) % WORD == rate * 2 - WORD;
    }
  }

  // ----- Duration

  /** The buffered seconds that shouldFlush computes for 16-bit mono audio. */
  function Seconds(bytes: nat, rate: nat): real
    requires rate > 0
  {
    bytes as real / 2.0 / rate as real
  }

  /** The fallback: 16 kHz 16-bit mono, at least 0.1 s. */
  function Rough(bytes: nat): real {
    var rough := bytes as real / 32000.0;
    if rough < 0.1 then 0.1 else rough
  }

  /** _estimate_duration: from the header's byte rate, if there is one. */
  function EstimateDuration(audio: seq<byte>): real {
    if |audio| >= 44 && audio[..4] == RIFF && U32(audio, 28) > 0 then
      (|audio| - 44) as real / U32(audio, 28) as real
    else Rough(|audio|)
  }

  /** Without a header the estimate is that of 16 kHz 16-bit mono, but at least a tenth of a second. */
  lemma EstimateWithoutHeader(audio: seq<byte>)
    requires |audio| < 44 || audio[0] != 0x52 || audio[1] != 0x49 || audio[2] != 0x46 || audio[3] != 0x46
    ensures var e, seconds := EstimateDuration(audio), Seconds(|audio|, 16000);
      e >= 0.1 && e >= seconds && (e == 0.1 || e == seconds)
  {
    assert |audio| >= 44 ==> audio[..4] != RIFF by {
      if |audio| >= 44 {
        assert audio[..4][0] == audio[0] && audio[..4][1] == audio[1] && audio[..4][2] == audio[2] && audio[..4][3] == audio[3];
      }
    }
  }

  /** The diarizer's estimate for a written file is the number of seconds the buffer held, if and only if the doubled rate
      fits its word, or there is no audio and the word is not zero. */
  lemma DurationAgrees(frames: seq<Frame>, rate: nat)
    requires rate > 0
    ensures EstimateDuration(WavBytes(frames, rate)) == Seconds(|Flatten(frames)|, rate)
            <==> rate * 2 < WORD || (Flatten(frames) == [] && (rate * 2) % WORD != 0)
  {
    EstimateOf(frames, rate);
    EstimateIsRight(|Flatten(frames)|, rate);
  }

  lemma EstimateIsRight(n: nat, rate: nat)
    requires rate > 0
    ensures var written := (rate * 2) % WORD;
      (if written > 0 then n as real / written as real else Rough(44 + n)) == Seconds(n, rate)
      <==> rate * 2 < WORD || (n == 0 && written != 0)
  {
    var written := (rate * 2) % WORD;
    SplitDivision(n as real, rate as real);
    if written > 0 {
      SameQuotient(n as real, written as real, (rate * 2) as real);
      Wraps(rate * 2);
    } else {
      FallbackDiffers(n, rate);
    }
  }

  lemma EstimateOf(frames: seq<Frame>, rate: nat)
    ensures var n, written := |Flatten(frames)|, (rate * 2) % WORD;
      EstimateDuration(WavBytes(frames, rate)) ==
      if written > 0 then n as real / written as real else Rough(44 + n)
  {
    ByteRateField(frames, rate);
  }

  lemma SameQuotient(n: real, x: real, y: real)
    requires n >= 0.0 && x > 0.0 && y > 0.0
    ensures n / x == n / y <==> n == 0.0 || x == y
  {
    var p, q := n / x, n / y;
    assert p * x == n && q * y == n;
    if p == q {
      assert p * (x - y) == 0.0;
    }
  }

  /** A rate whose double wraps to zero: the fallback is always more. */
  lemma FallbackDiffers(n: nat, rate: nat)
    requires rate > 0 && (rate * 2) % WORD == 0
    ensures rate * 2 >= WORD && Rough(44 + n) > n as real / (rate * 2) as real
  {
    Wraps(rate * 2);
    SmallQuotient(n as real, (rate * 2) as real);
  }

  lemma SmallQuotient(n: real, y: real)
    requires n >= 0.0 && y >= 32000.0
    ensures n / y <= n / 32000.0
  {
    var q := n / y;
    assert q * y == n && q >= 0.0;
    assert q * 32000.0 <= q * y;
  }

  lemma ByteRateField(frames: seq<Frame>, rate: nat)
    ensures var b := WavBytes(frames, rate);
      b[..4] == RIFF && |b| == 44 + |Flatten(frames)| && U32(b, 28) == (rate * 2) % WORD
  {
    var word := LE32(rate * 2);
    ByteRateBytes(frames, rate, word);
    ReadsInside(WavBytes(frames, rate), 28, word);
    WordReadsBack(rate * 2);
  }

  lemma ByteRateBytes(frames: seq<Frame>, rate: nat, word: seq<byte>)
    requires word == LE32(rate * 2)
    ensures var b := WavBytes(frames, rate); b[..4] == RIFF && b[28..32] == word && |b| == 44 + |Flatten(frames)|
  {
  }

  lemma SplitDivision(n: real, r: real)
    requires r > 0.0
    ensures n / (r * 2.0) == n / 2.0 / r
  {
    var q := n / 2.0 / r;
    assert q * r == n / 2.0;
    assert q * (r * 2.0) == n;
  }
}
