/** Sixteen-bit PCM samples as bytes, and the chunk walk that reads a WAV file back
    into frames. */
module WavFrames {

  datatype Option<+T> = None | Some(value: T)

  type Byte = n: nat | n < 256

  type Sample = n: int | -0x8000 <= n < 0x8000

  // ---- Samples -------------------------------------------------------------

  /** Little-endian two's complement. */
  function SampleBytes(v: Sample): seq<Byte> {
    [v % 256, (v / 256) % 256]
  }

  function Pcm16(samples: seq<Sample>): (bytes: seq<Byte>)
    ensures |bytes| == 2 * |samples|
  {
    if samples == [] then [] else Pcm16(samples[..|samples| - 1]) + SampleBytes(samples[|samples| - 1])
  }

  method Pcm16Bytes(samples: seq<Sample>) returns (out: array<Byte>)
    ensures fresh(out) && out[..] == Pcm16(samples)
    ensures forall k | 0 <= k < |samples| :: Decodes(out[..], samples, k)
  {
    out := new Byte[2 * |samples|];
    assert samples[..0] == [];
    for i := 0 to |samples|
      invariant out[..2 * i] == Pcm16(samples[..i])
    {
      assert samples[..i + 1][..i] == samples[..i];
      var value := samples[i];
      out[i * 2] := value % 256;
      out[i * 2 + 1] := (value / 256) % 256;
      assert out[..2 * (i + 1)] == out[..2 * i] + SampleBytes(value);
    }
    assert samples[..|samples|] == samples && out[..2 * |samples|] == out[..];
    Pcm16RoundTrip(samples);
  }

  function ReadUInt16LE(bytes: seq<Byte>, at: nat): nat
    requires at + 2 <= |bytes|
  {
    (bytes[at] as int) + 256 * (bytes[at + 1] as int)
  }

  function ReadInt16LE(bytes: seq<Byte>, at: nat): Sample
    requires at + 2 <= |bytes|
  {
    var n := ReadUInt16LE(bytes, at);
    if n < 0x8000 then n else n - 0x1_0000
  }

  function ReadUInt32LE(bytes: seq<Byte>, at: nat): (n: nat)
    requires at + 4 <= |bytes|
    ensures n < 0x1_0000_0000
  {
    (bytes[at] as int) + 256 * ((bytes[at + 1] as int) + 256 * ((bytes[at + 2] as int) + 256 * (bytes[at + 3] as int)))
  }

  lemma SampleReads(v: Sample)
    ensures ReadInt16LE(SampleBytes(v), 0) == v
  {
  }

  lemma {:induction false} Pcm16At(samples: seq<Sample>, k: nat)
    requires k < |samples|
    ensures ReadInt16LE(Pcm16(samples), 2 * k) == samples[k]
  {
    var n := |samples| - 1;
    if k < n {
      Pcm16At(samples[..n], k);
    } else {
      SampleReads(samples[n]);
    }
  }

  /** The two bytes at sample `k`'s place decode to it. */
  predicate Decodes(bytes: seq<Byte>, samples: seq<Sample>, k: nat)
    requires |bytes| == 2 * |samples| && k < |samples|
  {
    ReadInt16LE(bytes, 2 * k) == samples[k]
  }

  lemma Pcm16RoundTrip(samples: seq<Sample>)
    ensures forall k | 0 <= k < |samples| :: Decodes(Pcm16(samples), samples, k)
  {
    forall k | 0 <= k < |samples| ensures Decodes(Pcm16(samples), samples, k) {
      Pcm16At(samples, k);
    }
  }

  // ---- Frames --------------------------------------------------------------

  datatype Frame = Frame(data: seq<Sample>, sampleRate: nat)

  const FRAME_MS := 20

  /** The samples of one frame: `Math.round`, and never less than one. */
  function PerFrame(sampleRate: nat): (n: nat)
    ensures n >= 1
  {
    var rounded := (2 * sampleRate * FRAME_MS + 1000) / 2000;
    if rounded < 1 then 1 else rounded
  }

  function Framed(samples: seq<Sample>, per: nat, sampleRate: nat): seq<Frame>
    requires per >= 1
    decreases |samples|
  {
    if samples == [] then []
    else if |samples| <= per then [Frame(samples, sampleRate)]
    else [Frame(samples[..per], sampleRate)] + Framed(samples[per..], per, sampleRate)
  }

  function Concat(frames: seq<Frame>): seq<Sample> {
    if frames == [] then [] else frames[0].data + Concat(frames[1..])
  }

  /** The frames are the samples in order, all of full length but perhaps the last,
      which is not empty. */
  lemma {:induction false} FramesCover(samples: seq<Sample>, per: nat, sampleRate: nat)
    requires per >= 1
    ensures var frames := Framed(samples, per, sampleRate);
      && Concat(frames) == samples
      && (forall k | 0 <= k < |frames| :: frames[k].sampleRate == sampleRate && 0 < |frames[k].data| <= per)
      && (forall k | 0 <= k < |frames| - 1 :: |frames[k].data| == per)
    decreases |samples|
  {
    if |samples| > per {
      var rest := Framed(samples[per..], per, sampleRate);
      FramesCover(samples[per..], per, sampleRate);
      assert ([Frame(samples[..per], sampleRate)] + rest)[1..] == rest;
    } else if samples != [] {
      assert Concat([Frame(samples, sampleRate)][1..]) == [];
    }
  }

  // ---- The reader ----------------------------------------------------------

  datatype Error = NotRiff | NotSixteenBit(bits: nat) | OutOfRange | NoData

  datatype Result = Ok(frames: seq<Frame>) | Err(error: Error)

  const RIFF: seq<Byte> := [82, 73, 70, 70]

  const DATA: seq<Byte> := [100, 97, 116, 97]

  /** Text of bytes as the `ascii` decoder gives it: the top bit of each is cleared. */
  function Ascii(bytes: seq<Byte>): (text: seq<Byte>)
    ensures |text| == |bytes|
  {
    seq(|bytes|, i requires 0 <= i < |bytes| => bytes[i] % 128)
  }

  /** Whether a chunk's samples can be read: the halved size fits a signed 32-bit
      length, and every sample lies inside the file. */
  predicate Readable(bytes: seq<Byte>, at: nat, size: nat) {
    size < 0x8000_0000 && at + 2 * (size / 2) <= |bytes|
  }

  function Samples(bytes: seq<Byte>, at: nat, count: nat): seq<Sample>
    requires at + 2 * count <= |bytes|
  {
    if count == 0 then [] else Samples(bytes, at, count - 1) + [ReadInt16LE(bytes, at + 2 * (count - 1))]
  }

  /** Where the walk over the chunks from `offset` on stops: at the first one whose name
      decodes to `data`, or past the last header. */
  function Stop(bytes: seq<Byte>, offset: nat): (at: nat)
    ensures at + 8 <= |bytes| ==> Ascii(bytes[at..at + 4]) == DATA
    decreases |bytes| - offset
  {
    if offset + 8 > |bytes| || Ascii(bytes[offset..offset + 4]) == DATA then offset
    else
      var size := ReadUInt32LE(bytes, offset + 4);
      Stop(bytes, offset + 8 + size + size % 2)
  }

  /** What is made of the place where it stops. */
  function Chunked(bytes: seq<Byte>, at: nat, sampleRate: nat): Result {
    if at + 8 > |bytes| then Err(NoData)
    else
      var size := ReadUInt32LE(bytes, at + 4);
      if Readable(bytes, at + 8, size)
      then Ok(Framed(Samples(bytes, at + 8, size / 2), PerFrame(sampleRate), sampleRate))
      else Err(OutOfRange)
  }

  function Read(bytes: seq<Byte>): Result {
    if |bytes| < 44 || Ascii(bytes[..4]) != RIFF then Err(NotRiff)
    else
      var bits := ReadUInt16LE(bytes, 34);
      if bits != 16 then Err(NotSixteenBit(bits)) else Chunked(bytes, Stop(bytes, 12), ReadUInt32LE(bytes, 24))
  }

  method ReadSamples(bytes: seq<Byte>, at: nat, size: nat) returns (samples: seq<Sample>)
    requires Readable(bytes, at, size)
    ensures samples == Samples(bytes, at, size / 2)
  {
    samples := [];
    for i := 0 to size / 2
      invariant samples == Samples(bytes, at, i)
    {
      samples := samples + [ReadInt16LE(bytes, at + i * 2)];
    }
  }

  function FramedFrom(samples: seq<Sample>, i: nat, per: nat, sampleRate: nat): seq<Frame>
    requires per >= 1
  {
    if i >= |samples| then [] else Framed(samples[i..], per, sampleRate)
  }

  lemma FramedStep(samples: seq<Sample>, i: nat, per: nat, sampleRate: nat)
    requires per >= 1 && i < |samples|
    ensures var end := if i + per < |samples| then i + per else |samples|;
      FramedFrom(samples, i, per, sampleRate)
        == [Frame(samples[i..end], sampleRate)] + FramedFrom(samples, i + per, per, sampleRate)
  {
    var rest := samples[i..];
    if |rest| > per {
      assert rest[..per] == samples[i..i + per] && rest[per..] == samples[i + per..];
    } else {
      assert samples[i..|samples|] == rest;
    }
  }

  lemma FramedPush(frames: seq<Frame>, samples: seq<Sample>, i: nat, per: nat, sampleRate: nat)
    requires per >= 1 && i < |samples|
    ensures var end := if i + per < |samples| then i + per else |samples|;
      frames + FramedFrom(samples, i, per, sampleRate)
        == (frames + [Frame(samples[i..end], sampleRate)]) + FramedFrom(samples, i + per, per, sampleRate)
  {
    FramedStep(samples, i, per, sampleRate);
  }

  method CutFrames(samples: seq<Sample>, per: nat, sampleRate: nat) returns (frames: seq<Frame>)
    requires per >= 1
    ensures frames == Framed(samples, per, sampleRate)
  {
    frames := [];
    var i := 0;
    ghost var whole := Framed(samples, per, sampleRate);
    assert samples[0..] == samples;
    while i < |samples|
      invariant frames + FramedFrom(samples, i, per, sampleRate) == whole
    {
      FramedPush(frames, samples, i, per, sampleRate);
      var end := if i + per < |samples| then i + per else |samples|;
      frames := frames + [Frame(samples[i..end], sampleRate)];
      i := i + per;
    }
  }

  method ReadWavFrames(bytes: seq<Byte>) returns (r: Result)
    ensures r == Read(bytes)
  {
    if |bytes| < 44 || Ascii(bytes[..4]) != RIFF {
      return Err(NotRiff);
    }
    var sampleRate := ReadUInt32LE(bytes, 24);
    var bitsPerSample := ReadUInt16LE(bytes, 34);
    if bitsPerSample != 16 {
      return Err(NotSixteenBit(bitsPerSample));
    }
    var offset := 12;
    while offset + 8 <= |bytes|
      invariant Stop(bytes, offset) == Stop(bytes, 12)
      decreases |bytes| - offset
    {
      var size := ReadUInt32LE(bytes, offset + 4);
      if Ascii(bytes[offset..offset + 4]) == DATA {
        if !Readable(bytes, offset + 8, size) {
          return Err(OutOfRange);
        }
        var samples := ReadSamples(bytes, offset + 8, size);
        var frames := CutFrames(samples, PerFrame(sampleRate), sampleRate);
        return Ok(frames);
      }
      offset := offset + 8 + size + size % 2;
    }
    return Err(NoData);
  }

  /** A frame is twenty milliseconds of samples, to the nearest, halves up, and at least one. */
  lemma TwentyMilliseconds(sampleRate: nat)
    ensures var n := PerFrame(sampleRate);
      n == 1 || 50 * n - 25 <= sampleRate
    ensures sampleRate < 50 * PerFrame(sampleRate) + 25
  {
  }

  /** Which files are refused, and why: no RIFF header, not sixteen bits, or no chunk whose
      name decodes to `data` and whose samples all lie in the file. */
  lemma RefusedIff(bytes: seq<Byte>)
    ensures var r := Read(bytes);
      var riff := |bytes| >= 44 && Ascii(bytes[..4]) == [82, 73, 70, 70];
      && (r == Err(NotRiff) <==> !riff)
      && (forall bits :: r == Err(NotSixteenBit(bits)) <==>
            riff && bits != 16 && bits == (bytes[34] as int) + 256 * (bytes[35] as int))
      && (r == Err(NoData) <==>
            riff && ReadUInt16LE(bytes, 34) == 16 && Stop(bytes, 12) + 8 > |bytes|)
      && (r.Ok? <==> riff && ReadUInt16LE(bytes, 34) == 16 && Stop(bytes, 12) + 8 <= |bytes|
                     && Readable(bytes, Stop(bytes, 12) + 8, ReadUInt32LE(bytes, Stop(bytes, 12) + 4)))
  {
  }

  // ---- Well-formed files ---------------------------------------------------

  datatype Chunk = Chunk(id: seq<Byte>, body: seq<Byte>)

  function UInt32Bytes(n: nat): (b: seq<Byte>)
    requires n < 0x1_0000_0000
    ensures |b| == 4
  {
    [n % 256, n / 256 % 256, n / 256 / 256 % 256, n / 256 / 256 / 256]
  }

  lemma UInt32Reads(n: nat)
    requires n < 0x1_0000_0000
    ensures ReadUInt32LE(UInt32Bytes(n), 0) == n
  {
    var p, q := n / 256, n / 256 / 256;
    assert n == 256 * p + n % 256 && p == 256 * q + p % 256 && q == 256 * (q / 256) + q % 256;
  }

  predicate ValidChunk(c: Chunk) {
    |c.id| == 4 && |c.body| < 0x1_0000_0000
  }

  /** Name, size, contents and the byte that keeps the next chunk even. */
  function Encoded(c: Chunk): (b: seq<Byte>)
    requires ValidChunk(c)
    ensures |b| == 8 + |c.body| + |c.body| % 2
  {
    c.id + UInt32Bytes(|c.body|) + c.body + if |c.body| % 2 == 1 then [0] else []
  }

  function EncodedAll(chunks: seq<Chunk>): seq<Byte>
    requires forall c | c in chunks :: ValidChunk(c)
  {
    if chunks == [] then [] else Encoded(chunks[0]) + EncodedAll(chunks[1..])
  }

  /** The bytes of `part` occur in `all` from `at` on. */
  ghost predicate Found(all: seq<Byte>, at: nat, part: seq<Byte>) {
    at + |part| <= |all| && forall i | 0 <= i < |part| :: part[i] == all[at + i]
  }

  lemma FoundBoth(all: seq<Byte>, at: nat, a: seq<Byte>, b: seq<Byte>)
    requires Found(all, at, a + b)
    ensures Found(all, at, a) && Found(all, at + |a|, b)
  {
    forall i | 0 <= i < |a| ensures a[i] == all[at + i] {
      assert (a + b)[i] == a[i];
    }
    forall i | 0 <= i < |b| ensures b[i] == all[at + |a| + i] {
      assert (a + b)[|a| + i] == b[i];
    }
  }

  lemma Reads32(all: seq<Byte>, at: nat, part: seq<Byte>, k: nat)
    requires Found(all, at, part) && k + 4 <= |part|
    ensures ReadUInt32LE(all, at + k) == ReadUInt32LE(part, k)
  {
  }

  lemma Reads16(all: seq<Byte>, at: nat, part: seq<Byte>, k: nat)
    requires Found(all, at, part) && k + 2 <= |part|
    ensures ReadUInt16LE(all, at + k) == ReadUInt16LE(part, k)
    ensures ReadInt16LE(all, at + k) == ReadInt16LE(part, k)
  {
  }

  lemma FoundText(all: seq<Byte>, at: nat, part: seq<Byte>)
    requires Found(all, at, part)
    ensures all[at..at + |part|] == part
  {
  }

  /** Name, size and contents of a chunk, at their places. */
  ghost predicate ChunkAt(all: seq<Byte>, at: nat, c: Chunk) {
    at + Length(c) <= |all| && |c.id| == 4 && all[at..at + 4] == c.id
    && ReadUInt32LE(all, at + 4) == |c.body| && Found(all, at + 8, c.body)
  }

  function Length(c: Chunk): nat {
    8 + |c.body| + |c.body| % 2
  }

  ghost predicate ChunksAt(all: seq<Byte>, at: nat, chunks: seq<Chunk>)
    decreases |chunks|
  {
    chunks == [] || (ChunkAt(all, at, chunks[0]) && ChunksAt(all, at + Length(chunks[0]), chunks[1..]))
  }

  lemma ChunkSeen(all: seq<Byte>, at: nat, c: Chunk)
    requires ValidChunk(c) && Found(all, at, Encoded(c))
    ensures ChunkAt(all, at, c)
  {
    var pad := if |c.body| % 2 == 1 then [0] else [];
    var size := UInt32Bytes(|c.body|);
    FoundBoth(all, at, c.id + size + c.body, pad);
    FoundBoth(all, at, c.id + size, c.body);
    FoundBoth(all, at, c.id, size);
    FoundText(all, at, c.id);
    Reads32(all, at + 4, size, 0);
    UInt32Reads(|c.body|);
  }

  lemma {:induction false} ChunksSeen(all: seq<Byte>, at: nat, chunks: seq<Chunk>)
    requires (forall c | c in chunks :: ValidChunk(c)) && Found(all, at, EncodedAll(chunks))
    ensures ChunksAt(all, at, chunks)
    decreases |chunks|
  {
    if chunks != [] {
      FoundBoth(all, at, Encoded(chunks[0]), EncodedAll(chunks[1..]));
      ChunkSeen(all, at, chunks[0]);
      ChunksSeen(all, at + Length(chunks[0]), chunks[1..]);
    }
  }

  /** The chunks the reader takes for samples. */
  predicate IsData(c: Chunk) {
    Ascii(c.id) == DATA
  }

  /** The first of them. */
  function Selected(chunks: seq<Chunk>): Option<Chunk> {
    if chunks == [] then None else if IsData(chunks[0]) then Some(chunks[0]) else Selected(chunks[1..])
  }

  lemma {:induction false} SelectedNoneIff(chunks: seq<Chunk>)
    ensures Selected(chunks).None? <==> forall c | c in chunks :: !IsData(c)
  {
    if chunks != [] {
      SelectedNoneIff(chunks[1..]);
      assert chunks == [chunks[0]] + chunks[1..];
    }
  }

  /** What reading a chunk's contents as samples gives. */
  function Played(c: Chunk, sampleRate: nat): Result {
    if |c.body| < 0x8000_0000
    then Ok(Framed(Samples(c.body, 0, |c.body| / 2), PerFrame(sampleRate), sampleRate))
    else Err(OutOfRange)
  }

  lemma {:induction false} SamplesFound(all: seq<Byte>, at: nat, part: seq<Byte>, n: nat)
    requires Found(all, at, part) && 2 * n <= |part|
    ensures Samples(all, at, n) == Samples(part, 0, n)
  {
    if n > 0 {
      SamplesFound(all, at, part, n - 1);
      Reads16(all, at, part, 2 * (n - 1));
    }
  }

  /** What is read off a chunk that lies in a file is its own contents. */
  lemma ChunkPlays(all: seq<Byte>, at: nat, c: Chunk, sampleRate: nat)
    requires ChunkAt(all, at, c)
    ensures Chunked(all, at, sampleRate) == Played(c, sampleRate)
  {
    SamplesFound(all, at + 8, c.body, |c.body| / 2);
  }

  lemma {:induction false} StopsAhead(all: seq<Byte>, at: nat)
    ensures Stop(all, at) >= at
    decreases |all| - at
  {
    if at + 8 <= |all| {
      var size := ReadUInt32LE(all, at + 4);
      StopsAhead(all, at + 8 + size + size % 2);
    }
  }

  lemma ChunkDecides(all: seq<Byte>, at: nat, c: Chunk)
    requires ChunkAt(all, at, c)
    ensures Stop(all, at) == if IsData(c) then at else Stop(all, at + Length(c))
  {
    assert at + 8 <= |all| && all[at..at + 4] == c.id;
  }

  /** The walk stops at a chunk exactly when its name decodes to `data`, whatever the
      chunk contains. */
  lemma StopsThereIff(all: seq<Byte>, at: nat, c: Chunk)
    requires ChunkAt(all, at, c)
    ensures Stop(all, at) == at <==> IsData(c)
  {
    ChunkDecides(all, at, c);
    StopsAhead(all, at + Length(c));
  }

  /** So in a list of chunks the walk stops at the first such one, having passed over all
      before it, and that one is read. */
  lemma {:induction false} WalkSelects(all: seq<Byte>, at: nat, chunks: seq<Chunk>, sampleRate: nat)
    requires ChunksAt(all, at, chunks) && Selected(chunks).Some?
    ensures Chunked(all, Stop(all, at), sampleRate) == Played(Selected(chunks).value, sampleRate)
    decreases |chunks|
  {
    ChunkDecides(all, at, chunks[0]);
    if IsData(chunks[0]) {
      ChunkPlays(all, at, chunks[0], sampleRate);
    } else {
      WalkSelects(all, at + Length(chunks[0]), chunks[1..], sampleRate);
    }
  }

  const OTHER_DATA: seq<Byte> := [228, 97, 116, 97]

  const OTHER_RIFF: seq<Byte> := [210, 201, 198, 198]

  /** The decoder takes other bytes for `data` and `RIFF` as well ... */
  lemma HighBitsAreIgnored()
    ensures OTHER_DATA != DATA && Ascii(OTHER_DATA) == DATA
    ensures OTHER_RIFF != RIFF && Ascii(OTHER_RIFF) == RIFF
  {
    assert OTHER_DATA[0] == 228 && OTHER_RIFF[0] == 210;
  }

  /** ... so that a chunk under another name is read in the place of the samples. */
  lemma OtherNameIsRead(all: seq<Byte>, at: nat, body: seq<Byte>, sampleRate: nat)
    requires ChunkAt(all, at, Chunk(OTHER_DATA, body))
    ensures Stop(all, at) == at && Chunked(all, at, sampleRate) == Played(Chunk(DATA, body), sampleRate)
  {
    HighBitsAreIgnored();
    ChunkDecides(all, at, Chunk(OTHER_DATA, body));
    ChunkPlays(all, at, Chunk(OTHER_DATA, body), sampleRate);
  }

  /** A RIFF file: twelve bytes of header, a format chunk naming the rate and sixteen
      bits, any further chunks, the samples, anything after them. */
  datatype Wav = Wav(header: seq<Byte>, format: seq<Byte>, chunks: seq<Chunk>, samples: seq<Sample>, trailer: seq<Byte>)

  const FMT: seq<Byte> := [102, 109, 116, 32]

  predicate ValidWav(w: Wav) {
    && |w.header| == 12 && Ascii(w.header[..4]) == RIFF
    && 16 <= |w.format| < 0x1_0000_0000 && ReadUInt16LE(w.format, 14) == 16
    && (forall c | c in w.chunks :: ValidChunk(c))
    && 2 * |w.samples| < 0x8000_0000
  }

  function SampleRate(w: Wav): nat
    requires ValidWav(w)
  {
    ReadUInt32LE(w.format, 4)
  }

  function FormatChunk(w: Wav): Chunk {
    Chunk(FMT, w.format)
  }

  function SampleChunk(w: Wav): Chunk {
    Chunk(DATA, Pcm16(w.samples))
  }

  function AllChunks(w: Wav): seq<Chunk> {
    [FormatChunk(w)] + (w.chunks + [SampleChunk(w)])
  }

  function FileOf(w: Wav): seq<Byte>
    requires ValidWav(w)
  {
    w.header + EncodedAll(AllChunks(w)) + w.trailer
  }

  /** The parts of a file, each at its place. */
  lemma PartsFound(w: Wav)
    requires ValidWav(w)
    ensures Found(FileOf(w), 0, w.header) && Found(FileOf(w), 12, EncodedAll(AllChunks(w)))
  {
    var all, body := FileOf(w), EncodedAll(AllChunks(w));
    assert Found(all, 0, all);
    FoundBoth(all, 0, w.header + body, w.trailer);
    FoundBoth(all, 0, w.header, body);
  }

  lemma FormatSeen(w: Wav)
    requires ValidWav(w)
    ensures var all := FileOf(w);
      |all| >= 44 && Ascii(all[..4]) == RIFF && ReadUInt16LE(all, 34) == 16 && ReadUInt32LE(all, 24) == SampleRate(w)
  {
    var all, rest := FileOf(w), w.chunks + [SampleChunk(w)];
    PartsFound(w);
    assert AllChunks(w)[0] == FormatChunk(w) && AllChunks(w)[1..] == rest;
    FoundBoth(all, 12, Encoded(FormatChunk(w)), EncodedAll(rest));
    ChunkSeen(all, 12, FormatChunk(w));
    Reads16(all, 20, w.format, 14);
    Reads32(all, 20, w.format, 4);
    FoundText(all, 0, w.header);
    assert all[..4] == w.header[..4];
  }

  lemma {:induction false} SamplesSeen(part: seq<Byte>, samples: seq<Sample>, n: nat)
    requires |part| == 2 * |samples| && n <= |samples|
    requires forall k | 0 <= k < |samples| :: Decodes(part, samples, k)
    ensures Samples(part, 0, n) == samples[..n]
  {
    if n > 0 {
      SamplesSeen(part, samples, n - 1);
      assert Decodes(part, samples, n - 1);
    }
  }

  lemma SamplesBack(samples: seq<Sample>)
    ensures Samples(Pcm16(samples), 0, |samples|) == samples
  {
    Pcm16RoundTrip(samples);
    SamplesSeen(Pcm16(samples), samples, |samples|);
    assert samples[..|samples|] == samples;
  }

  /** A chunk of encoded samples plays them. */
  lemma DataPlays(samples: seq<Sample>, sampleRate: nat)
    requires 2 * |samples| < 0x8000_0000
    ensures Played(Chunk(DATA, Pcm16(samples)), sampleRate)
      == Ok(Framed(samples, PerFrame(sampleRate), sampleRate))
  {
    var body := Pcm16(samples);
    assert |body| / 2 == |samples|;
    SamplesBack(samples);
  }

  lemma {:induction false} SelectedOr(chunks: seq<Chunk>, last: Chunk)
    requires IsData(last)
    ensures Selected(chunks + [last]) == if Selected(chunks).Some? then Selected(chunks) else Some(last)
  {
    if chunks != [] {
      SelectedOr(chunks[1..], last);
      assert (chunks + [last])[1..] == chunks[1..] + [last];
    }
  }

  /** The format chunk is never taken for the samples, and theirs always. */
  lemma SelectedOfAll(w: Wav)
    ensures Selected(AllChunks(w)) == if Selected(w.chunks).Some? then Selected(w.chunks) else Some(SampleChunk(w))
  {
    assert Ascii(FMT)[0] == 102 && Ascii(DATA) == DATA;
    assert AllChunks(w)[1..] == w.chunks + [SampleChunk(w)];
    SelectedOr(w.chunks, SampleChunk(w));
  }

  lemma FileWalks(all: seq<Byte>, w: Wav, sampleRate: nat)
    requires ChunksAt(all, 12, AllChunks(w))
    ensures Chunked(all, Stop(all, 12), sampleRate) ==
      Played(if Selected(w.chunks).Some? then Selected(w.chunks).value else SampleChunk(w), sampleRate)
  {
    SelectedOfAll(w);
    WalkSelects(all, 12, AllChunks(w), sampleRate);
  }

  /** What reading a well-formed file gives: the first chunk before the samples whose
      name decodes to `data`, or else the samples. */
  lemma ReadSelects(w: Wav)
    requires ValidWav(w)
    ensures Read(FileOf(w)) ==
      match Selected(w.chunks)
      case Some(c) => Played(c, SampleRate(w))
      case None => Ok(Framed(w.samples, PerFrame(SampleRate(w)), SampleRate(w)))
  {
    FormatSeen(w);
    PartsFound(w);
    ChunksSeen(FileOf(w), 12, AllChunks(w));
    FileWalks(FileOf(w), w, SampleRate(w));
    DataPlays(w.samples, SampleRate(w));
  }

  /** Unless an earlier chunk is taken for the samples, reading a well-formed file gives
      them back, cut into frames: all of the rounded frame length but perhaps the last. */
  lemma WavRoundTrip(w: Wav)
    requires ValidWav(w) && forall c | c in w.chunks :: !IsData(c)
    ensures var r := Read(FileOf(w));
      && r.Ok? && Concat(r.frames) == w.samples
      && (forall k | 0 <= k < |r.frames| :: r.frames[k].sampleRate == SampleRate(w))
      && (forall k | 0 <= k < |r.frames| - 1 :: |r.frames[k].data| == PerFrame(SampleRate(w)))
  {
    SelectedNoneIff(w.chunks);
    ReadSelects(w);
    FramesCover(w.samples, PerFrame(SampleRate(w)), SampleRate(w));
  }
}
