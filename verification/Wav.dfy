/** The PCM WAV writer and reader. */
module Wav {

  type byte = b: int | 0 <= b < 256

  datatype Error = Io | InvalidRiff | InvalidWave | MissingFmt | MissingData
                 | UnsupportedFormat(tag: nat) | UnsupportedBitDepth(bits: nat) | UnsupportedChannels(count: nat)

  datatype Result<+T> = Ok(value: T) | Err(error: Error)

  /** Samples are interleaved; the duration, which follows from the rest, is not kept. */
  datatype Buffer = Buffer(rate: nat, channels: nat, samples: seq<real>)

  const RIFF: seq<byte> := [0x52, 0x49, 0x46, 0x46]
  const WAVE: seq<byte> := [0x57, 0x41, 0x56, 0x45]
  const FMT: seq<byte> := [0x66, 0x6D, 0x74, 0x20]
  const DATA: seq<byte> := [0x64, 0x61, 0x74, 0x61]

  function LE16(v: nat): seq<byte> { [v % 0x100, v / 0x100 % 0x100] }

  function LE32(v: nat): seq<byte> { [v % 0x100, v / 0x100 % 0x100, v / 0x1_0000 % 0x100, v / 0x100_0000 % 0x100] }

  function Read16(b: seq<byte>): nat
    requires |b| >= 2
  {
    b[0] as int + b[1] as int * 0x100
  }

  function Read32(b: seq<byte>): nat
    requires |b| >= 4
  {
    b[0] as int + b[1] as int * 0x100 + b[2] as int * 0x1_0000 + b[3] as int * 0x100_0000
  }

  /** Two's complement. */
  function Signed(v: nat, modulus: nat): int { if v < modulus / 2 then v else v - modulus }

  // ---------------------------------------------------------------- writing

  function Clamp(x: real): real { if x < -1.0 then -1.0 else if x > 1.0 then 1.0 else x }

  /** To the nearest integer, halves away from zero. */
  function Round(x: real): int { if x >= 0.0 then (x + 0.5).Floor else -(0.5 - x).Floor }

  function Gain(volume: real): real { if volume < 0.0 then 0.0 else volume }

  function Pcm(sample: real, volume: real): int { Round(Clamp(sample * Gain(volume)) * 32767.0) }

  function Encode16(p: int): seq<byte> { LE16(p % 0x1_0000) }

  function DataBytes(samples: seq<real>, volume: real): seq<byte> {
    if samples == [] then []
        else DataBytes(samples[..|samples| - 1], volume) + Encode16(Pcm(samples[|samples| - 1], volume))
  }

  function FmtBody(rate: nat, channels: nat): seq<byte> {
    LE16(1) + LE16(channels) + LE32(rate) + LE32(rate * (channels * 2)) + LE16(channels * 2) + LE16(16)
  }

  function FileBytes(buf: Buffer, volume: real): seq<byte> {
    RIFF + LE32(36 + 2 * |buf.samples|) + WAVE
    + (FMT + LE32(16) + FmtBody(buf.rate, buf.channels))
    + (DATA + LE32(2 * |buf.samples|) + DataBytes(buf.samples, volume))
  }

  /** Returns the bytes and their number. */
  method WriteWav(buf: Buffer, volume: real) returns (bytes: seq<byte>, count: nat)
    ensures bytes == FileBytes(buf, volume) && count == |bytes|
  {
    hide LE16, LE32, Pcm, Encode16;
    var blockAlign := buf.channels * 2;
    var byteRate := buf.rate * blockAlign;
    var dataSize := |buf.samples| * 2;
    bytes := RIFF + LE32(36 + dataSize) + WAVE;
    bytes := bytes + (FMT + LE32(16)
        + (LE16(1) + LE16(buf.channels) + LE32(buf.rate) + LE32(byteRate) + LE16(blockAlign) + LE16(16)));
    bytes := bytes + (DATA + LE32(dataSize));
    ghost var header := bytes;
    for k := 0 to |buf.samples|
      invariant bytes == header + DataBytes(buf.samples[..k], volume)
    {
      ghost var upto := buf.samples[..k + 1];
      assert upto[..k] == buf.samples[..k];
      ghost var before, more := DataBytes(buf.samples[..k], volume), Encode16(Pcm(buf.samples[k], volume));
      bytes := bytes + Encode16(Pcm(buf.samples[k], volume));
      assert header + before + more == header + (before + more);
    }
    assert buf.samples[..|buf.samples|] == buf.samples;
    FileLength(buf, volume);
    count := 44 + dataSize;
  }

  lemma FileLength(buf: Buffer, volume: real)
    ensures |FileBytes(buf, volume)| == 44 + 2 * |buf.samples|
  {
    DataLength(buf.samples, volume);
  }

  lemma {:induction false} DataLength(samples: seq<real>, volume: real)
    ensures |DataBytes(samples, volume)| == 2 * |samples|
  {
    if samples != [] { DataLength(samples[..|samples| - 1], volume); }
  }

  // ---------------------------------------------------------------- reading

  datatype Format = Format(tag: nat, channels: nat, rate: nat, bits: nat)

  datatype Chunks = Chunks(fmt: Format, haveFmt: bool, data: seq<byte>)

  const NO_FORMAT: Format := Format(0, 0, 0, 0)

  function ParseFormat(body: seq<byte>): Format
    requires |body| >= 16
  {
    Format(Read16(body[0..2]), Read16(body[2..4]), Read32(body[4..8]), Read16(body[14..16]))
  }

  /** The chunks up to and including the data chunk; the end of the input where a chunk would start
      ends the list, anywhere else it is an error. */
  function ReadChunks(bytes: seq<byte>, fmt: Format, haveFmt: bool): Result<Chunks>
    decreases |bytes|
  {
    if |bytes| < 4 then Ok(Chunks(fmt, haveFmt, []))
    else if |bytes| < 8 then Err(Io)
    else
      var id, size := bytes[..4], Read32(bytes[4..8]);
      var padded := size + size % 2;
      if id == FMT then
        if |bytes| < 8 + size then Err(Io)
        else if size < 16 then Err(MissingFmt)
        else if |bytes| < 8 + padded then Err(Io)
        else ReadChunks(bytes[8 + padded..], ParseFormat(bytes[8..8 + size]), true)
      else if |bytes| < 8 + padded then Err(Io)
      else if id == DATA then Ok(Chunks(fmt, haveFmt, bytes[8..8 + size]))
      else ReadChunks(bytes[8 + padded..], fmt, haveFmt)
  }

  /** One sample of the given depth, scaled to one. */
  function Sample(b: seq<byte>, bits: nat): real
    requires bits in {8, 16, 24, 32} && |b| == bits / 8
  {
    if bits == 8 then (b[0] as real - 128.0) / 128.0
    else if bits == 16 then Signed(Read16(b), 0x1_0000) as real / 32768.0
    else if bits == 24 then
      Signed(b[0] as int + b[1] as int * 0x100 + b[2] as int * 0x1_0000, 0x100_0000) as real / 8388608.0
    else Signed(Read32(b), 0x1_0000_0000) as real / 2147483648.0
  }

  /** Whole samples; an incomplete one at the end is dropped. */
  function Samples(data: seq<byte>, bits: nat): seq<real>
    requires bits in {8, 16, 24, 32}
  {
    var w := bits / 8;
    seq(|data| / w, i requires 0 <= i < |data| / w => SampleAt(data, bits, i))
  }

  function SampleAt(data: seq<byte>, bits: nat, i: nat): real
    requires bits in {8, 16, 24, 32} && i < |data| / (bits / 8)
  {
    var w := bits / 8;
    SampleFits(|data|, w, i);
    Sample(data[i * w..(i + 1) * w], bits)
  }

  lemma SampleFits(n: nat, w: nat, i: nat)
    requires w > 0 && i < n / w
    ensures 0 <= i * w && i * w + w == (i + 1) * w <= n
  {
    var q, r := n / w, n % w;
    assert n == q * w + r;
    assert (q - (i + 1)) * w >= 0;
  }

  function Finish(c: Chunks): Result<Buffer> {
    if !c.haveFmt then Err(MissingFmt)
    else if c.data == [] then Err(MissingData)
    else if c.fmt.tag != 1 then Err(UnsupportedFormat(c.fmt.tag))
    else if c.fmt.channels != 1 && c.fmt.channels != 2 then Err(UnsupportedChannels(c.fmt.channels))
    else if c.fmt.bits !in {8, 16, 24, 32} then Err(UnsupportedBitDepth(c.fmt.bits))
    else Ok(Buffer(c.fmt.rate, c.fmt.channels, Samples(c.data, c.fmt.bits)))
  }

  function Decode(bytes: seq<byte>): Result<Buffer> {
    if |bytes| < 4 then Err(Io)
    else if bytes[..4] != RIFF then Err(InvalidRiff)
    else if |bytes| < 12 then Err(Io)
    else if bytes[8..12] != WAVE then Err(InvalidWave)
    else match ReadChunks(bytes[12..], NO_FORMAT, false)
      case Err(e) => Err(e)
      case Ok(c) => Finish(c)
  }

  /** The loop over whole samples. */
  method ReadSamples(data: seq<byte>, bits: nat) returns (samples: seq<real>)
    requires bits in {8, 16, 24, 32}
    ensures samples == Samples(data, bits)
  {
    hide SampleAt;
    samples := [];
    for k := 0 to |data| / (bits / 8)
      invariant samples == Samples(data, bits)[..k]
    {
      samples := samples + [SampleAt(data, bits, k)];
    }
  }

  /** The reader's loop over the chunks; `src` is what is left to read. */
  method ReadWav(bytes: seq<byte>) returns (r: Result<Buffer>)
    ensures r == Decode(bytes)
  {
    hide ParseFormat, Read32, Samples;
    var src := bytes;
    if |src| < 4 { return Err(Io); }
    if src[..4] != RIFF { return Err(InvalidRiff); }
    if |src| < 12 { return Err(Io); }
    if src[8..12] != WAVE { return Err(InvalidWave); }
    src := src[12..];
    ghost var goal := ReadChunks(src, NO_FORMAT, false);
    var fmt, haveFmt := NO_FORMAT, false;
    var data: seq<byte> := [];
    var done := false;
    while !done
      invariant if done then goal == Ok(Chunks(fmt, haveFmt, data))
                else goal == ReadChunks(src, fmt, haveFmt) && data == []
      decreases if done then 0 else 1, |src|
    {
      if |src| < 4 {
        done := true;
      } else if |src| < 8 {
        return Err(Io);
      } else {
        var id, size := src[..4], Read32(src[4..8]);
        var padded := size + size % 2;
        if id == FMT {
          if |src| < 8 + size { return Err(Io); }
          if size < 16 { return Err(MissingFmt); }
          fmt, haveFmt := ParseFormat(src[8..8 + size]), true;
          if |src| < 8 + padded { return Err(Io); }
          src := src[8 + padded..];
        } else if |src| < 8 + padded {
          return Err(Io);
        } else if id == DATA {
          data := src[8..8 + size];
          done := true;
        } else {
          src := src[8 + padded..];
        }
      }
    }
    if !haveFmt { return Err(MissingFmt); }
    if data == [] { return Err(MissingData); }
    if fmt.tag != 1 { return Err(UnsupportedFormat(fmt.tag)); }
    if fmt.channels != 1 && fmt.channels != 2 { return Err(UnsupportedChannels(fmt.channels)); }
    if fmt.bits !in {8, 16, 24, 32} { return Err(UnsupportedBitDepth(fmt.bits)); }
    var samples := ReadSamples(data, fmt.bits);
    r := Ok(Buffer(fmt.rate, fmt.channels, samples));
  }

  // ---------------------------------------------------------------- unknown chunks

  datatype Chunk = Chunk(id: seq<byte>, body: seq<byte>)

  ghost predicate Proper(c: Chunk) { |c.id| == 4 && |c.body| < 0x1_0000_0000 }

  /** A chunk as it stands in a file, padded to an even length. */
  function ChunkBytes(c: Chunk): seq<byte> {
    c.id + LE32(|c.body|) + c.body + if |c.body| % 2 == 1 then [0] else []
  }

  function Serialize(cs: seq<Chunk>): seq<byte> { if cs == [] then [] else ChunkBytes(cs[0]) + Serialize(cs[1..]) }

  predicate Known(c: Chunk) { c.id == FMT || c.id == DATA }

  function KnownOnes(cs: seq<Chunk>): seq<Chunk> {
    if cs == [] then [] else (if Known(cs[0]) then [cs[0]] else []) + KnownOnes(cs[1..])
  }

  lemma LE32RoundTrip(v: nat)
    requires v < 0x1_0000_0000
    ensures Read32(LE32(v)) == v
  {
    var a := v / 0x100;
    var b := a / 0x100;
    var c := b / 0x100;
    assert b == v / 0x1_0000 && c == v / 0x100_0000 && c < 0x100;
    assert v == v % 0x100 + 0x100 * a && a == a % 0x100 + 0x100 * b && b == b % 0x100 + 0x100 * c;
  }

  /** The fields of a chunk at the front of the input. */
  lemma ChunkFront(c: Chunk, rest: seq<byte>)
    requires Proper(c)
    ensures var bytes := ChunkBytes(c) + rest; var size := |c.body|; var padded := size + size % 2;
            && |bytes| == 8 + padded + |rest| && bytes[..4] == c.id && Read32(bytes[4..8]) == size
            && bytes[8..8 + size] == c.body && bytes[8 + padded..] == rest
  {
    LE32RoundTrip(|c.body|);
    var bytes := ChunkBytes(c) + rest;
    assert bytes[..4] == c.id;
    assert bytes[4..8] == LE32(|c.body|);
  }

  /** Reading over one chunk. */
  lemma ReadOne(c: Chunk, rest: seq<byte>, fmt: Format, haveFmt: bool)
    requires Proper(c) && (c.id == FMT ==> |c.body| >= 16)
    ensures ReadChunks(ChunkBytes(c) + rest, fmt, haveFmt) ==
            if c.id == FMT then ReadChunks(rest, ParseFormat(c.body), true)
            else if c.id == DATA then Ok(Chunks(fmt, haveFmt, c.body))
            else ReadChunks(rest, fmt, haveFmt)
  {
    ChunkFront(c, rest);
  }

  /** Unknown chunks before the data, however many and wherever, do not change what is read. */
  lemma {:induction false} UnknownSkipped(cs: seq<Chunk>, rest: seq<byte>, fmt: Format, haveFmt: bool)
    requires forall k | 0 <= k < |cs| :: Proper(cs[k]) && cs[k].id != DATA && (cs[k].id == FMT ==> |cs[k].body| >= 16)
    ensures ReadChunks(Serialize(cs) + rest, fmt, haveFmt) == ReadChunks(Serialize(KnownOnes(cs)) + rest, fmt, haveFmt)
    decreases |cs|
  {
    if cs != [] {
      var c, more := cs[0], cs[1..];
      var tail := Serialize(more) + rest;
      assert Serialize(cs) + rest == ChunkBytes(c) + tail;
      ReadOne(c, tail, fmt, haveFmt);
      if Known(c) {
        var known := KnownOnes(more);
        assert KnownOnes(cs)[1..] == known;
        var tail1 := Serialize(known) + rest;
        assert Serialize(KnownOnes(cs)) + rest == ChunkBytes(c) + tail1;
        ReadOne(c, tail1, fmt, haveFmt);
        UnknownSkipped(more, rest, ParseFormat(c.body), true);
      } else {
        assert KnownOnes(cs) == KnownOnes(more);
        UnknownSkipped(more, rest, fmt, haveFmt);
      }
    }
  }

  /** A file with extra chunks before its data chunk decodes like the file without them. */
  lemma ExtraChunksIgnored(size: seq<byte>, cs: seq<Chunk>, data: seq<byte>)
    requires |size| == 4
    requires forall k | 0 <= k < |cs| :: Proper(cs[k]) && cs[k].id != DATA && (cs[k].id == FMT ==> |cs[k].body| >= 16)
    ensures Decode(RIFF + size + WAVE + (Serialize(cs) + data))
        == Decode(RIFF + size + WAVE + (Serialize(KnownOnes(cs)) + data))
  {
    UnknownSkipped(cs, data, NO_FORMAT, false);
    HeaderFront(size, Serialize(cs) + data);
    HeaderFront(size, Serialize(KnownOnes(cs)) + data);
  }

  lemma HeaderFront(size: seq<byte>, rest: seq<byte>)
    requires |size| == 4
    ensures var bytes := RIFF + size + WAVE + rest;
            |bytes| == 12 + |rest| && bytes[..4] == RIFF && bytes[8..12] == WAVE && bytes[12..] == rest
  {
    var bytes := RIFF + size + WAVE + rest;
    assert bytes[..4] == RIFF;
    assert bytes[8..12] == WAVE;
  }

  // ---------------------------------------------------------------- round trip

  lemma PcmBounds(x: real)
    requires -1.0 <= x <= 1.0
    ensures -32767 <= Round(x * 32767.0) <= 32767
    ensures -0.5 <= Round(x * 32767.0) as real - x * 32767.0 <= 0.5
  {
    var y := x * 32767.0;
    assert -32767.0 <= y <= 32767.0;
  }

  lemma Read16RoundTrip(p: int)
    requires -32768 <= p < 32768
    ensures Signed(Read16(Encode16(p)), 0x1_0000) == p
  {
    var v := p % 0x1_0000;
    assert v == v % 0x100 + 0x100 * (v / 0x100) && v / 0x100 < 0x100;
    assert v == if p >= 0 then p else p + 0x1_0000;
  }

  lemma {:induction false} DataAt(samples: seq<real>, volume: real, i: nat)
    requires i < |samples|
    ensures |DataBytes(samples, volume)| == 2 * |samples|
    ensures DataBytes(samples, volume)[2 * i..2 * i + 2] == Encode16(Pcm(samples[i], volume))
  {
    DataLength(samples, volume);
    var n := |samples| - 1;
    var front := DataBytes(samples[..n], volume);
    DataLength(samples[..n], volume);
    var all := DataBytes(samples, volume);
    if i == n {
      assert all[2 * i..2 * i + 2] == Encode16(Pcm(samples[i], volume));
    } else {
      DataAt(samples[..n], volume, i);
      assert all[2 * i..2 * i + 2] == front[2 * i..2 * i + 2];
    }
  }

  function Abs(x: real): real { if x < 0.0 then -x else x }

  /** The error of one sample. */
  lemma SampleError(sample: real, volume: real)
    ensures var c := Clamp(sample * Gain(volume));
            -32767 <= Pcm(sample, volume) <= 32767 && Abs(Pcm(sample, volume) as real / 32768.0 - c) <= 1.5 / 32768.0
  {
    var c := Clamp(sample * Gain(volume));
    PcmBounds(c);
    var p := Pcm(sample, volume) as real;
    assert p - 32768.0 * c == (p - c * 32767.0) - c;
    assert -1.5 <= p - 32768.0 * c <= 1.5;
    assert p / 32768.0 - c == (p - 32768.0 * c) / 32768.0;
  }

  ghost predicate Fits(buf: Buffer) {
    buf.rate < 0x1_0000_0000 && buf.channels < 0x8000 && 36 + 2 * |buf.samples| < 0x1_0000_0000
        && buf.rate * (buf.channels * 2) < 0x1_0000_0000
  }

  lemma LE16RoundTrip(v: nat)
    requires v < 0x1_0000
    ensures Read16(LE16(v)) == v
  {
    assert v == v % 0x100 + 0x100 * (v / 0x100) && v / 0x100 < 0x100;
  }

  /** Where the fields of a format body stand. */
  lemma FieldSlices(tag: seq<byte>, channels: seq<byte>, rate: seq<byte>, byteRate: seq<byte>, align: seq<byte>,
          bits: seq<byte>)
    requires |tag| == |channels| == |align| == |bits| == 2 && |rate| == |byteRate| == 4
    ensures var body := tag + channels + rate + byteRate + align + bits;
            |body| == 16 && body[0..2] == tag && body[2..4] == channels && body[4..8] == rate && body[14..16] == bits
  {
  }

  lemma FormatRoundTrip(rate: nat, channels: nat)
    requires rate < 0x1_0000_0000 && channels < 0x8000
    ensures |FmtBody(rate, channels)| == 16 && ParseFormat(FmtBody(rate, channels)) == Format(1, channels, rate, 16)
  {
    var byteRate := rate * (channels * 2);
    FieldSlices(LE16(1), LE16(channels), LE32(rate), LE32(byteRate), LE16(channels * 2), LE16(16));
    LE32RoundTrip(rate);
    LE16RoundTrip(channels);
    LE16RoundTrip(1);
    LE16RoundTrip(16);
  }

  /** The chunks of a written file. */
  lemma WrittenChunks(buf: Buffer, volume: real)
    requires Fits(buf)
    ensures Decode(FileBytes(buf, volume))
        == Finish(Chunks(Format(1, buf.channels, buf.rate, 16), true, DataBytes(buf.samples, volume)))
  {
    var data := DataBytes(buf.samples, volume);
    DataLength(buf.samples, volume);
    var f, d := Chunk(FMT, FmtBody(buf.rate, buf.channels)), Chunk(DATA, data);
    FormatRoundTrip(buf.rate, buf.channels);
    assert ChunkBytes(f) == FMT + LE32(16) + FmtBody(buf.rate, buf.channels);
    assert ChunkBytes(d) == DATA + LE32(2 * |buf.samples|) + data;
    var size := LE32(36 + 2 * |buf.samples|);
    var body := ChunkBytes(f) + ChunkBytes(d);
    assert FileBytes(buf, volume) == RIFF + size + WAVE + body;
    HeaderFront(size, body);
    ReadOne(f, ChunkBytes(d), NO_FORMAT, false);
    assert ChunkBytes(d) + [] == ChunkBytes(d);
    ReadOne(d, [], ParseFormat(f.body), true);
  }

  /** A written buffer is read back, with its rate, its channels and as many samples, each within
      one and a half steps of the clamped scaled input, exactly when it is mono or stereo and not
      empty: the writer also writes what the reader refuses. */
  lemma WriteThenRead(buf: Buffer, volume: real)
    requires Fits(buf)
    ensures var r := Decode(FileBytes(buf, volume));
            && (r.Ok? <==> buf.samples != [] && (buf.channels == 1 || buf.channels == 2))
            && (r.Ok? ==> r.value.rate == buf.rate && r.value.channels == buf.channels
                          && |r.value.samples| == |buf.samples|
                          && forall i | 0 <= i < |buf.samples| ::
                               Abs(r.value.samples[i] - Clamp(buf.samples[i] * Gain(volume))) <= 1.5 / 32768.0)
  {
    hide DataBytes, FileBytes, Decode, ReadChunks, Encode16;
    WrittenChunks(buf, volume);
    var data, r := DataBytes(buf.samples, volume), Decode(FileBytes(buf, volume));
    DataLength(buf.samples, volume);
    if r.Ok? {
      forall i | 0 <= i < |buf.samples|
        ensures Abs(r.value.samples[i] - Clamp(buf.samples[i] * Gain(volume))) <= 1.5 / 32768.0
      {
        DataAt(buf.samples, volume, i);
        SampleError(buf.samples[i], volume);
        Read16RoundTrip(Pcm(buf.samples[i], volume));
        assert r.value.samples[i] == SampleAt(data, 16, i);
        assert data[i * 2..(i + 1) * 2] == data[2 * i..2 * i + 2];
      }
    }
  }

  // ---------------------------------------------------------------- the header of a written file

  predicate Letters(b: seq<byte>, word: string) {
    |b| == |word| && forall i | 0 <= i < |b| :: b[i] as int == word[i] as int
  }

  /** Where the parts of a file stand. */
  lemma FileSlices(size: seq<byte>, fmtSize: seq<byte>, tag: seq<byte>, channels: seq<byte>, rate: seq<byte>,
          byteRate: seq<byte>, align: seq<byte>, bits: seq<byte>, dataSize: seq<byte>, data: seq<byte>)
    requires |size| == |fmtSize| == |rate| == |byteRate| == |dataSize| == 4
    requires |tag| == |channels| == |align| == |bits| == 2
    ensures var b := RIFF + size + WAVE + (FMT + fmtSize + (tag + channels + rate + byteRate + align + bits))
                   + (DATA + dataSize + data);
            && |b| == 44 + |data| && b[..4] == RIFF && b[4..8] == size && b[8..12] == WAVE && b[12..16] == FMT
            && b[16..20] == fmtSize && b[20..22] == tag && b[22..24] == channels && b[24..28] == rate
            && b[28..32] == byteRate && b[32..34] == align && b[34..36] == bits && b[36..40] == DATA
            && b[40..44] == dataSize && b[44..] == data
  {
    var start, body := RIFF + size + WAVE, tag + channels + rate + byteRate + align + bits;
    var fmt, rest := FMT + fmtSize + body, DATA + dataSize + data;
    var b := start + fmt + rest;
    assert |start| == 12 && |body| == 16 && |fmt| == 24;
    assert b[..12] == start && b[12..36] == fmt && b[36..] == rest;
    assert fmt[..4] == FMT && fmt[4..8] == fmtSize && fmt[8..] == body;
    assert rest[..4] == DATA && rest[4..8] == dataSize && rest[8..] == data;
    assert b[20..36] == body;
  }

  /** The header of a written file: the words, the sizes of what follows them, and the format with the bytes a
      second and the bytes a frame. */
  lemma HeaderFields(buf: Buffer, volume: real)
    requires Fits(buf)
    ensures var b := FileBytes(buf, volume);
            && |b| == 44 + 2 * |buf.samples|
            && Letters(b[..4], "RIFF") && Read32(b[4..8]) == |b| - 8 && Letters(b[8..12], "WAVE")
            && Letters(b[12..16], "fmt ") && Read32(b[16..20]) == 16
            && Read16(b[20..22]) == 1 && Read16(b[22..24]) == buf.channels && Read32(b[24..28]) == buf.rate
            && Read32(b[28..32]) == buf.rate * (buf.channels * 2) && Read16(b[32..34]) == buf.channels * 2
            && Read16(b[34..36]) == 16
            && Letters(b[36..40], "data") && Read32(b[40..44]) == |b| - 44
  {
    hide DataBytes, LE16, LE32, Read16, Read32;
    var byteRate, align, n := buf.rate * (buf.channels * 2), buf.channels * 2, 2 * |buf.samples|;
    DataLength(buf.samples, volume);
    FieldLengths(36 + n, 16, buf.rate, byteRate, n, buf.channels, align);
    FileSlices(LE32(36 + n), LE32(16), LE16(1), LE16(buf.channels), LE32(buf.rate), LE32(byteRate),
               LE16(align), LE16(16), LE32(n), DataBytes(buf.samples, volume));
  }

  lemma FieldLengths(a: nat, b: nat, c: nat, d: nat, e: nat, f: nat, g: nat)
    requires a < 0x1_0000_0000 && b < 0x1_0000_0000 && c < 0x1_0000_0000 && d < 0x1_0000_0000 && e < 0x1_0000_0000
    requires f < 0x1_0000 && g < 0x1_0000
    ensures |LE32(a)| == |LE32(b)| == |LE32(c)| == |LE32(d)| == |LE32(e)| == 4
    ensures |LE16(1)| == |LE16(f)| == |LE16(g)| == |LE16(16)| == 2
    ensures Read32(LE32(a)) == a && Read32(LE32(b)) == b && Read32(LE32(c)) == c && Read32(LE32(d)) == d
         && Read32(LE32(e)) == e
    ensures Read16(LE16(1)) == 1 && Read16(LE16(f)) == f && Read16(LE16(g)) == g && Read16(LE16(16)) == 16
  {
    LE32RoundTrip(a);
    LE32RoundTrip(b);
    LE32RoundTrip(c);
    LE32RoundTrip(d);
    LE32RoundTrip(e);
    LE16RoundTrip(f);
    LE16RoundTrip(g);
  }

  // ---------------------------------------------------------------- samples of all depths

  /** Half the range of a sample. */
  function Half(bits: nat): int
    requires bits in {8, 16, 24, 32}
  {
    if bits == 8 then 0x80 else if bits == 16 then 0x8000 else if bits == 24 then 0x80_0000 else 0x8000_0000
  }

  function LittleEndian(v: nat, n: nat): (b: seq<byte>)
    ensures |b| == n
  {
    if n == 0 then [] else [v % 0x100] + LittleEndian(v / 0x100, n - 1)
  }

  /** How PCM writes a sample: eight bits with an offset, more in two's complement, the low byte first. */
  function PcmBytes(p: int, bits: nat): (b: seq<byte>)
    requires bits in {8, 16, 24, 32} && -Half(bits) <= p < Half(bits)
    ensures |b| == bits / 8
  {
    LittleEndian(if bits == 8 then p + 0x80 else if p < 0 then p + 2 * Half(bits) else p, bits / 8)
  }

  /** At every depth a sample reads as its integer over half the range, in the interval from -1 up to 1. */
  lemma SampleIs(p: int, bits: nat)
    requires bits in {8, 16, 24, 32} && -Half(bits) <= p < Half(bits)
    ensures Sample(PcmBytes(p, bits), bits) == p as real / Half(bits) as real
    ensures -1.0 <= Sample(PcmBytes(p, bits), bits) < 1.0
  {
    var v: nat := if bits == 8 then p + 0x80 else if p < 0 then p + 2 * Half(bits) else p;
    hide LittleEndian, Sample;
    BytesOf(v, bits / 8);
    SampleOf(LittleEndian(v, bits / 8), bits, v);
    var x := p as real / Half(bits) as real;
    assert -1.0 <= x < 1.0;
  }

  lemma SampleOf(b: seq<byte>, bits: nat, v: nat)
    requires bits in {8, 16, 24, 32} && |b| == bits / 8 && v < 2 * Half(bits)
    requires v == b[0] as int + (if bits > 8 then b[1] as int * 0x100 else 0)
                      + (if bits > 16 then b[2] as int * 0x1_0000 else 0)
                      + (if bits > 24 then b[3] as int * 0x100_0000 else 0)
    ensures Sample(b, bits)
         == (if bits == 8 then v - 0x80 else if v < Half(bits) then v else v - 2 * Half(bits)) as real
            / Half(bits) as real
  {}

  /** The bytes of a number of up to four bytes. */
  lemma BytesOf(v: nat, n: nat)
    requires 1 <= n <= 4 && v < (if n == 1 then 0x100 else if n == 2 then 0x1_0000 else if n == 3 then 0x100_0000
                                 else 0x1_0000_0000)
    ensures var b := LittleEndian(v, n);
            v == b[0] as int + (if n > 1 then b[1] as int * 0x100 else 0)
                             + (if n > 2 then b[2] as int * 0x1_0000 else 0)
                             + (if n > 3 then b[3] as int * 0x100_0000 else 0)
  {
    var a := v / 0x100;
    var b := a / 0x100;
    var c := b / 0x100;
    assert v == v % 0x100 + 0x100 * a && a == a % 0x100 + 0x100 * b && b == b % 0x100 + 0x100 * c;
    assert LittleEndian(v, n) == [v % 0x100] + LittleEndian(a, n - 1);
    if n > 1 { assert LittleEndian(a, n - 1) == [a % 0x100] + LittleEndian(b, n - 2); }
    if n > 2 { assert LittleEndian(b, n - 2) == [b % 0x100] + LittleEndian(c, n - 3); }
    if n > 3 { assert LittleEndian(c, n - 3) == [c % 0x100] + LittleEndian(c / 0x100, n - 4); }
  }

  ghost predicate InRange(ps: seq<int>, bits: nat) {
    bits in {8, 16, 24, 32} && forall i | 0 <= i < |ps| :: -Half(bits) <= ps[i] < Half(bits)
  }

  /** The samples of a chunk of data are read in order, each from its own bytes; what is left over is dropped. */
  lemma {:induction false} SamplesAre(ps: seq<int>, bits: nat, more: seq<byte>)
    requires InRange(ps, bits) && |more| < bits / 8
    ensures var s := Samples(AllBytes(ps, bits) + more, bits);
            |s| == |ps| && forall i | 0 <= i < |ps| :: s[i] == ps[i] as real / Half(bits) as real
  {
    hide Sample, PcmBytes, AllBytes, Half;
    var w := bits / 8;
    var data := AllBytes(ps, bits) + more;
    AllBytesLength(ps, bits);
    assert |data| / w == |ps| by { WholeSamples(|ps|, w, |more|); }
    forall i | 0 <= i < |ps| ensures Samples(data, bits)[i] == ps[i] as real / Half(bits) as real {
      BytesAt(ps, bits, i, i * w, more);
      SampleFits(|data|, w, i);
      SampleIs(ps[i], bits);
    }
  }

  ghost function AllBytes(ps: seq<int>, bits: nat): seq<byte>
    requires InRange(ps, bits)
  {
    if ps == [] then [] else PcmBytes(ps[0], bits) + AllBytes(ps[1..], bits)
  }

  lemma WholeSamples(n: nat, w: nat, rest: nat)
    requires rest < w <= 4
    ensures (n * w + rest) / w == n
  {
    if w == 1 { assert (n * 1 + rest) / 1 == n; }
    else if w == 2 { assert (n * 2 + rest) / 2 == n; }
    else if w == 3 { assert (n * 3 + rest) / 3 == n; }
    else { assert (n * 4 + rest) / 4 == n; }
  }

  lemma {:induction false} AllBytesLength(ps: seq<int>, bits: nat)
    requires InRange(ps, bits)
    ensures |AllBytes(ps, bits)| == |ps| * (bits / 8)
  {
    if ps != [] { AllBytesLength(ps[1..], bits); }
  }

  /** The bytes of the sample `i` stand at `i` times their number. */
  lemma {:induction false} BytesAt(ps: seq<int>, bits: nat, i: nat, at: nat, more: seq<byte>)
    requires InRange(ps, bits) && i < |ps| && at == i * (bits / 8)
    ensures var w, data := bits / 8, AllBytes(ps, bits) + more;
            at + w <= |data| && data[at..at + w] == PcmBytes(ps[i], bits)
    decreases i
  {
    hide PcmBytes, Half;
    var w, head, tail := bits / 8, PcmBytes(ps[0], bits), AllBytes(ps[1..], bits) + more;
    FirstBytes(ps, bits, more);
    hide AllBytes;
    if i > 0 {
      Before(i, w, at);
      BytesAt(ps[1..], bits, i - 1, at - w, more);
      SliceAfter(head, tail, at - w, at);
    }
  }

  lemma FirstBytes(ps: seq<int>, bits: nat, more: seq<byte>)
    requires InRange(ps, bits) && ps != []
    ensures InRange(ps[1..], bits)
    ensures AllBytes(ps, bits) + more == PcmBytes(ps[0], bits) + (AllBytes(ps[1..], bits) + more)
  {
    hide PcmBytes, Half;
  }

  lemma Before(i: nat, w: nat, at: nat)
    requires i > 0 && at == i * w
    ensures at - w == (i - 1) * w >= 0
  {}

  lemma SliceAfter(head: seq<byte>, tail: seq<byte>, a: nat, b: nat)
    requires a <= b <= |tail|
    ensures (head + tail)[|head| + a..|head| + b] == tail[a..b]
  {}

  /** Rounding is to the nearest integer, and halves go away from zero. */
  lemma RoundIs(x: real)
    ensures var r := Round(x) as real;
            Abs(r - x) <= 0.5 && (Abs(r - x) == 0.5 ==> Abs(r) > Abs(x))
  {}

  /** What is written for a sample: nothing at a volume that is not positive, the scaled sample in the interval from
      -1 to 1, and the nearer end outside it. */
  lemma LevelIs(sample: real, volume: real)
    ensures var level := Clamp(sample * Gain(volume));
            && (volume <= 0.0 ==> level == 0.0)
            && (volume >= 0.0 && -1.0 <= sample * volume <= 1.0 ==> level == sample * volume)
            && (volume >= 0.0 && sample * volume > 1.0 ==> level == 1.0)
            && (volume >= 0.0 && sample * volume < -1.0 ==> level == -1.0)
            && -1.0 <= level <= 1.0
  {
    if volume <= 0.0 { assert Gain(volume) == 0.0 && sample * Gain(volume) == 0.0; }
  }

  /** As the nearest integer to its level on a scale of 32767 up and down. */
  lemma PcmIs(sample: real, volume: real)
    ensures var level := Clamp(sample * Gain(volume)) * 32767.0; var p := Pcm(sample, volume) as real;
            Abs(p - level) <= 0.5 && (Abs(p - level) == 0.5 ==> Abs(p) > Abs(level))
  {
    RoundIs(Clamp(sample * Gain(volume)) * 32767.0);
  }

  // ---------------------------------------------------------------- what is refused

  /** The two words at the front decide the first errors. */
  lemma WordsIff(bytes: seq<byte>)
    ensures Decode(bytes) == Err(InvalidRiff) <==> |bytes| >= 4 && !Letters(bytes[..4], "RIFF")
    ensures Decode(bytes) == Err(InvalidWave) <==>
              |bytes| >= 12 && Letters(bytes[..4], "RIFF") && !Letters(bytes[8..12], "WAVE")
  {
    ErrorsOfChunks(if |bytes| < 12 then [] else bytes[12..], NO_FORMAT, false);
    if |bytes| >= 4 { assert bytes[..4] == RIFF <==> Letters(bytes[..4], "RIFF"); }
    if |bytes| >= 12 { assert bytes[8..12] == WAVE <==> Letters(bytes[8..12], "WAVE"); }
  }

  lemma {:induction false} ErrorsOfChunks(bytes: seq<byte>, fmt: Format, haveFmt: bool)
    ensures var r := ReadChunks(bytes, fmt, haveFmt); r.Err? ==> r.error == Io || r.error == MissingFmt
    decreases |bytes|
  {
    hide Read32, ParseFormat;
    if |bytes| >= 8 {
      var id, size := bytes[..4], Read32(bytes[4..8]);
      var padded := size + size % 2;
      if id == FMT && |bytes| >= 8 + padded && size >= 16 {
        ErrorsOfChunks(bytes[8 + padded..], ParseFormat(bytes[8..8 + size]), true);
      } else if id != FMT && id != DATA && |bytes| >= 8 + padded {
        ErrorsOfChunks(bytes[8 + padded..], fmt, haveFmt);
      }
    }
  }

  /** A written file that is cut short is refused: for lack of a format or of data where a chunk would start, and
      as an error of reading anywhere else. */
  lemma CutShort(buf: Buffer, volume: real, k: nat)
    requires Fits(buf) && k < |FileBytes(buf, volume)|
    ensures Decode(FileBytes(buf, volume)[..k]) ==
            if 12 <= k < 16 then Err(MissingFmt)
            else if 36 <= k < 40 then Err(MissingData)
            else Err(Io)
  {
    hide FmtBody, DataBytes, LE32, Read32, ParseFormat;
    var data, n := DataBytes(buf.samples, volume), 2 * |buf.samples|;
    DataLength(buf.samples, volume);
    FormatRoundTrip(buf.rate, buf.channels);
    var f, d := Chunk(FMT, FmtBody(buf.rate, buf.channels)), Chunk(DATA, data);
    var fb, db := ChunkBytes(f), ChunkBytes(d);
    LE32Lengths(36 + n, 16, n);
    var head := RIFF + LE32(36 + n) + WAVE;
    assert fb == FMT + LE32(16) + f.body && db == DATA + LE32(n) + data;
    assert FileBytes(buf, volume) == head + (fb + db);
    var cut := (head + (fb + db))[..k];
    if k < 12 {
      if k >= 4 { assert cut[..4] == RIFF; }
    } else {
      var rest := (fb + db)[..k - 12];
      assert cut == head + rest;
      HeaderFront(LE32(36 + n), rest);
      if k < 36 {
        assert rest == fb[..k - 12];
        CutChunk(f, k - 12, NO_FORMAT, false);
      } else {
        var more := db[..k - 36];
        assert rest == fb + more;
        ReadOne(f, more, NO_FORMAT, false);
        CutChunk(d, k - 36, ParseFormat(f.body), true);
      }
    }
  }

  lemma LE32Lengths(a: nat, b: nat, c: nat)
    ensures |LE32(a)| == |LE32(b)| == |LE32(c)| == 4
  {}

  /** A chunk that is cut short. */
  lemma CutChunk(c: Chunk, k: nat, fmt: Format, haveFmt: bool)
    requires Proper(c) && |c.body| % 2 == 0 && (c.id == FMT ==> |c.body| >= 16) && k < |ChunkBytes(c)|
    ensures ReadChunks(ChunkBytes(c)[..k], fmt, haveFmt)
         == if k < 4 then Ok(Chunks(fmt, haveFmt, [])) else Err(Io)
  {
    hide Read32, ParseFormat;
    ChunkFront(c, []);
    var all := ChunkBytes(c);
    assert all + [] == all;
    var cut := all[..k];
    if k >= 8 {
      assert cut[..4] == all[..4] && cut[4..8] == all[4..8];
    }
  }
}
