/**
 * The WAV chunk reader (src/wav_reader.cpp), and the writer it inverts: RIFF/WAVE as in chapter 3
 * of the IBM/Microsoft "Multimedia Programming Interface and Data Specifications 1.0".
 */
module Wav {
  import opened Base
  import opened Slices

  /** A 16-bit sample. */
  type sample = s: int | -0x8000 <= s < 0x8000

  /** An integer stored least significant byte first. */
  function LittleEndian(v: nat, n: nat): (b: seq<byte>)
    ensures |b| == n
    decreases n
  {
    if n == 0 then [] else [v % 256] + LittleEndian(v / 256, n - 1)
  }

  function Word16(b: seq<byte>, at: nat): (v: nat)
    requires at + 2 <= |b|
    ensures v < 0x1_0000
  {
    0x100 * (b[at + 1] as int) + b[at]
  }

  function Word32(b: seq<byte>, at: nat): (v: nat)
    requires at + 4 <= |b|
    ensures v < 0x1_0000_0000
  {
    0x100_0000 * (b[at + 3] as int) + 0x1_0000 * (b[at + 2] as int) + 0x100 * (b[at + 1] as int)
    + b[at]
  }

  /** A 32-bit pattern read as an int, and a 16-bit one read as an int16_t. */
  function Signed32(v: nat): int {
    if v < 0x8000_0000 then v else v - 0x1_0000_0000
  }

  function Signed16(v: nat): sample
    requires v < 0x1_0000
  {
    if v < 0x8000 then v else v - 0x1_0000
  }

  /** Sizes from here on overflow an int when the chunk header is added to them. */
  const SIZE_LIMIT := 0x7fff_fff8

  /**
   * A chunk at the head of a buffer: absent, or its name and size. A size with its top bit set
   * is a negative int, which added to 8 turns into more than any buffer holds; only for the last
   * eight does the sum stay small. What follows those, and sizes that overflow, is not defined.
   */
  datatype Chunk = NoChunk | Chunk(name: seq<byte>, size: nat) | Overflow

  function ReadChunk(b: seq<byte>): (c: Chunk)
    ensures c.Chunk? ==> 8 + c.size <= |b|
  {
    if |b| < 8 then NoChunk
    else
      var size := Word32(b, 4);
      if SIZE_LIMIT <= size < 0x8000_0000 || size >= 0xffff_fff8 then Overflow
      else if size >= 0x8000_0000 || |b| < size + 8 then NoChunk
      else Chunk(b[..4], size)
  }

  function Samples(b: seq<byte>, n: nat): (s: seq<sample>)
    requires 2 * n <= |b|
    ensures |s| == n
    ensures forall i :: 0 <= i < n ==> s[i] == Signed16(Word16(b, 2 * i))
  {
    seq(n, i requires 0 <= i < n => Signed16(Word16(b, 2 * i)))
  }

  /** What Load leaves in the object, and what it returns. */
  datatype Wave = Wave(channels: int, sampleRate: int, data: seq<sample>)
  datatype Loaded = Returned(code: int, wave: Wave) | Undefined

  /** The walk over the chunks that follow the format. */
  function LoadData(b: seq<byte>, wave: Wave): Loaded
    decreases |b|
  {
    match ReadChunk(b)
    case Overflow => Undefined
    case NoChunk => Returned(-10, wave)
    case Chunk(name, size) =>
      if name != Ascii("data") then LoadData(b[8 + size..], wave)
      else Returned(0, wave.(data := wave.data + Samples(b[8..8 + size], size / 2)))
  }

  /** What the first chunk says, and the chunks that follow it, or how the load ends there. */
  datatype Format =
    | Format(channels: int, sampleRate: int, rest: seq<byte>)
    | Refused(code: int)
    | Unknown

  function ReadFormat(b: seq<byte>): Format {
    match ReadChunk(b)
    case Overflow => Unknown
    case NoChunk => Refused(-7)
    case Chunk(name, size) =>
      if name != Ascii("fmt ") then Refused(-8)
      else if |b| < 24 then Unknown
      else if Word16(b, 8) != 1 then Refused(-9)
      else if Word16(b, 10) != 1 && Word16(b, 10) != 2 then Refused(1)
      else if Word16(b, 22) != 16 then Refused(-4)
      else Format(Word16(b, 10), Signed32(Word32(b, 12)), b[8 + size..])
  }

  function LoadFormat(b: seq<byte>, wave: Wave): Loaded {
    match ReadFormat(b)
    case Unknown => Undefined
    case Refused(code) => Returned(code, wave)
    case Format(channels, rate, rest) =>
      LoadData(rest, wave.(channels := channels, sampleRate := rate))
  }

  function LoadFile(b: seq<byte>, wave: Wave): Loaded {
    if |b| < 20 then Returned(-1, wave)
    else if b[..4] != Ascii("RIFF") then Returned(-5, wave)
    else if b[8..12] != Ascii("WAVE") then Returned(-6, wave)
    else LoadFormat(b[12..], wave)
  }

  class WavReader {
    var channels: int
    var sampleRate: int
    var data: seq<sample>

    function Value(): Wave
      reads this
    {
      Wave(channels, sampleRate, data)
    }

    /** Some(code) if Load returns; None where what it does is not defined. */
    method Load(ptr: seq<byte>) returns (r: Option<int>)
      modifies this
      ensures match LoadFile(ptr, old(Value()))
              case Returned(code, wave) => r == Some(code) && Value() == wave
              case Undefined => r == None
    {
      if |ptr| < 20 {
        return Some(-1);
      }
      if ptr[..4] != Ascii("RIFF") {
        return Some(-5);
      }
      if ptr[8..12] != Ascii("WAVE") {
        return Some(-6);
      }
      var cbuf := ptr[12..];
      var chunk := ReadChunk(cbuf);
      if chunk == Overflow {
        return None;
      }
      if chunk == NoChunk {
        return Some(-7);
      }
      var p := cbuf;
      cbuf := cbuf[8 + chunk.size..];
      if chunk.name != Ascii("fmt ") {
        return Some(-8);
      }
      if |p| < 24 {
        return None;
      }
      if Word16(p, 8) != 1 {
        return Some(-9);
      }
      var count := Word16(p, 10);
      if count != 1 && count != 2 {
        return Some(1);
      }
      if Word16(p, 22) != 16 {
        return Some(-4);
      }
      channels := count;
      sampleRate := Signed32(Word32(p, 12));
      r := LoadChunks(cbuf);
    }

    method LoadChunks(chunks: seq<byte>) returns (r: Option<int>)
      modifies this`data
      ensures match LoadData(chunks, old(Value()))
              case Returned(code, wave) => r == Some(code) && Value() == wave
              case Undefined => r == None
    {
      var cbuf := chunks;
      while true
        invariant Value() == old(Value())
        invariant LoadData(cbuf, Value()) == LoadData(chunks, Value())
        decreases |cbuf|
      {
        var chunk := ReadChunk(cbuf);
        if chunk == Overflow {
          return None;
        }
        if chunk == NoChunk {
          return Some(-10);
        }
        var body := cbuf[8..8 + chunk.size];
        cbuf := cbuf[8 + chunk.size..];
        if chunk.name != Ascii("data") {
          continue;
        }
        AppendSamples(body, chunk.size / 2);
        return Some(0);
      }
    }

    method AppendSamples(body: seq<byte>, n: nat)
      requires 2 * n <= |body|
      modifies this`data
      ensures data == old(data) + Samples(body, n)
    {
      for i := 0 to n
        invariant data == old(data) + Samples(body, n)[..i]
      {
        data := data + [Signed16(Word16(body, 2 * i))];
      }
      assert Samples(body, n)[..n] == Samples(body, n);
    }
  }

  // ----- writing -----

  /** The pad byte that follows a body of odd size. */
  function Pad(n: nat): seq<byte> {
    if n % 2 == 1 then [0] else []
  }

  /** A chunk, padded. */
  function EncodeChunk(name: seq<byte>, body: seq<byte>): seq<byte> {
    name + LittleEndian(|body|, 4) + body + Pad(|body|)
  }

  /** The 16-bit pattern of a sample. */
  function Pattern(s: sample): nat {
    if s < 0 then 0x1_0000 + (s as int) else s
  }

  function EncodeSamples(samples: seq<sample>): (b: seq<byte>)
    ensures |b| == 2 * |samples|
  {
    if samples == [] then []
    else LittleEndian(Pattern(samples[0]), 2)
         + EncodeSamples(samples[1..])
  }

  /** The format chunk: PCM, 16 bits, any byte rate and alignment, and any extension. */
  function FormatBody(channels: nat, rate: nat, byteRate: nat, align: nat, extra: seq<byte>):
    (b: seq<byte>)
    ensures |b| == 16 + |extra|
  {
    LittleEndian(1, 2) + LittleEndian(channels, 2) + LittleEndian(rate, 4)
    + LittleEndian(byteRate, 4) + LittleEndian(align, 2) + LittleEndian(16, 2) + extra
  }

  /** A chunk that stands between the format and the data. */
  datatype Other = Other(name: seq<byte>, body: seq<byte>)

  predicate Named(o: Other) {
    |o.name| == 4 && o.name != Ascii("data") && |o.body| < SIZE_LIMIT
  }

  predicate Skippable(o: Other) {
    Named(o) && |o.body| % 2 == 0
  }

  function EncodeOthers(others: seq<Other>): seq<byte> {
    if others == [] then [] else EncodeChunk(others[0].name, others[0].body) + EncodeOthers(others[1..])
  }

  /** A WAV file; `trailer` is whatever follows the data chunk. */
  function Encode(riffSize: nat, channels: nat, rate: nat, byteRate: nat, align: nat,
                  extra: seq<byte>, others: seq<Other>, samples: seq<sample>,
                  trailer: seq<byte>): seq<byte>
  {
    Ascii("RIFF") + LittleEndian(riffSize, 4) + Ascii("WAVE")
    + (EncodeChunk(Ascii("fmt "), FormatBody(channels, rate, byteRate, align, extra))
       + (EncodeOthers(others)
          + (EncodeChunk(Ascii("data"), EncodeSamples(samples)) + trailer)))
  }

  // ----- reading back -----

  lemma Word32RoundTrip(v: nat, b: seq<byte>, at: nat)
    requires v < 0x1_0000_0000 && at + 4 <= |b| && b[at..at + 4] == LittleEndian(v, 4)
    ensures Word32(b, at) == v
  {
    var word := b[at..at + 4];
    var hi := LittleEndian(v / 256 / 256, 2);
    assert word == [v % 256] + ([v / 256 % 256] + hi);
    assert hi == [v / 256 / 256 % 256] + ([v / 256 / 256 / 256 % 256] + []);
    assert b[at] == word[0] && b[at + 1] == word[1] && b[at + 2] == word[2] && b[at + 3] == word[3];
  }

  lemma Word16RoundTrip(v: nat, b: seq<byte>, at: nat)
    requires v < 0x1_0000 && at + 2 <= |b| && b[at..at + 2] == LittleEndian(v, 2)
    ensures Word16(b, at) == v
  {
    var word := b[at..at + 2];
    assert word == [v % 256] + ([v / 256 % 256] + LittleEndian(v / 256 / 256, 0));
    assert b[at] == word[0] && b[at + 1] == word[1];
  }

  lemma ChunkParts(name: seq<byte>, body: seq<byte>, rest: seq<byte>)
    requires |name| == 4
    ensures var b := EncodeChunk(name, body) + rest;
            var pad := Pad(|body|);
            && |b| == 8 + |body| + |pad| + |rest|
            && b[..4] == name && b[4..8] == LittleEndian(|body|, 4)
            && b[8..8 + |body|] == body && b[8 + |body|..] == pad + rest
  {
    var pad := Pad(|body|);
    var size := LittleEndian(|body|, 4);
    FourParts(name, size, body, pad + rest);
    assert name + size + body + (pad + rest) == name + size + body + pad + rest;
    assert EncodeChunk(name, body) == name + size + body + pad;
  }

  lemma ChunkIsRead(name: seq<byte>, body: seq<byte>, rest: seq<byte>)
    requires |name| == 4 && |body| < SIZE_LIMIT
    ensures var b := EncodeChunk(name, body) + rest;
            && ReadChunk(b) == Chunk(name, |body|)
            && b[8..8 + |body|] == body
            && b[8 + |body|..] == Pad(|body|) + rest
  {
    ChunkParts(name, body, rest);
    Word32RoundTrip(|body|, EncodeChunk(name, body) + rest, 4);
  }

  lemma WordShift(word: seq<byte>, rest: seq<byte>, at: nat)
    requires |word| == 2 && at + 2 <= |rest|
    ensures Word16(word + rest, 2 + at) == Word16(rest, at)
  {
  }

  lemma SignedPattern(s: sample)
    ensures Pattern(s) < 0x1_0000 && Signed16(Pattern(s)) == s
  {
  }

  lemma {:induction false} SampleIsRead(samples: seq<sample>, i: nat)
    requires i < |samples|
    ensures Word16(EncodeSamples(samples), 2 * i) == Pattern(samples[i])
    decreases i
  {
    var word, rest := LittleEndian(Pattern(samples[0]), 2), EncodeSamples(samples[1..]);
    if i == 0 {
      assert (word + rest)[0..2] == word;
      Word16RoundTrip(Pattern(samples[0]), word + rest, 0);
    } else {
      SampleIsRead(samples[1..], i - 1);
      WordShift(word, rest, 2 * (i - 1));
    }
  }

  lemma SampleDecodes(samples: seq<sample>, i: nat)
    requires i < |samples|
    ensures Signed16(Word16(EncodeSamples(samples), 2 * i)) == samples[i]
  {
    SampleIsRead(samples, i);
    SignedPattern(samples[i]);
  }

  lemma SamplesRoundTrip(samples: seq<sample>)
    ensures Samples(EncodeSamples(samples), |samples|) == samples
  {
    var bytes := EncodeSamples(samples);
    var read := Samples(bytes, |samples|);
    forall i | 0 <= i < |samples|
      ensures read[i] == samples[i]
    {
      assert read[i] == Signed16(Word16(bytes, 2 * i));
      SampleDecodes(samples, i);
    }
  }

  /** An even-sized chunk at the head of a buffer is read and leaves what follows. */
  lemma EvenChunkIsRead(name: seq<byte>, body: seq<byte>, rest: seq<byte>)
    requires |name| == 4 && |body| < SIZE_LIMIT && |body| % 2 == 0
    ensures var b := EncodeChunk(name, body) + rest;
            ReadChunk(b) == Chunk(name, |body|) && b[8 + |body|..] == rest
  {
    ChunkIsRead(name, body, rest);
    assert [] + rest == rest;
  }

  lemma OtherIsSkipped(o: Other, rest: seq<byte>, wave: Wave)
    requires Skippable(o)
    ensures LoadData(EncodeChunk(o.name, o.body) + rest, wave) == LoadData(rest, wave)
  {
    EvenChunkIsRead(o.name, o.body, rest);
  }

  lemma {:induction false} OthersAreSkipped(others: seq<Other>, rest: seq<byte>, wave: Wave)
    requires forall o :: o in others ==> Skippable(o)
    ensures LoadData(EncodeOthers(others) + rest, wave) == LoadData(rest, wave)
    decreases |others|
  {
    if others == [] {
      assert EncodeOthers(others) + rest == rest;
    } else {
      var o := others[0];
      assert o in others;
      var head, tail := EncodeChunk(o.name, o.body), EncodeOthers(others[1..]);
      OtherIsSkipped(o, tail + rest, wave);
      OthersAreSkipped(others[1..], rest, wave);
      assert (head + tail) + rest == head + (tail + rest);
    }
  }

  /** What a format chunk at the head of a buffer says. */
  predicate SaysFormat(b: seq<byte>, channels: nat, rate: nat) {
    && |b| >= 24
    && Word16(b, 8) == 1 && Word16(b, 10) == channels
    && Signed32(Word32(b, 12)) == rate && Word16(b, 22) == 16
  }

  lemma BodyParts(tag: seq<byte>, count: seq<byte>, speed: seq<byte>, bytes: seq<byte>,
                  align: seq<byte>, bits: seq<byte>, extra: seq<byte>)
    requires |tag| == |count| == |align| == |bits| == 2 && |speed| == |bytes| == 4
    ensures var body := tag + count + speed + bytes + align + bits + extra;
            body[0..2] == tag && body[2..4] == count && body[4..8] == speed && body[14..16] == bits
  {
  }

  lemma FormatParts(channels: nat, rate: nat, byteRate: nat, align: nat, extra: seq<byte>)
    ensures var body := FormatBody(channels, rate, byteRate, align, extra);
            && body[0..2] == LittleEndian(1, 2) && body[2..4] == LittleEndian(channels, 2)
            && body[4..8] == LittleEndian(rate, 4) && body[14..16] == LittleEndian(16, 2)
  {
    BodyParts(LittleEndian(1, 2), LittleEndian(channels, 2), LittleEndian(rate, 4),
              LittleEndian(byteRate, 4), LittleEndian(align, 2),
              LittleEndian(16, 2), extra);
  }

  lemma BodySaysFormat(b: seq<byte>, body: seq<byte>, channels: nat, rate: nat)
    requires channels < 0x1_0000 && rate < 0x8000_0000
    requires |body| >= 16 && |b| >= 8 + |body| && b[8..8 + |body|] == body
    requires body[0..2] == LittleEndian(1, 2) && body[2..4] == LittleEndian(channels, 2)
    requires body[4..8] == LittleEndian(rate, 4) && body[14..16] == LittleEndian(16, 2)
    ensures SaysFormat(b, channels, rate)
  {
    SubSlice(b, 8, |body|, 0, 2);
    SubSlice(b, 8, |body|, 2, 4);
    SubSlice(b, 8, |body|, 4, 8);
    SubSlice(b, 8, |body|, 14, 16);
    Word16RoundTrip(1, b, 8);
    Word16RoundTrip(channels, b, 10);
    Word32RoundTrip(rate, b, 12);
    Word16RoundTrip(16, b, 22);
  }

  /**
   * Every 16-bit PCM file with one or two channels, with any format extension, any even-sized
   * chunks before the data and anything behind it, loads with code 0 and gives back its channel
   * count, its rate and every sample.
   */
  lemma WavRoundTrip(riffSize: nat, channels: nat, rate: nat, byteRate: nat, align: nat,
                     extra: seq<byte>, others: seq<Other>, samples: seq<sample>,
                     trailer: seq<byte>, wave: Wave)
    requires channels == 1 || channels == 2
    requires rate < 0x8000_0000 && |extra| < 0x7000_0000 && |extra| % 2 == 0 && 2 * |samples| < SIZE_LIMIT
    requires forall o :: o in others ==> Skippable(o)
    ensures LoadFile(Encode(riffSize, channels, rate, byteRate, align, extra, others, samples, trailer),
                     wave)
         == Returned(0, Wave(channels, rate, wave.data + samples))
  {
    var dataChunk := EncodeChunk(Ascii("data"), EncodeSamples(samples)) + trailer;
    var rest := EncodeOthers(others) + dataChunk;
    var w := wave.(channels := channels, sampleRate := rate);
    OthersAreSkipped(others, dataChunk, w);
    DataIsRead(samples, trailer, w);
    FormatIsRead(channels, rate, byteRate, align, extra, rest);
    assert Pad(|extra|) + rest == rest;
    HeadIsRead(riffSize, EncodeChunk(Ascii("fmt "),
                                     FormatBody(channels, rate, byteRate, align, extra)) + rest);
  }

  lemma DataIsRead(samples: seq<sample>, trailer: seq<byte>, wave: Wave)
    requires 2 * |samples| < SIZE_LIMIT
    ensures LoadData(EncodeChunk(Ascii("data"), EncodeSamples(samples)) + trailer, wave)
         == Returned(0, wave.(data := wave.data + samples))
  {
    ChunkIsRead(Ascii("data"), EncodeSamples(samples), trailer);
    SamplesRoundTrip(samples);
  }

  lemma FormatIsRead(channels: nat, rate: nat, byteRate: nat, align: nat, extra: seq<byte>,
                     rest: seq<byte>)
    requires channels == 1 || channels == 2
    requires rate < 0x8000_0000 && |extra| < 0x7000_0000
    ensures ReadFormat(EncodeChunk(Ascii("fmt "),
                                   FormatBody(channels, rate, byteRate, align, extra)) + rest)
         == Format(channels, rate, Pad(|extra|) + rest)
  {
    FormatParts(channels, rate, byteRate, align, extra);
    BodyIsRead(FormatBody(channels, rate, byteRate, align, extra), channels, rate, rest);
  }

  lemma BodyIsRead(body: seq<byte>, channels: nat, rate: nat, rest: seq<byte>)
    requires channels == 1 || channels == 2
    requires rate < 0x8000_0000 && 16 <= |body| < SIZE_LIMIT
    requires body[0..2] == LittleEndian(1, 2) && body[2..4] == LittleEndian(channels, 2)
    requires body[4..8] == LittleEndian(rate, 4) && body[14..16] == LittleEndian(16, 2)
    ensures ReadFormat(EncodeChunk(Ascii("fmt "), body) + rest)
         == Format(channels, rate, Pad(|body| - 16) + rest)
  {
    var b := EncodeChunk(Ascii("fmt "), body) + rest;
    ChunkIsRead(Ascii("fmt "), body, rest);
    BodySaysFormat(b, body, channels, rate);
    FormatIsTaken(b, |body|, channels, rate);
  }

  lemma FormatIsTaken(b: seq<byte>, size: nat, channels: nat, rate: nat)
    requires ReadChunk(b) == Chunk(Ascii("fmt "), size) && SaysFormat(b, channels, rate)
    requires channels == 1 || channels == 2
    ensures ReadFormat(b) == Format(channels, rate, b[8 + size..])
  {
  }

  lemma HeadIsRead(riffSize: nat, rest: seq<byte>)
    requires |rest| >= 8
    ensures var b := Ascii("RIFF") + LittleEndian(riffSize, 4) + Ascii("WAVE") + rest;
            |b| >= 20 && b[..4] == Ascii("RIFF") && b[8..12] == Ascii("WAVE") && b[12..] == rest
  {
  }

  // ----- pad bytes -----

  /**
   * A data chunk and what follows it: less than 16 MiB of data, and no more behind it than about
   * 255 times as much.
   */
  predicate SmallData(body: seq<byte>, trailer: seq<byte>) {
    |body| < 0x100_0000 && |body| % 2 == 0 && |trailer| <= 95 + 255 * |body|
  }

  function DataAndTrailer(body: seq<byte>, trailer: seq<byte>): seq<byte> {
    EncodeChunk(Ascii("data"), body) + trailer
  }

  /** Seen one byte too early, a data chunk claims to be longer than the file. */
  lemma ShiftedIsNoChunk(data: seq<byte>, n: nat)
    requires n < 0x100_0000 && 8 + n <= |data| <= 8 + n + 95 + 255 * n
    requires data[..4] == Ascii("data") && data[4..8] == LittleEndian(n, 4)
    ensures ReadChunk([0 as byte] + data) == NoChunk
  {
    var shifted := [0 as byte] + data;
    Word32RoundTrip(n, data, 4);
    assert shifted[4] == data[..4][3] == 97;
    assert shifted[5] == data[4] && shifted[6] == data[5] && shifted[7] == data[6];
    assert Word32(shifted, 4) == 97 + 256 * n;
  }

  lemma ShiftedDataIsHidden(body: seq<byte>, trailer: seq<byte>, wave: Wave)
    requires SmallData(body, trailer)
    ensures LoadData([0 as byte] + DataAndTrailer(body, trailer), wave) == Returned(-10, wave)
  {
    ChunkParts(Ascii("data"), body, trailer);
    ShiftedIsNoChunk(DataAndTrailer(body, trailer), |body|);
  }

  /**
   * A chunk of odd size is padded in the file, but the reader does not skip the pad byte: when
   * such a chunk stands just before the data, the data chunk is not recognised.
   */
  lemma OddChunkHidesData(odd: Other, body: seq<byte>, trailer: seq<byte>, wave: Wave)
    requires Named(odd) && |odd.body| % 2 == 1 && SmallData(body, trailer)
    ensures LoadData(EncodeChunk(odd.name, odd.body) + DataAndTrailer(body, trailer), wave)
         == Returned(-10, wave)
  {
    ChunkIsRead(odd.name, odd.body, DataAndTrailer(body, trailer));
    ShiftedDataIsHidden(body, trailer, wave);
  }

  /** All chunks before the one that precedes the data have even sizes. */
  predicate EvenUpToLast(extra: seq<byte>, others: seq<Other>) {
    others != [] ==>
      && |extra| % 2 == 0 && Named(others[|others| - 1])
      && forall k :: 0 <= k < |others| - 1 ==> Skippable(others[k])
  }

  /** The chunk that precedes the data, the format chunk or another, has an even size. */
  predicate LastIsEven(extra: seq<byte>, others: seq<Other>) {
    if others == [] then |extra| % 2 == 0 else |others[|others| - 1].body| % 2 == 0
  }

  lemma {:induction false} OthersSplit(init: seq<Other>, last: Other)
    ensures EncodeOthers(init + [last]) == EncodeOthers(init) + EncodeChunk(last.name, last.body)
    decreases |init|
  {
    if init == [] {
      assert EncodeOthers([last]) == EncodeChunk(last.name, last.body) + EncodeOthers([last][1..]);
      assert init + [last] == [last];
    } else {
      assert (init + [last])[1..] == init[1..] + [last];
      OthersSplit(init[1..], last);
    }
  }

  lemma LastIsReached(init: seq<Other>, last: Other, data: seq<byte>, wave: Wave)
    requires forall o :: o in init ==> Skippable(o)
    ensures LoadData(EncodeOthers(init + [last]) + data, wave)
         == LoadData(EncodeChunk(last.name, last.body) + data, wave)
  {
    var before, head := EncodeOthers(init), EncodeChunk(last.name, last.body);
    assert EncodeOthers(init + [last]) + data == before + (head + data) by {
      OthersSplit(init, last);
      assert (before + head) + data == before + (head + data);
    }
    OthersAreSkipped(init, head + data, wave);
  }

  /** The chunk just before the data decides whether the samples are found. */
  lemma LastDecides(last: Other, samples: seq<sample>, trailer: seq<byte>, wave: Wave)
    requires Named(last) && SmallData(EncodeSamples(samples), trailer)
    ensures LoadData(EncodeChunk(last.name, last.body)
                     + DataAndTrailer(EncodeSamples(samples), trailer), wave)
         == if |last.body| % 2 == 0 then Returned(0, wave.(data := wave.data + samples))
            else Returned(-10, wave)
  {
    if |last.body| % 2 == 0 {
      OtherIsSkipped(last, DataAndTrailer(EncodeSamples(samples), trailer), wave);
      DataIsRead(samples, trailer, wave);
    } else {
      OddChunkHidesData(last, EncodeSamples(samples), trailer, wave);
    }
  }

  /**
   * A file of 16-bit PCM whose chunks have even sizes, except perhaps the one just before the
   * data, be it the format or another: the load gives back channels, rate and every sample if and
   * only if that one has an even size as well, and otherwise returns -10.
   */
  lemma FileIsReadIffEven(riffSize: nat, channels: nat, rate: nat, byteRate: nat, align: nat,
                          extra: seq<byte>, others: seq<Other>, samples: seq<sample>,
                          trailer: seq<byte>, wave: Wave)
    requires channels == 1 || channels == 2
    requires rate < 0x8000_0000 && |extra| < 0x7000_0000
    requires EvenUpToLast(extra, others) && SmallData(EncodeSamples(samples), trailer)
    ensures var loaded := LoadFile(Encode(riffSize, channels, rate, byteRate, align, extra, others,
                                          samples, trailer), wave);
            && (loaded == Returned(0, Wave(channels, rate, wave.data + samples))
                <==> LastIsEven(extra, others))
            && (!LastIsEven(extra, others) ==>
                  loaded == Returned(-10, Wave(channels, rate, wave.data)))
  {
    var w := wave.(channels := channels, sampleRate := rate);
    var data := DataAndTrailer(EncodeSamples(samples), trailer);
    var rest := EncodeOthers(others) + data;
    HeadIsRead(riffSize, EncodeChunk(Ascii("fmt "),
                                     FormatBody(channels, rate, byteRate, align, extra)) + rest);
    FormatIsRead(channels, rate, byteRate, align, extra, rest);
    RestIsLoaded(extra, others, samples, trailer, w);
  }

  /** What follows the format chunk: its pad byte, the other chunks, the data and the trailer. */
  lemma RestIsLoaded(extra: seq<byte>, others: seq<Other>, samples: seq<sample>,
                     trailer: seq<byte>, w: Wave)
    requires EvenUpToLast(extra, others) && SmallData(EncodeSamples(samples), trailer)
    ensures LoadData(Pad(|extra|) + (EncodeOthers(others)
                                     + DataAndTrailer(EncodeSamples(samples), trailer)), w)
         == if LastIsEven(extra, others) then Returned(0, w.(data := w.data + samples))
            else Returned(-10, w)
  {
    var data := DataAndTrailer(EncodeSamples(samples), trailer);
    var rest := EncodeOthers(others) + data;
    if others != [] {
      var init, last := others[..|others| - 1], others[|others| - 1];
      assert Pad(|extra|) + rest == rest && others == init + [last];
      LastIsReached(init, last, data, w);
      LastDecides(last, samples, trailer, w);
    } else if |extra| % 2 == 0 {
      assert Pad(|extra|) + rest == data;
      DataIsRead(samples, trailer, w);
    } else {
      assert rest == data;
      ShiftedDataIsHidden(EncodeSamples(samples), trailer, w);
    }
  }

  // ----- what a file must say -----

  /** Two and four octets of a file, the least significant first. */
  function Two(b: seq<byte>, at: nat): nat
    requires at + 2 <= |b|
  {
    (b[at] as int) + 256 * (b[at + 1] as int)
  }

  function Four(b: seq<byte>, at: nat): nat
    requires at + 4 <= |b|
  {
    Two(b, at) + 65536 * Two(b, at + 2)
  }

  /** A RIFF/WAVE file that begins with a format chunk. */
  predicate StartsWithFormat(b: seq<byte>) {
    && |b| >= 36
    && b[0..4] == [82, 73, 70, 70] && b[8..12] == [87, 65, 86, 69] && b[12..16] == [102, 109, 116, 32]
  }

  lemma Names()
    ensures Ascii("RIFF") == [82, 73, 70, 70] && Ascii("WAVE") == [87, 65, 86, 69]
    ensures Ascii("fmt ") == [102, 109, 116, 32]
  {
  }

  lemma FormatFields(b: seq<byte>)
    requires |b| >= 36
    ensures var c := b[12..];
            && Word16(c, 8) == Two(b, 20) && Word16(c, 10) == Two(b, 22)
            && Word32(c, 12) == Four(b, 24) && Word16(c, 22) == Two(b, 34)
            && c[..4] == b[12..16] && Word32(c, 4) == Four(b, 16)
  {
    var c := b[12..];
    assert forall k :: 0 <= k < |c| ==> c[k] == b[12 + k];
    assert c[..4] == b[12..16];
  }

  lemma {:induction false} DataCodes(b: seq<byte>, wave: Wave)
    ensures match LoadData(b, wave)
            case Undefined => true
            case Returned(code, w) =>
              && (code == 0 || code == -10)
              && w.channels == wave.channels && w.sampleRate == wave.sampleRate
              && wave.data <= w.data && (code != 0 ==> w == wave)
    decreases |b|
  {
    match ReadChunk(b)
    case Chunk(name, size) =>
      if name != Ascii("data") {
        DataCodes(b[8 + size..], wave);
      }
    case _ =>
  }

  /**
   * A file that loads is PCM of 16 bits in one or two channels, by the octets at the places where
   * the format says so; channels and rate are what it says there.
   */
  lemma LoadedIsPcm16(b: seq<byte>, wave: Wave)
    requires LoadFile(b, wave).Returned? && LoadFile(b, wave).code == 0
    ensures StartsWithFormat(b)
    ensures Two(b, 20) == 1 && (Two(b, 22) == 1 || Two(b, 22) == 2) && Two(b, 34) == 16
    ensures var w := LoadFile(b, wave).wave;
            && w.channels == Two(b, 22)
            && w.sampleRate == (if b[27] < 128 then Four(b, 24) else Four(b, 24) - 0x1_0000_0000)
            && wave.data <= w.data
  {
    Names();
    FormatFields(b);
    var c := b[12..];
    assert c[..4] == b[12..16];
    match ReadFormat(c)
    case Format(channels, rate, rest) =>
      DataCodes(rest, wave.(channels := channels, sampleRate := rate));
    case _ =>
  }

  /**
   * A complete format chunk decides how far the load gets: another coding is refused with -9,
   * another number of channels with 1, another depth with -4, and otherwise the chunks behind it
   * decide between 0 and -10.
   */
  lemma FormatDecides(b: seq<byte>, wave: Wave)
    requires StartsWithFormat(b) && Four(b, 16) < SIZE_LIMIT && 20 + Four(b, 16) <= |b|
    ensures match LoadFile(b, wave)
            case Undefined => Two(b, 20) == 1 && Two(b, 22) in {1, 2} && Two(b, 34) == 16
            case Returned(code, w) =>
              && (code == -9 <==> Two(b, 20) != 1)
              && (code == 1 <==> Two(b, 20) == 1 && Two(b, 22) !in {1, 2})
              && (code == -4 <==> Two(b, 20) == 1 && Two(b, 22) in {1, 2} && Two(b, 34) != 16)
              && code in {-9, 1, -4, -10, 0}
              && (code !in {0, -10} ==> w == wave)
  {
    Names();
    FormatFields(b);
    match ReadFormat(b[12..])
    case Format(channels, rate, rest) =>
      DataCodes(rest, wave.(channels := channels, sampleRate := rate));
    case _ =>
  }
}
