/**
 * The Y4M reader against what it is for: at every time, the frame of that time, in a loop.
 */
module Y4MPlayback {
  import opened Arithmetic
  import opened Slices
  import opened Y4M

  /** One frame of a file: what follows FRAME on its header line, and the picture. */
  datatype Frame = Frame(params: string, payload: string)

  function EncodeFrame(f: Frame): string {
    FRAME_MAGIC + f.params + ['\n'] + f.payload
  }

  function EncodeFrames(frames: seq<Frame>): string {
    if frames == [] then "" else EncodeFrame(frames[0]) + EncodeFrames(frames[1..])
  }

  /** A header line of at most 1024 octets after FRAME, and a picture of the right size. */
  predicate GoodFrame(f: Frame, size: int) {
    '\n' !in f.params && |f.params| < LINE_LIMIT && |f.payload| == size
  }

  predicate GoodFrames(frames: seq<Frame>, size: int) {
    forall k :: 0 <= k < |frames| ==> GoodFrame(frames[k], size)
  }

  /** Where frame k starts, counted from the first one: frame headers vary in length. */
  function Offset(frames: seq<Frame>, k: nat): nat
    requires k <= |frames|
  {
    |EncodeFrames(frames[..k])|
  }

  lemma {:induction false} EncodeConcat(a: seq<Frame>, b: seq<Frame>)
    ensures EncodeFrames(a + b) == EncodeFrames(a) + EncodeFrames(b)
    decreases |a|
  {
    if a == [] {
      assert a + b == b;
    } else {
      EncodeConcat(a[1..], b);
      assert (a + b)[1..] == a[1..] + b;
    }
  }

  /** The file from frame k on begins with frame k, and what follows is frame k + 1. */
  lemma FrameAtOffset(frames: seq<Frame>, k: nat)
    requires k < |frames|
    ensures Offset(frames, k) + |EncodeFrame(frames[k])| == Offset(frames, k + 1)
    ensures Offset(frames, k + 1) <= |EncodeFrames(frames)|
    ensures EncodeFrames(frames)[Offset(frames, k)..Offset(frames, k + 1)]
         == EncodeFrame(frames[k])
    ensures k + 1 == |frames| <==> Offset(frames, k + 1) == |EncodeFrames(frames)|
  {
    var before, after := frames[..k], frames[k + 1..];
    assert frames[..k + 1] == before + [frames[k]];
    assert frames == before + [frames[k]] + after;
    EncodeConcat(before, [frames[k]]);
    EncodeConcat(before + [frames[k]], after);
    assert EncodeFrames([frames[k]]) == EncodeFrame(frames[k]);
  }

  /** The reader stands at the start of the frame whose number it holds, modulo the file. */
  ghost predicate InStep(rd: Reader, frames: seq<Frame>) {
    var n := |frames|;
    && n > 0 && 0 <= rd.frame
    && rd.startPos <= |rd.file|
    && rd.file[rd.startPos..] == EncodeFrames(frames)
    && GoodFrames(frames, FrameSize(rd.format))
    && rd.pos == rd.cursor == rd.startPos + Offset(frames, rd.frame % n)
  }

  lemma {:induction false} LineIsSkipped(rd: Reader, line: string, stop: int)
    requires '\n' !in line && rd.cursor + |line| < stop
    requires rd.cursor + |line| < |rd.file|
    requires rd.file[rd.cursor..rd.cursor + |line| + 1] == line + ['\n']
    ensures SkipLine(rd, stop) == (0, Seek(rd, rd.cursor + |line| + 1, rd.pos + |line| + 1))
    decreases |line|
  {
    var window := rd.file[rd.cursor..rd.cursor + |line| + 1];
    assert rd.file[rd.cursor] == window[0];
    if line != [] {
      assert window[0] == line[0];
      var next := Seek(rd, rd.cursor + 1, rd.pos + 1);
      assert next.file[next.cursor..next.cursor + |line[1..]| + 1] == window[1..];
      LineIsSkipped(next, line[1..], stop);
    }
  }

  /** The octets at the cursor are those of a good frame. */
  ghost predicate At(rd: Reader, f: Frame, size: int) {
    && GoodFrame(f, size) && rd.pos == rd.cursor
    && rd.cursor + |EncodeFrame(f)| <= |rd.file|
    && rd.file[rd.cursor..rd.cursor + |EncodeFrame(f)|] == EncodeFrame(f)
  }

  lemma WithinWindow(s: string, c: nat, bytes: string, i: nat, j: nat)
    requires c + |bytes| <= |s| && s[c..c + |bytes|] == bytes
    requires i <= j <= |bytes|
    ensures s[c + i..c + j] == bytes[i..j]
  {
    SubSlice(s, c, |bytes|, i, j);
  }

  lemma FrameParts(f: Frame)
    ensures var bytes, n := EncodeFrame(f), |f.params|;
            && |bytes| == 5 + n + 1 + |f.payload|
            && bytes[0..5] == FRAME_MAGIC
            && bytes[5..5 + n + 1] == f.params + ['\n']
            && bytes[5 + n + 1..|bytes|] == f.payload
  {
  }

  /** Reading the header of the frame at hand succeeds and stops at its picture. */
  lemma HeaderIsRead(rd: Reader, f: Frame, size: int)
    requires At(rd, f, size)
    ensures var picture := rd.cursor + 5 + |f.params| + 1;
            && ReadFrameHeaderSpec(rd) == (0, Seek(rd, picture, picture))
            && picture + size == rd.cursor + |EncodeFrame(f)| <= |rd.file|
            && rd.file[picture..picture + size] == f.payload
  {
    var bytes, n := EncodeFrame(f), |f.params|;
    FrameParts(f);
    WithinWindow(rd.file, rd.cursor, bytes, 0, 5);
    WithinWindow(rd.file, rd.cursor, bytes, 5, 5 + n + 1);
    WithinWindow(rd.file, rd.cursor, bytes, 5 + n + 1, |bytes|);
    var line := Seek(rd, rd.cursor + 5, rd.pos + 5);
    assert rd.file[line.cursor..line.cursor + n + 1] == f.params + ['\n'];
    LineIsSkipped(line, f.params, rd.cursor + 5 + LINE_LIMIT);
  }

  lemma InStepIsAt(rd: Reader, frames: seq<Frame>)
    requires InStep(rd, frames)
    ensures At(rd, frames[rd.frame % |frames|], FrameSize(rd.format))
    ensures rd.cursor + |EncodeFrame(frames[rd.frame % |frames|])|
         == rd.startPos + Offset(frames, rd.frame % |frames| + 1)
  {
    var k := rd.frame % |frames|;
    FrameAtOffset(frames, k);
    var bytes := EncodeFrame(frames[k]);
    assert rd.file[rd.cursor..rd.cursor + |bytes|]
        == rd.file[rd.startPos..][Offset(frames, k)..Offset(frames, k + 1)];
  }

  /** Stepping past the frame at hand leads to the next one, or wraps to the first. */
  lemma WrapsInStep(rd: Reader, frames: seq<Frame>, over: Reader)
    requires InStep(rd, frames)
    requires over.cursor == over.pos == rd.cursor + |EncodeFrame(frames[rd.frame % |frames|])|
    requires over == Seek(rd, over.cursor, over.pos)
    ensures InStep(Wrapped(over).(frame := rd.frame + 1), frames)
    ensures over.pos <= |rd.file|
  {
    InStepIsAt(rd, frames);
    var k := rd.frame % |frames|;
    FrameAtOffset(frames, k);
    ModStep(rd.frame, |frames|);
    assert |rd.file| == rd.startPos + |EncodeFrames(frames)|;
    assert frames[..0] == [];
  }

  /** What skipping does once the header has been read. */
  lemma SkipGoesOver(rd: Reader, f: Frame, size: int)
    requires At(rd, f, size) && size == FrameSize(rd.format)
    ensures var end := rd.cursor + |EncodeFrame(f)|;
            SkipFrameSpec(rd) == (0, Wrapped(Seek(rd, end, end)).(frame := rd.frame + 1))
  {
    HeaderIsRead(rd, f, size);
  }

  lemma SkipStaysInStep(rd: Reader, frames: seq<Frame>)
    requires InStep(rd, frames)
    ensures var (r, rd') := SkipFrameSpec(rd);
            && r == 0 && InStep(rd', frames)
            && rd' == Seek(rd, rd'.cursor, rd'.pos).(frame := rd.frame + 1)
  {
    var f := frames[rd.frame % |frames|];
    InStepIsAt(rd, frames);
    SkipGoesOver(rd, f, FrameSize(rd.format));
    var end := rd.cursor + |EncodeFrame(f)|;
    WrapsInStep(rd, frames, Seek(rd, end, end));
  }

  lemma {:induction false} SkipToStaysInStep(rd: Reader, frames: seq<Frame>, frame: int)
    requires InStep(rd, frames) && rd.frame <= frame
    ensures var (r, rd') := SkipTo(rd, frame);
            r == 0 && InStep(rd', frames) && rd' == Seek(rd, rd'.cursor, rd'.pos).(frame := frame)
    decreases frame - rd.frame
  {
    if rd.frame < frame {
      SkipStaysInStep(rd, frames);
      SkipToStaysInStep(SkipFrameSpec(rd).1, frames, frame);
    }
  }

  lemma FetchGoesOver(rd: Reader, f: Frame, size: int)
    requires At(rd, f, size) && size == FrameSize(rd.format) >= 0
    ensures var end := rd.cursor + |EncodeFrame(f)|;
            var over := Wrapped(Seek(rd, end, end));
            FetchSpec(rd, rd.frame)
            == Got(0, true, over.(frame := rd.frame + 1, prevFrame := rd.frame), f.payload)
  {
    HeaderIsRead(rd, f, size);
    assert Ahead(ReadFrameHeaderSpec(rd).1, size) == f.payload;
  }

  lemma FetchStaysInStep(rd: Reader, frames: seq<Frame>)
    requires InStep(rd, frames) && FrameSize(rd.format) >= 0
    ensures var got := FetchSpec(rd, rd.frame);
            && got.code == 0 && got.updated
            && got.octets == frames[rd.frame % |frames|].payload
            && InStep(got.reader.(prevFrame := rd.prevFrame), frames)
            && got.reader == Seek(rd, got.reader.cursor, got.reader.pos)
                             .(frame := rd.frame + 1, prevFrame := rd.frame)
  {
    var f := frames[rd.frame % |frames|];
    InStepIsAt(rd, frames);
    FetchGoesOver(rd, f, FrameSize(rd.format));
    var end := rd.cursor + |EncodeFrame(f)|;
    WrapsInStep(rd, frames, Seek(rd, end, end));
  }

  // ----- playing -----

  /** A frame rate that is defined, and a picture size; both are computed in an int. */
  predicate Rated(f: Format) {
    f.fpsNum >= 0 && 0 < f.fpsDen && 1000 * f.fpsDen < 0x8000_0000
    && 0 <= FrameSize(f) < 0x8000_0000
  }

  /** The number of the frame at a time, before any looping. */
  function Number(f: Format, ms: nat): int
    requires Rated(f)
  {
    ms * f.fpsNum / (1000 * f.fpsDen)
  }

  /** The frame number at `ms` fits an int. */
  predicate Fits(f: Format, ms: nat)
    requires Rated(f)
  {
    Number(f, ms) < 0x8000_0000
  }

  lemma NumberIsQuotient(f: Format, ms: nat)
    requires Rated(f)
    ensures 0 <= Number(f, ms) == Quotient(ms * f.fpsNum, 1000 * f.fpsDen)
  {
    assert ms * f.fpsNum >= 0;
    DivGrows(0, ms * f.fpsNum, 1000 * f.fpsDen);
  }

  lemma NumberIsFrame(f: Format, ms: nat)
    requires Rated(f) && Fits(f, ms)
    ensures 0 <= FrameAt(f, ms) == Number(f, ms)
  {
    NumberIsQuotient(f, ms);
  }

  lemma NumberGrows(f: Format, a: nat, b: nat)
    requires Rated(f) && a <= b
    ensures Number(f, a) <= Number(f, b)
  {
    MulGrows(a, b, f.fpsNum);
    DivGrows(a * f.fpsNum, b * f.fpsNum, 1000 * f.fpsDen);
  }

  /** Between two calls: in step, with the last frame delivered just behind. */
  ghost predicate Ready(rd: Reader, frames: seq<Frame>) {
    InStep(rd, frames) && rd.prevFrame == rd.frame - 1
  }

  /**
   * One call at a time that is not before the last one: it succeeds, updates exactly when the
   * frame number has changed, and then delivers that frame of the looped file.
   */
  lemma GetFrameDelivers(rd: Reader, frames: seq<Frame>, ms: nat)
    requires Ready(rd, frames) && Rated(rd.format) && Fits(rd.format, ms)
    requires rd.prevFrame <= Number(rd.format, ms)
    ensures var got, number := GetFrameSpec(rd, ms), Number(rd.format, ms);
            && got.code == 0
            && (got.updated <==> number != rd.prevFrame) && 0 <= number
            && (got.updated ==> got.octets == frames[number % |frames|].payload)
            && Ready(got.reader, frames) && got.reader.prevFrame == number
            && got.reader.format == rd.format
  {
    NumberIsFrame(rd.format, ms);
    var number := Number(rd.format, ms);
    if rd.prevFrame != number {
      SkipToStaysInStep(rd, frames, number);
      FetchStaysInStep(SkipTo(rd, number).1, frames);
    }
  }

  /** What a viewer sees of one call: its code, `updated`, and the buffer afterwards. */
  datatype Shown = Shown(code: int, updated: bool, picture: string)

  function Play(rd: Reader, picture: string, times: seq<nat>): seq<Shown>
    requires rd.format.fpsDen != 0 && FrameSize(rd.format) >= 0
    decreases |times|
  {
    if times == [] then [] else
    var got := GetFrameSpec(rd, times[0]);
    GetFrameKeepsFormat(rd, times[0]);
    var picture' := if got.updated then got.octets else picture;
    [Shown(got.code, got.updated, picture')] + Play(got.reader, picture', times[1..])
  }

  lemma GetFrameKeepsFormat(rd: Reader, ms: int)
    requires rd.format.fpsDen != 0 && FrameSize(rd.format) >= 0
    ensures GetFrameSpec(rd, ms).reader.format == rd.format
  {
    var frame := FrameAt(rd.format, ms);
    SkipToKeeps(rd, frame);
    var at := SkipTo(rd, frame).1;
    HeaderKeeps(at);
  }

  predicate Nondecreasing(times: seq<nat>) {
    forall i :: 0 < i < |times| ==> times[i - 1] <= times[i]
  }

  /** What should be shown, after frame `last`, at each of the times. */
  function Ideal(f: Format, frames: seq<Frame>, last: int, times: seq<nat>): (shown: seq<Shown>)
    requires Rated(f) && |frames| > 0
    ensures |shown| == |times|
    ensures forall i :: 0 <= i < |times| ==>
              var before := if i == 0 then last else Number(f, times[i - 1]);
              shown[i] == Shown(0, Number(f, times[i]) != before,
                                frames[Number(f, times[i]) % |frames|].payload)
    decreases |times|
  {
    if times == [] then [] else
    var number := Number(f, times[0]);
    [Shown(0, number != last, frames[number % |frames|].payload)]
    + Ideal(f, frames, number, times[1..])
  }

  /**
   * Over every nondecreasing sequence of times: each call returns 0, the buffer always shows the
   * frame whose number is the time's, modulo the number of frames in the file, and `updated` says
   * exactly whether that number differs from the one before.
   */
  lemma {:induction false} PlaysEveryTime(rd: Reader, frames: seq<Frame>, picture: string,
                                          times: seq<nat>)
    requires Ready(rd, frames) && Nondecreasing(times) && Rated(rd.format)
    requires forall i :: 0 <= i < |times| ==> Fits(rd.format, times[i])
    requires times != [] ==> rd.prevFrame <= Number(rd.format, times[0])
    requires rd.prevFrame >= 0 ==> picture == frames[rd.prevFrame % |frames|].payload
    ensures Play(rd, picture, times) == Ideal(rd.format, frames, rd.prevFrame, times)
    decreases |times|
  {
    if times != [] {
      var got := GetFrameSpec(rd, times[0]);
      GetFrameDelivers(rd, frames, times[0]);
      var later := times[1..];
      if later != [] {
        NumberGrows(rd.format, times[0], times[1]);
      }
      assert forall i :: 0 <= i < |later| ==> later[i] == times[i + 1];
      PlaysEveryTime(got.reader, frames, if got.updated then got.octets else picture, later);
    }
  }

  lemma FrameAtIsInt(f: Format, ms: int)
    requires f.fpsDen != 0
    ensures -0x8000_0000 <= FrameAt(f, ms) < 0x8000_0000
  {
  }

  lemma GetFrameNumbers(rd: Reader, ms: int)
    requires rd.format.fpsDen != 0 && FrameSize(rd.format) >= 0
    requires GetFrameSpec(rd, ms).code == 0
    ensures GetFrameSpec(rd, ms).reader.prevFrame == FrameAt(rd.format, ms)
  {
  }

  /** A call reaches the frame of its time if and only if that frame's number fits an int. */
  lemma DeliversIffFits(rd: Reader, frames: seq<Frame>, ms: nat)
    requires Ready(rd, frames) && Rated(rd.format) && rd.prevFrame <= Number(rd.format, ms)
    requires ms * rd.format.fpsNum < 0x8000_0000_0000_0000
    ensures var got := GetFrameSpec(rd, ms);
            got.code == 0 && got.reader.prevFrame == Number(rd.format, ms)
            <==> Fits(rd.format, ms)
  {
    if Fits(rd.format, ms) {
      GetFrameDelivers(rd, frames, ms);
    } else {
      FrameAtIsInt(rd.format, ms);
      if GetFrameSpec(rd, ms).code == 0 {
        GetFrameNumbers(rd, ms);
      }
    }
  }

  /** Beyond the range of an int the frame number turns negative, and the call fails. */
  lemma FrameNumberOverflows(rd: Reader, frames: seq<Frame>, ms: nat)
    requires Ready(rd, frames) && Rated(rd.format) && rd.frame > 0
    requires 0x8000_0000 <= Number(rd.format, ms) < 0x1_0000_0000
    ensures GetFrameSpec(rd, ms).code == -1
  {
    NumberIsQuotient(rd.format, ms);
    var q := Number(rd.format, ms);
    assert q + 0x8000_0000 == 1 * 0x1_0000_0000 + (q - 0x8000_0000);
    ModUnique(q + 0x8000_0000, 0x1_0000_0000, 1, q - 0x8000_0000);
  }
}
