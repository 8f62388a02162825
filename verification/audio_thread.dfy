/**
 * The audio thread (src/zakuro_audio_device_module.cpp): a cyclic sample stream, cut into
 * 10-millisecond buffers against a clock.
 */
module AudioThreads {
  import opened Arithmetic

  /** The fake audio. The data holds whole frames of one sample per channel. */
  datatype Audio = Audio(rate: nat, channels: nat, data: seq<int>)

  predicate WellFormed(a: Audio) {
    a.channels > 0 && a.data != [] && |a.data| % a.channels == 0
  }

  /** Samples, over all channels, in 10 milliseconds. */
  function BufSize(a: Audio): nat {
    a.rate * a.channels * 10 / 1000
  }

  /** `index`, `buf`, and what the device buffer has been given so far. */
  datatype Feed = Feed(index: nat, buf: seq<int>, delivered: seq<seq<int>>)

  const IDLE := Feed(0, [], [])

  /** The device takes a whole number of frames of the buffer it is given. */
  function Taken(a: Audio): nat
    requires a.channels > 0
  {
    BufSize(a) / a.channels * a.channels
  }

  predicate InData(a: Audio, f: Feed) {
    a.channels > 0 && f.index + a.channels <= |a.data| && f.index % a.channels == 0
  }

  /** One frame: push a sample per channel, deliver a full buffer, start over at the end. */
  function AfterFrame(a: Audio, f: Feed): Feed
    requires WellFormed(a) && InData(a, f)
  {
    var buf := f.buf + a.data[f.index..f.index + a.channels];
    var index := f.index + a.channels;
    var full := |buf| >= BufSize(a);
    BufHoldsTaken(a);
    Feed(if index >= |a.data| then 0 else index,
         if full then [] else buf,
         if full then f.delivered + [buf[..Taken(a)]] else f.delivered)
  }

  lemma BufHoldsTaken(a: Audio)
    requires a.channels > 0
    ensures Taken(a) <= BufSize(a)
  {
  }

  function AfterFrames(a: Audio, f: Feed, n: nat): (f': Feed)
    requires WellFormed(a) && InData(a, f)
    ensures InData(a, f')
  {
    if n == 0 then f
    else
      var f' := AfterFrames(a, f, n - 1);
      NextInData(a, f');
      AfterFrame(a, f')
  }

  lemma NextInData(a: Audio, f: Feed)
    requires WellFormed(a) && InData(a, f)
    ensures InData(a, AfterFrame(a, f))
  {
    var f' := AfterFrame(a, f);
    assert f'.index == if f.index + a.channels >= |a.data| then 0 else f.index + a.channels;
    NextIndex(f.index, |a.data|, a.channels);
  }

  lemma NextIndex(index: nat, size: nat, c: nat)
    requires c > 0 && index % c == 0 && size % c == 0 && index + c <= size
    ensures index + c < size ==> (index + c) % c == 0 && index + c + c <= size
    ensures index + c >= size ==> c <= size
  {
    if index + c < size {
      MultipleStep(index, size, c);
      MultipleStep(index + c, size, c);
    }
  }

  lemma StartsInData(a: Audio)
    requires WellFormed(a)
    ensures InData(a, IDLE)
  {
    if |a.data| < a.channels {
      ModUnique(|a.data|, a.channels, 0, |a.data|);
    }
  }

  /** The feed after n frames from the start. */
  function Fed(a: Audio, n: nat): (f: Feed)
    requires WellFormed(a)
    ensures InData(a, f)
  {
    StartsInData(a);
    AfterFrames(a, IDLE, n)
  }

  class AudioThread {
    const audio: Audio
    var index: nat
    var buf: seq<int>
    var delivered: seq<seq<int>>

    function Value(): Feed
      reads this
    {
      Feed(index, buf, delivered)
    }

    constructor (audio: Audio)
      ensures this.audio == audio && Value() == IDLE
    {
      this.audio, index, buf, delivered := audio, 0, [], [];
    }

    /** One wakeup of the thread with a fake audio source. */
    method Wakeup(sampleCount: nat)
      requires WellFormed(audio) && InData(audio, Value())
      modifies this
      ensures Value() == AfterFrames(audio, old(Value()), sampleCount)
    {
      for i := 0 to sampleCount
        invariant Value() == AfterFrames(audio, old(Value()), i)
      {
        PushFrame();
      }
    }

    /** The body of the loop over the samples. */
    method PushFrame()
      requires WellFormed(audio) && InData(audio, Value())
      modifies this
      ensures Value() == AfterFrame(audio, old(Value()))
    {
      ghost var f := Value();
      for j := 0 to audio.channels
        invariant index == f.index + j
        invariant buf == f.buf + audio.data[f.index..index]
        invariant delivered == f.delivered
      {
        buf := buf + [audio.data[index]];
        index := index + 1;
      }
      BufHoldsTaken(audio);
      if |buf| >= BufSize(audio) {
        delivered := delivered + [buf[..BufSize(audio) / audio.channels * audio.channels]];
        buf := [];
      }
      if index >= |audio.data| {
        index := 0;
      }
    }

    /** One wakeup with an external source: how many buffers it is asked to render. */
    method WakeupExternal(sampleCount: nat) returns (rendered: nat)
      requires BufSize(audio) > 0
      ensures rendered == sampleCount / BufSize(audio)
    {
      rendered := 0;
      var left := sampleCount;
      while left >= BufSize(audio)
        invariant left == sampleCount - rendered * BufSize(audio) >= 0
      {
        rendered := rendered + 1;
        left := left - BufSize(audio);
      }
      ModUnique(sampleCount, BufSize(audio), rendered, left);
    }
  }

  // ----- the stream -----

  /** The samples from `from` on of the data repeated forever. */
  function Segment(data: seq<int>, from: nat, n: nat): (s: seq<int>)
    requires data != []
    ensures |s| == n
    ensures forall i :: 0 <= i < n ==> s[i] == data[(from + i) % |data|]
  {
    seq(n, i requires 0 <= i => data[(from + i) % |data|])
  }

  /** How many samples fill a buffer: the first whole number of frames that reaches BufSize. */
  function Filled(a: Audio): nat
    requires a.channels > 0
  {
    if BufSize(a) == 0 then a.channels
    else (BufSize(a) + a.channels - 1) / a.channels * a.channels
  }

  function Concat(parts: seq<seq<int>>): seq<int> {
    if parts == [] then [] else Concat(parts[..|parts| - 1]) + parts[|parts| - 1]
  }

  /** After `pushed` samples: complete buffers, cut one after the other, and the rest. */
  ghost predicate CutUp(a: Audio, f: Feed, pushed: nat)
    requires WellFormed(a)
  {
    && pushed == |f.delivered| * Filled(a) + |f.buf|
    && f.index == pushed % |a.data| && InData(a, f)
    && |f.buf| % a.channels == 0 && (|f.buf| == 0 || |f.buf| < BufSize(a))
    && f.buf == Segment(a.data, |f.delivered| * Filled(a), |f.buf|)
    && Delivered(a, f.delivered)
  }

  lemma SegmentGrows(data: seq<int>, from: nat, n: nat, more: nat)
    requires data != [] && (from + n) % |data| + more <= |data|
    ensures var at := (from + n) % |data|;
            Segment(data, from, n) + data[at..at + more] == Segment(data, from, n + more)
  {
    var at, whole := (from + n) % |data|, Segment(data, from, n + more);
    forall i | n <= i < n + more
      ensures whole[i] == data[at..at + more][i - n]
    {
      ModWithin(from + n, i - n, |data|);
      assert from + i == from + n + (i - n);
    }
  }

  lemma FilledIsRoundedUp(a: Audio)
    requires a.channels > 0
    ensures Filled(a) % a.channels == 0 && Taken(a) <= BufSize(a) <= Filled(a)
    ensures 0 < Filled(a) < (if BufSize(a) == 0 then 1 else BufSize(a)) + a.channels
  {
    RoundUp(BufSize(a), a.channels);
    ModUnique(a.channels, a.channels, 1, 0);
    BufHoldsTaken(a);
  }

  /** A buffer of whole frames is full exactly when it has Filled samples. */
  lemma FullAtFilled(a: Audio, before: nat)
    requires a.channels > 0 && before % a.channels == 0
    requires before == 0 || before < BufSize(a)
    ensures before + a.channels <= Filled(a)
    ensures before + a.channels >= BufSize(a) <==> before + a.channels == Filled(a)
  {
    FilledIsRoundedUp(a);
    MultipleStep(before, Filled(a), a.channels);
    if before + a.channels < Filled(a) {
      MultipleStep(before + a.channels, Filled(a), a.channels);
    }
  }

  /** The buffer, after one more frame, before it is delivered. */
  lemma BufIsSegment(a: Audio, f: Feed, pushed: nat)
    requires WellFormed(a) && CutUp(a, f, pushed)
    ensures f.buf + a.data[f.index..f.index + a.channels]
         == Segment(a.data, |f.delivered| * Filled(a), |f.buf| + a.channels)
  {
    SegmentGrows(a.data, |f.delivered| * Filled(a), |f.buf|, a.channels);
  }

  /** The buffers that were delivered are the first ones of the stream. */
  ghost predicate Delivered(a: Audio, delivered: seq<seq<int>>)
    requires WellFormed(a)
  {
    forall k :: 0 <= k < |delivered| ==>
      delivered[k] == Segment(a.data, k * Filled(a), Taken(a))
  }

  lemma SegmentPrefix(data: seq<int>, from: nat, n: nat, k: nat)
    requires data != [] && k <= n
    ensures Segment(data, from, n)[..k] == Segment(data, from, k)
  {
  }

  lemma SegmentConcat(data: seq<int>, from: nat, n: nat, more: nat)
    requires data != []
    ensures Segment(data, from, n) + Segment(data, from + n, more) == Segment(data, from, n + more)
  {
    var whole, part := Segment(data, from, n + more), Segment(data, from + n, more);
    forall i | 0 <= i < more
      ensures whole[n + i] == part[i]
    {
      assert from + (n + i) == from + n + i;
    }
    assert whole[n..] == part && whole[..n] == Segment(data, from, n);
  }

  lemma DeliveryIsCut(a: Audio, delivered: seq<seq<int>>, buf: seq<int>)
    requires WellFormed(a) && Delivered(a, delivered)
    requires buf == Segment(a.data, |delivered| * Filled(a), Filled(a))
    ensures Taken(a) <= |buf| && Delivered(a, delivered + [buf[..Taken(a)]])
    ensures (|delivered| + 1) * Filled(a) == |delivered| * Filled(a) + Filled(a)
  {
    FilledIsRoundedUp(a);
    SegmentPrefix(a.data, |delivered| * Filled(a), Filled(a), Taken(a));
  }

  /** How the buffer's count works out. */
  lemma BufCounts(a: Audio, before: nat)
    requires a.channels > 0 && before % a.channels == 0
    requires before == 0 || before < BufSize(a)
    ensures before + a.channels < BufSize(a) ==> (before + a.channels) % a.channels == 0
  {
    if before + a.channels < BufSize(a) {
      FilledIsRoundedUp(a);
      MultipleStep(before, Filled(a), a.channels);
    }
  }

  /** How the counts of one frame work out. */
  lemma FrameCounts(a: Audio, f: Feed, pushed: nat)
    requires WellFormed(a) && CutUp(a, f, pushed)
    ensures var f' := AfterFrame(a, f);
            && InData(a, f') && f'.index == (pushed + a.channels) % |a.data|
            && |f'.buf| % a.channels == 0 && (|f'.buf| == 0 || |f'.buf| < BufSize(a))
            && (|f.buf| + a.channels >= BufSize(a) <==> |f.buf| + a.channels == Filled(a))
  {
    var f' := AfterFrame(a, f);
    assert InData(a, f') by { NextInData(a, f); }
    assert f'.index == (pushed + a.channels) % |a.data| by {
      IndexMoves(pushed, a.channels, |a.data|);
    }
    BufCounts(a, |f.buf|);
    FullAtFilled(a, |f.buf|);
  }

  lemma FrameIsCut(a: Audio, f: Feed, pushed: nat)
    requires WellFormed(a) && CutUp(a, f, pushed)
    ensures CutUp(a, AfterFrame(a, f), pushed + a.channels)
  {
    FrameCounts(a, f, pushed);
    BufIsSegment(a, f, pushed);
    if |f.buf| + a.channels >= BufSize(a) {
      DeliveryIsCut(a, f.delivered, f.buf + a.data[f.index..f.index + a.channels]);
    }
  }

  lemma IndexMoves(pushed: nat, c: nat, n: nat)
    requires n > 0 && pushed % n + c <= n
    ensures (pushed + c) % n == if pushed % n + c == n then 0 else pushed % n + c
  {
    var q, r := pushed / n, pushed % n;
    if r + c == n {
      ModUnique(pushed + c, n, q + 1, 0);
    } else {
      ModUnique(pushed + c, n, q, r + c);
    }
  }

  /** After any number of frames, the stream has been cut into buffers of Filled samples. */
  lemma {:induction false} StreamIsCut(a: Audio, n: nat)
    requires WellFormed(a)
    ensures CutUp(a, Fed(a, n), n * a.channels)
  {
    StartsInData(a);
    if n > 0 {
      StreamIsCut(a, n - 1);
      FrameIsCut(a, Fed(a, n - 1), (n - 1) * a.channels);
    }
  }

  // ----- nothing is lost, exactly when the buffer holds whole frames -----

  predicate WholeFrames(a: Audio)
    requires a.channels > 0
  {
    BufSize(a) > 0 && BufSize(a) % a.channels == 0
  }

  lemma TakenIsFilled(a: Audio)
    requires a.channels > 0
    ensures Taken(a) == Filled(a) <==> WholeFrames(a)
    ensures WholeFrames(a) ==> Taken(a) == BufSize(a)
  {
    var c, b := a.channels, BufSize(a);
    var m := (b + c - 1) / c;
    assert b == b / c * c + b % c;
    if b > 0 && b % c == 0 {
      ModUnique(b + c - 1, c, b / c, c - 1);
    } else if b > 0 {
      assert b + c - 1 == (b / c + 1) * c + (b % c - 1);
      ModUnique(b + c - 1, c, b / c + 1, b % c - 1);
    }
  }

  /** Everything delivered so far, followed by the buffer that is being filled. */
  function Output(f: Feed): seq<int> {
    Concat(f.delivered) + f.buf
  }

  lemma {:induction false} SegmentsConcat(data: seq<int>, size: nat, parts: seq<seq<int>>)
    requires data != []
    requires forall k :: 0 <= k < |parts| ==> parts[k] == Segment(data, k * size, size)
    ensures Concat(parts) == Segment(data, 0, |parts| * size)
  {
    if parts != [] {
      var n := |parts| - 1;
      var first, before := parts[..n], n * size;
      assert forall k :: 0 <= k < n ==> first[k] == Segment(data, k * size, size);
      SegmentsConcat(data, size, first);
      SegmentConcat(data, 0, before, size);
      assert |parts| * size == before + size;
    }
  }

  lemma WholeFramesLoseNothing(a: Audio, n: nat)
    requires WellFormed(a) && WholeFrames(a)
    ensures var f := Fed(a, n);
            && Output(f) == Segment(a.data, 0, n * a.channels)
            && forall k :: 0 <= k < |f.delivered| ==> |f.delivered[k]| == BufSize(a)
  {
    TakenIsFilled(a);
    StreamIsCut(a, n);
    SegmentsConcat(a.data, Filled(a), Fed(a, n).delivered);
  }

  lemma PartFramesLose(a: Audio) returns (n: nat)
    requires WellFormed(a) && !WholeFrames(a)
    ensures |Output(Fed(a, n))| < n * a.channels
  {
    TakenIsFilled(a);
    n := FirstDelivery(a);
    var f := Fed(a, n);
    assert f.delivered == [f.delivered[0]] && f.delivered[..0] == [];
    assert Concat(f.delivered) == [] + f.delivered[0];
  }

  /**
   * The delivered buffers, followed by the partial one, are a prefix of the repeated data after
   * every number of frames if and only if a buffer holds a whole, nonzero number of frames; every
   * delivered buffer then has exactly BufSize samples.
   */
  lemma LosslessIffWholeFrames(a: Audio)
    requires WellFormed(a)
    ensures (forall n: nat ::
               Output(Fed(a, n)) == Segment(a.data, 0, n * a.channels))
            <==> WholeFrames(a)
    ensures WholeFrames(a) ==> forall n: nat, k ::
              0 <= k < |Fed(a, n).delivered| ==>
              |Fed(a, n).delivered[k]| == BufSize(a)
  {
    if WholeFrames(a) {
      forall n: nat {
        WholeFramesLoseNothing(a, n);
      }
    } else {
      var n := PartFramesLose(a);
    }
  }

  /** The first buffer is delivered after Filled / channels frames. */
  lemma FirstDelivery(a: Audio) returns (n: nat)
    requires WellFormed(a)
    ensures var f := Fed(a, n);
            n * a.channels == Filled(a) && |f.delivered| == 1 && f.buf == []
            && |f.delivered[0]| == Taken(a)
    ensures Taken(a) <= Filled(a)
  {
    var size := Filled(a);
    FilledIsRoundedUp(a);
    n := size / a.channels;
    assert n * a.channels == size;
    StreamIsCut(a, n);
    var f := Fed(a, n);
    OneDelivery(|f.delivered|, size, |f.buf|, BufSize(a));
  }

  lemma OneDelivery(d: nat, size: nat, left: nat, bufSize: nat)
    requires size > 0 && size >= bufSize && size == d * size + left
    requires left == 0 || left < bufSize
    ensures d == 1 && left == 0
  {
    assert d >= 2 ==> d * size >= 2 * size;
    assert d == 0 ==> d * size == 0;
  }

  /**
   * After any number of frames: every buffer that was delivered holds the whole frames of 10 ms,
   * and the buffers are cut from the repeated data one behind the other, each as far behind the
   * last as the frames reach that are needed to make up 10 ms.
   */
  lemma BuffersAreTenMs(a: Audio, n: nat, k: nat) returns (step: nat)
    requires WellFormed(a) && k < |Fed(a, n).delivered|
    ensures var size := a.rate * a.channels / 100;
            && step % a.channels == 0 && 0 < step && size <= step
            && (0 < size ==> step < size + a.channels)
            && var d := Fed(a, n).delivered[k];
               && |d| % a.channels == 0 && |d| <= size < |d| + a.channels
               && d == Segment(a.data, k * step, |d|)
  {
    StreamIsCut(a, n);
    FilledIsRoundedUp(a);
    TenMs(a);
    WholeFramesOf(BufSize(a), a.channels);
    step := Filled(a);
  }

  lemma WholeFramesOf(size: nat, c: nat)
    requires c > 0
    ensures var taken := size / c * c; taken % c == 0 && taken <= size < taken + c
  {
    assert size == size / c * c + size % c;
    ModUnique(size / c * c, c, size / c, 0);
  }

  lemma TenMs(a: Audio)
    ensures BufSize(a) == a.rate * a.channels / 100
  {
    var x := a.rate * a.channels;
    ModUnique(x * 10, 1000, x / 100, x % 100 * 10);
  }

  /** So nothing is lost if and only if 10 ms hold whole frames, and at least one. */
  lemma LosslessIffTenMsAreFrames(a: Audio)
    requires WellFormed(a)
    ensures (forall n: nat :: Output(Fed(a, n)) == Segment(a.data, 0, n * a.channels))
       <==> a.rate * a.channels >= 100 && a.rate * a.channels / 100 % a.channels == 0
  {
    TenMs(a);
    LosslessIffWholeFrames(a);
  }

  /** Sampling at 22050 Hz in stereo does lose samples: 441 is odd. */
  lemma StereoAt22050IsLossy(data: seq<int>)
    ensures !WholeFrames(Audio(22050, 2, data))
  {
  }

  // ----- the clock -----

  /** The samples per channel that one wakeup asks for. */
  function SampleCount(a: Audio, ms: nat): nat {
    a.rate * ms / 1000
  }

  function TotalMs(deltas: seq<nat>): nat {
    if deltas == [] then 0 else TotalMs(deltas[..|deltas| - 1]) + deltas[|deltas| - 1]
  }

  function TotalFrames(a: Audio, deltas: seq<nat>): nat {
    if deltas == [] then 0
    else TotalFrames(a, deltas[..|deltas| - 1]) + SampleCount(a, deltas[|deltas| - 1])
  }

  /** Truncation never runs ahead of the clock, and lags by less than a sample per wakeup. */
  lemma {:induction false} ClockBound(a: Audio, deltas: seq<nat>)
    ensures 1000 * TotalFrames(a, deltas) <= a.rate * TotalMs(deltas)
    ensures a.rate * TotalMs(deltas) <= 1000 * TotalFrames(a, deltas) + 999 * |deltas|
  {
    if deltas != [] {
      var n := |deltas| - 1;
      ClockBound(a, deltas[..n]);
      var ms := deltas[n];
      assert a.rate * TotalMs(deltas) == a.rate * TotalMs(deltas[..n]) + a.rate * ms;
    }
  }

  /** The feed after a sequence of wakeups. */
  function AfterWakeups(a: Audio, deltas: seq<nat>): (f: Feed)
    requires WellFormed(a)
    ensures InData(a, f)
  {
    StartsInData(a);
    if deltas == [] then IDLE
    else AfterFrames(a, AfterWakeups(a, deltas[..|deltas| - 1]),
                     SampleCount(a, deltas[|deltas| - 1]))
  }

  lemma {:induction false} FramesAdd(a: Audio, f: Feed, m: nat, n: nat)
    requires WellFormed(a) && InData(a, f)
    ensures AfterFrames(a, AfterFrames(a, f, m), n) == AfterFrames(a, f, m + n)
  {
    if n > 0 {
      FramesAdd(a, f, m, n - 1);
    }
  }

  /**
   * For any wakeups: what has been output is a prefix of the repeated data, when buffers hold
   * whole frames, and its length follows the clock.
   */
  lemma {:induction false} WakeupsFollowStream(a: Audio, deltas: seq<nat>)
    requires WellFormed(a)
    ensures AfterWakeups(a, deltas) == Fed(a, TotalFrames(a, deltas))
    ensures WholeFrames(a) ==>
              Output(AfterWakeups(a, deltas))
              == Segment(a.data, 0, TotalFrames(a, deltas) * a.channels)
  {
    if deltas != [] {
      var n := |deltas| - 1;
      WakeupsFollowStream(a, deltas[..n]);
      StartsInData(a);
      FramesAdd(a, IDLE, TotalFrames(a, deltas[..n]), SampleCount(a, deltas[n]));
    }
    if WholeFrames(a) {
      WholeFramesLoseNothing(a, TotalFrames(a, deltas));
    }
  }

  // ----- an external source -----

  /** The buffers that the wakeups render. */
  function TotalRendered(a: Audio, deltas: seq<nat>): nat
    requires BufSize(a) > 0
  {
    if deltas == [] then 0
    else TotalRendered(a, deltas[..|deltas| - 1]) + Buffers(a, deltas[|deltas| - 1])
  }

  /** What remains of a wakeup's samples is dropped. */
  function TotalDropped(a: Audio, deltas: seq<nat>): nat
    requires BufSize(a) > 0
  {
    if deltas == [] then 0
    else TotalDropped(a, deltas[..|deltas| - 1])
         + SampleCount(a, deltas[|deltas| - 1]) % BufSize(a)
  }

  /**
   * The wakeups count samples of one channel, but use up a count for all channels with every
   * buffer: the buffers rendered and what is dropped make up the count that the clock gives.
   */
  lemma {:induction false} RenderedAgainstClock(a: Audio, deltas: seq<nat>)
    requires BufSize(a) > 0
    ensures TotalRendered(a, deltas) * BufSize(a) + TotalDropped(a, deltas)
         == TotalFrames(a, deltas)
  {
    if deltas != [] {
      var n := |deltas| - 1;
      RenderedAgainstClock(a, deltas[..n]);
      var count, size := SampleCount(a, deltas[n]), BufSize(a);
      Distribute(TotalRendered(a, deltas[..n]), Buffers(a, deltas[n]), size);
      assert count == count / size * size + count % size;
    }
  }

  lemma Distribute(x: nat, y: nat, z: nat)
    ensures (x + y) * z == x * z + y * z
  {
  }

  /** The frames, of one sample per channel, that one wakeup's buffers hold. */
  function FramesRendered(a: Audio, ms: nat): nat
    requires a.channels > 0 && BufSize(a) > 0
  {
    Buffers(a, ms) * FramesPerBuffer(a)
  }

  function FramesPerBuffer(a: Audio): nat
    requires a.channels > 0
  {
    BufSize(a) / a.channels
  }

  function Buffers(a: Audio, ms: nat): nat
    requires BufSize(a) > 0
  {
    SampleCount(a, ms) / BufSize(a)
  }

  function RenderedFrames(a: Audio, deltas: seq<nat>): nat
    requires a.channels > 0 && BufSize(a) > 0
  {
    if deltas == [] then 0
    else RenderedFrames(a, deltas[..|deltas| - 1]) + FramesRendered(a, deltas[|deltas| - 1])
  }

  /** A wakeup that renders as many frames as the clock asks for. */
  predicate WakeupIsWhole(a: Audio, ms: nat)
    requires BufSize(a) > 0
  {
    SampleCount(a, ms) == 0 || (a.channels == 1 && SampleCount(a, ms) % BufSize(a) == 0)
  }

  /** A part of the whole is all of it for one channel only. */
  lemma PartOf(size: nat, c: nat)
    requires size > 0 && c > 0
    ensures size / c <= size && (size / c == size <==> c == 1)
  {
    var w := size / c;
    assert size == w * c + size % c;
    if c == 1 {
      ModUnique(size, 1, size, 0);
    } else {
      assert w * c == w * 2 + w * (c - 2);
      MulGrows(0, w, c - 2);
    }
  }

  lemma Products(q: nat, w: nat, size: nat, rest: nat)
    requires w <= size && rest < size
    ensures q * w <= q * size + rest
    ensures q * w == q * size + rest
       <==> q * size + rest == 0 || (w == size && rest == 0)
  {
    MulGrows(w, size, q);
    if q > 0 && w < size {
      MulGrows(w + 1, size, q);
      assert (w + 1) * q == w * q + q;
    }
  }

  lemma WakeupRenders(a: Audio, ms: nat)
    requires a.channels > 0 && BufSize(a) > 0
    ensures FramesRendered(a, ms) <= SampleCount(a, ms)
    ensures FramesRendered(a, ms) == SampleCount(a, ms) <==> WakeupIsWhole(a, ms)
  {
    var count, size := SampleCount(a, ms), BufSize(a);
    PartOf(size, a.channels);
    Products(count / size, size / a.channels, size, count % size);
    assert count == count / size * size + count % size;
  }

  ghost predicate AllWhole(a: Audio, deltas: seq<nat>)
    requires BufSize(a) > 0
  {
    forall k :: 0 <= k < |deltas| ==> WakeupIsWhole(a, deltas[k])
  }

  /**
   * An external source is asked for no more frames than the clock gives, and for all of them if
   * and only if every wakeup either asks for none or, in mono, for whole buffers.
   */
  lemma {:induction false} ExternalIsLosslessIffWhole(a: Audio, deltas: seq<nat>)
    requires a.channels > 0 && BufSize(a) > 0
    ensures RenderedFrames(a, deltas) <= TotalFrames(a, deltas)
    ensures RenderedFrames(a, deltas) == TotalFrames(a, deltas) <==> AllWhole(a, deltas)
  {
    if deltas != [] {
      var n := |deltas| - 1;
      var before, last := deltas[..n], deltas[n];
      ExternalIsLosslessIffWhole(a, before);
      WakeupRenders(a, last);
      assert deltas == before + [last];
      assert AllWhole(a, deltas) <==> AllWhole(a, before) && WakeupIsWhole(a, last);
    }
  }

  lemma NoBuffer(a: Audio, ms: nat)
    requires BufSize(a) > 0
    ensures Buffers(a, ms) == 0 <==> SampleCount(a, ms) < BufSize(a)
  {
    var count, size := SampleCount(a, ms), BufSize(a);
    assert count == count / size * size + count % size;
    if count / size > 0 {
      MulGrows(1, count / size, size);
    }
  }

  ghost predicate AllShort(a: Audio, deltas: seq<nat>) {
    forall k :: 0 <= k < |deltas| ==> SampleCount(a, deltas[k]) < BufSize(a)
  }

  /** Nothing is rendered at all if and only if no wakeup's count reaches a buffer. */
  lemma {:induction false} ExternalIsSilentIffShort(a: Audio, deltas: seq<nat>)
    requires BufSize(a) > 0
    ensures TotalRendered(a, deltas) == 0 <==> AllShort(a, deltas)
  {
    if deltas != [] {
      var n := |deltas| - 1;
      var before, last := deltas[..n], deltas[n];
      ExternalIsSilentIffShort(a, before);
      NoBuffer(a, last);
      assert deltas == before + [last];
      assert AllShort(a, deltas) <==> AllShort(a, before) && SampleCount(a, last) < BufSize(a);
    }
  }

  /** The external source that there is delivers 16000 Hz in mono. */
  function Game(data: seq<int>): Audio {
    Audio(16000, 1, data)
  }

  lemma GameCounts(data: seq<int>, ms: nat)
    ensures BufSize(Game(data)) == 160 && SampleCount(Game(data), ms) == 16 * ms
    ensures 16 * ms % 160 == 0 <==> ms % 10 == 0
  {
    ModUnique(16000 * ms, 1000, 16 * ms, 0);
    var q, r := ms / 10, ms % 10;
    assert 16 * ms == q * 160 + 16 * r;
    ModUnique(16 * ms, 160, q, 16 * r);
  }

  /** It loses nothing if and only if every wakeup comes after a multiple of 10 ms. */
  lemma GameIsLosslessIffTens(data: seq<int>, deltas: seq<nat>)
    ensures BufSize(Game(data)) > 0
    ensures RenderedFrames(Game(data), deltas) == TotalFrames(Game(data), deltas)
       <==> forall k :: 0 <= k < |deltas| ==> deltas[k] % 10 == 0
  {
    GameCounts(data, 0);
    ExternalIsLosslessIffWhole(Game(data), deltas);
    forall k | 0 <= k < |deltas|
      ensures WakeupIsWhole(Game(data), deltas[k]) <==> deltas[k] % 10 == 0
    {
      GameCounts(data, deltas[k]);
    }
  }

  /** A wakeup after 11 ms asks for 176 frames and renders 160. */
  lemma GameLoses(data: seq<int>)
    ensures BufSize(Game(data)) > 0
    ensures TotalFrames(Game(data), [11]) == 176 && RenderedFrames(Game(data), [11]) == 160
  {
    GameCounts(data, 11);
    assert [11 as nat][..0] == [];
    assert FramesRendered(Game(data), 11) == 160;
  }
}
