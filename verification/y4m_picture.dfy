/**
 * Y4M files of pictures in three planes: what is played is every plane of every picture.
 */
module Y4MPictures {
  import opened Arithmetic
  import opened Text
  import opened Y4M
  import opened Y4MPlayback
  import opened Y4MHeader

  /** A 4:2:0 picture: each plane is a sequence of rows. */
  datatype Picture = Picture(luma: seq<string>, u: seq<string>, v: seq<string>)

  function Plane(rows: seq<string>): string {
    if rows == [] then "" else rows[0] + Plane(rows[1..])
  }

  /** The luma plane, and behind it both chroma planes. */
  function Octets(p: Picture): string {
    Plane(p.luma) + Plane(p.u) + Plane(p.v)
  }

  predicate IsPlane(rows: seq<string>, width: nat, height: nat) {
    |rows| == height && forall k :: 0 <= k < height ==> |rows[k]| == width
  }

  /** One of two neighbours each; at an odd edge the last one is alone. */
  predicate Halves(half: nat, whole: nat) {
    whole <= 2 * half < whole + 2
  }

  /** One octet of luma per pixel, and one of each chroma per two by two pixels. */
  ghost predicate IsPicture(p: Picture, width: nat, height: nat) {
    && IsPlane(p.luma, width, height)
    && exists w: nat, h: nat ::
         Halves(w, width) && Halves(h, height) && IsPlane(p.u, w, h) && IsPlane(p.v, w, h)
  }

  lemma {:induction false} PlaneSize(rows: seq<string>, width: nat, height: nat)
    requires IsPlane(rows, width, height)
    ensures |Plane(rows)| == width * height
    decreases |rows|
  {
    if rows != [] {
      PlaneSize(rows[1..], width, height - 1);
      assert width * height == width * (height - 1) + width;
    }
  }

  lemma HalvesAre(half: nat, whole: nat)
    requires Halves(half, whole)
    ensures half == Quotient(whole + 1, 2)
  {
  }

  lemma PictureSize(p: Picture, f: Format)
    requires f.width >= 0 && f.height >= 0 && IsPicture(p, f.width, f.height)
    ensures |Octets(p)| == FrameSize(f)
  {
    var w: nat, h: nat :| Halves(w, f.width) && Halves(h, f.height)
                          && IsPlane(p.u, w, h) && IsPlane(p.v, w, h);
    PlaneSize(p.luma, f.width, f.height);
    PlaneSize(p.u, w, h);
    PlaneSize(p.v, w, h);
    HalvesAre(w, f.width);
    HalvesAre(h, f.height);
  }

  /** A picture and what stands on its FRAME line. */
  datatype Shot = Shot(params: string, picture: Picture)

  function EncodeShots(shots: seq<Shot>): string {
    if shots == [] then ""
    else "FRAME" + shots[0].params + "\n" + Octets(shots[0].picture) + EncodeShots(shots[1..])
  }

  function Frames(shots: seq<Shot>): (frames: seq<Frame>)
    ensures |frames| == |shots|
    ensures forall k :: 0 <= k < |shots| ==>
              frames[k] == Frame(shots[k].params, Octets(shots[k].picture))
  {
    if shots == [] then []
    else [Frame(shots[0].params, Octets(shots[0].picture))] + Frames(shots[1..])
  }

  lemma {:induction false} ShotsAreFrames(shots: seq<Shot>)
    ensures EncodeShots(shots) == EncodeFrames(Frames(shots))
    decreases |shots|
  {
    if shots != [] {
      var frames := Frames(shots);
      ShotsAreFrames(shots[1..]);
      assert frames[1..] == Frames(shots[1..]);
    }
  }

  /** The number of the picture at a time: as many as the rate gives, rounded down. */
  predicate IsNumber(f: Format, ms: nat, number: nat) {
    number * (1000 * f.fpsDen) <= ms * f.fpsNum < (number + 1) * (1000 * f.fpsDen)
  }

  lemma NumberIs(f: Format, ms: nat, number: nat)
    requires Rated(f) && IsNumber(f, ms, number)
    ensures Number(f, ms) == number
  {
    var d := 1000 * f.fpsDen;
    assert (number + 1) * d == number * d + d;
    ModUnique(ms * f.fpsNum, d, number, ms * f.fpsNum - number * d);
  }

  /** A rate that is defined, and fields that say how large the pictures are. */
  ghost predicate Playable(f: Format, shots: seq<Shot>) {
    && f.width > 0 && f.height > 0 && f.fpsNum > 0 && f.fpsDen > 0 && 1000 * f.fpsDen < 0x8000_0000
    && shots != []
    && forall k :: 0 <= k < |shots| ==> IsShot(shots[k], f)
  }

  ghost predicate IsShot(s: Shot, f: Format)
    requires f.width > 0 && f.height > 0
  {
    && '\n' !in s.params && |s.params| < 1024
    && IsPicture(s.picture, f.width, f.height) && |Octets(s.picture)| < 0x8000_0000
  }

  lemma PlayableIsRated(f: Format, shots: seq<Shot>)
    requires Playable(f, shots)
    ensures Rated(f) && GoodFrames(Frames(shots), FrameSize(f))
  {
    forall k | 0 <= k < |shots|
      ensures |Octets(shots[k].picture)| == FrameSize(f) && IsShot(shots[k], f)
    {
      assert IsShot(shots[k], f);
      PictureSize(shots[k].picture, f);
    }
    assert IsShot(shots[0], f);
  }

  /**
   * A whole file of 4:2:0 pictures, from its printed header to the last plane of its last picture:
   * opening it succeeds, and at any nondecreasing times each call returns 0 and leaves in the
   * buffer all octets of the luma plane and of both chroma planes of the picture whose number is
   * floor(ms * rate / 1000), modulo the number of pictures; `updated` says whether that number has
   * changed.
   */
  lemma PicturesPlay(fields: seq<Field>, shots: seq<Shot>, times: seq<nat>, numbers: seq<nat>)
    requires forall f :: f in fields ==> Writable(f)
    requires |Line(fields)| < 1024 && Nondecreasing(times) && |numbers| == |times|
    requires var format := Meanings(UNKNOWN, fields);
             && Playable(format, shots)
             && forall i :: 0 <= i < |times| ==>
                  IsNumber(format, times[i], numbers[i]) && numbers[i] < 0x8000_0000
    ensures var file := Line(fields) + "\n" + EncodeShots(shots);
            && ReadHeaderSpec(UNKNOWN, file).code == 0
            && var rd := Opened(file);
               && rd.format == Meanings(UNKNOWN, fields) && FrameSize(rd.format) >= 0
               && var shown := Play(rd, "", times);
                  && |shown| == |times|
                  && forall i :: 0 <= i < |times| ==>
                       var p := shots[numbers[i] % |shots|].picture;
                       shown[i] == Shown(0, i == 0 || numbers[i] != numbers[i - 1],
                                         Plane(p.luma) + Plane(p.u) + Plane(p.v))
  {
    var format, frames := Meanings(UNKNOWN, fields), Frames(shots);
    PlayableIsRated(format, shots);
    ShotsAreFrames(shots);
    forall i | 0 <= i < |times|
      ensures Number(format, times[i]) == numbers[i]
    {
      NumberIs(format, times[i], numbers[i]);
    }
    FilePlays(fields, frames, times);
  }
}
