/**
 * The looping Y4M frame reader (src/y4m_reader.cpp). The file is a sequence of octets with a
 * cursor; an octet is a `char`.
 */
module Y4M {
  import opened Text

  const HEADER_LIMIT := 1024
  const LINE_LIMIT := 1024
  const MAGIC := "YUV4MPEG2"
  const FRAME_MAGIC := "FRAME"

  datatype Format = Format(
    width: int,
    height: int,
    fpsNum: int,
    fpsDen: int,
    aspectH: int,
    aspectV: int)

  const UNKNOWN := Format(0, 0, 0, 0, 0, 0)

  /** C++ division, which truncates toward zero. */
  function Quotient(a: int, b: int): int
    requires b != 0
  {
    if (a >= 0) == (b > 0) then Abs(a) / Abs(b) else -(Abs(a) / Abs(b))
  }

  function Abs(a: int): nat {
    if a >= 0 then a else -a
  }

  function ToInt32(a: int): int {
    (a + 0x8000_0000) % 0x1_0000_0000 - 0x8000_0000
  }

  function FrameSize(f: Format): int {
    f.width * f.height + Quotient(f.width + 1, 2) * Quotient(f.height + 1, 2) * 2
  }

  // ----- the header -----

  /** A token either extends the format or ends the parse with an error code. */
  datatype Parse = Parse(code: int, format: Format)

  predicate IsChroma420(token: string) {
    token == "C420jpeg" || token == "C420paldv" || token == "C420" || token == "C420mpeg2"
  }

  function ParseToken(f: Format, token: string): Parse {
    if token == "" then Parse(-5, f) else
    match token[0]
    case 'W' => Parse(0, f.(width := Atoi(token[1..])))
    case 'H' => Parse(0, f.(height := Atoi(token[1..])))
    case 'F' =>
      var n := Find(token, ':');
      if n < 0 then Parse(-7, f)
      else Parse(0, f.(fpsNum := Atoi(token[1..]), fpsDen := Atoi(token[n + 1..])))
    case 'I' => Parse(if |token| > 1 && token[1] == 'p' then 0 else 1, f)
    case 'A' =>
      var n := Find(token, ':');
      if n < 0 then Parse(-7, f)
      else Parse(0, f.(aspectH := Atoi(token[1..]), aspectV := Atoi(token[n + 1..])))
    case 'C' => Parse(if IsChroma420(token) then 0 else 2, f)
    case 'X' => Parse(0, f)
    case _ => Parse(-8, f)
  }

  function ParseTokens(f: Format, tokens: seq<string>): Parse
    decreases |tokens|
  {
    if tokens == [] then Parse(0, f)
    else var p := ParseToken(f, tokens[0]);
         if p.code != 0 then p else ParseTokens(p.format, tokens[1..])
  }

  /** The result of ReadHeader: its code, the format it leaves, and the length of the header. */
  datatype Header = Header(code: int, format: Format, length: nat)

  function ReadHeaderSpec(f: Format, file: string): Header {
    var data := if |file| > HEADER_LIMIT then file[..HEADER_LIMIT] else file;
    var n := Find(data, '\n');
    if data == "" then Header(-2, f, 0)
    else if n < 0 then Header(-3, f, 0)
    else
      var tokens := Split(data[..n], ' ');
      if tokens[0] != MAGIC then Header(-5, f, 0)
      else
        var p := ParseTokens(f, tokens[1..]);
        if p.code != 0 then Header(p.code, p.format, 0)
        else if p.format.width == 0 || p.format.height == 0 || p.format.fpsNum == 0
        then Header(-9, p.format, 0)
        else Header(0, p.format, n + 1)
  }

  // ----- the frames -----

  datatype Reader = Reader(
    file: string,
    cursor: nat,
    startPos: nat,
    pos: int,
    frame: int,
    prevFrame: int,
    format: Format)

  function Seek(rd: Reader, cursor: nat, pos: int): Reader {
    rd.(cursor := cursor, pos := pos)
  }

  /** Reads on to the end of the line, but not as far as `stop`. */
  function SkipLine(rd: Reader, stop: int): (int, Reader)
    decreases stop - rd.cursor
  {
    if rd.cursor >= stop then (-4, rd)
    else if rd.cursor >= |rd.file| then (-3, rd)
    else
      var next := Seek(rd, rd.cursor + 1, rd.pos + 1);
      if rd.file[rd.cursor] == '\n' then (0, next) else SkipLine(next, stop)
  }

  function ReadFrameHeaderSpec(rd: Reader): (int, Reader) {
    if rd.cursor + 5 > |rd.file| then
      (-1, Seek(rd, if rd.cursor < |rd.file| then |rd.file| else rd.cursor, rd.pos))
    else if rd.file[rd.cursor..rd.cursor + 5] != FRAME_MAGIC then
      (-2, Seek(rd, rd.cursor + 5, rd.pos))
    else
      SkipLine(Seek(rd, rd.cursor + 5, rd.pos + 5), rd.cursor + 5 + LINE_LIMIT)
  }

  /** At the exact end of the file, go back to the first frame. */
  function Wrapped(rd: Reader): Reader {
    if rd.pos == |rd.file| then Seek(rd, rd.startPos, rd.startPos) else rd
  }

  function SkipFrameSpec(rd: Reader): (int, Reader) {
    var (r, head) := ReadFrameHeaderSpec(rd);
    var size := FrameSize(rd.format);
    if r != 0 then (r, head)
    else if head.cursor + size < 0 then (-5, head)
    else
      var over := Seek(head, head.cursor + size, head.pos + size);
      if over.pos < 0 || over.pos > |rd.file| then (-6, over)
      else (0, Wrapped(over).(frame := rd.frame + 1))
  }

  function SkipTo(rd: Reader, frame: int): (int, Reader)
    decreases frame - rd.frame
  {
    if rd.frame >= frame then (0, rd)
    else
      var (r, rd') := SkipFrameSpec(rd);
      if r != 0 then (r, rd')
      else
        SkipKeepsFrame(rd);
        SkipTo(rd', frame)
  }

  lemma {:induction false} SkipLineKeeps(rd: Reader, stop: int)
    ensures var rd' := SkipLine(rd, stop).1; rd' == Seek(rd, rd'.cursor, rd'.pos)
    decreases stop - rd.cursor
  {
    if rd.cursor < stop && rd.cursor < |rd.file| && rd.file[rd.cursor] != '\n' {
      SkipLineKeeps(Seek(rd, rd.cursor + 1, rd.pos + 1), stop);
    }
  }

  lemma HeaderKeeps(rd: Reader)
    ensures var rd' := ReadFrameHeaderSpec(rd).1; rd' == Seek(rd, rd'.cursor, rd'.pos)
  {
    SkipLineKeeps(Seek(rd, rd.cursor + 5, rd.pos + 5), rd.cursor + 5 + LINE_LIMIT);
  }

  lemma SkipKeepsFrame(rd: Reader)
    ensures var (r, rd') := SkipFrameSpec(rd); r == 0 ==> rd'.frame == rd.frame + 1
    ensures SkipFrameSpec(rd).1.file == rd.file && SkipFrameSpec(rd).1.format == rd.format
    ensures SkipFrameSpec(rd).1.startPos == rd.startPos
    ensures SkipFrameSpec(rd).1.prevFrame == rd.prevFrame
    ensures SkipFrameSpec(rd).0 != 0 ==> SkipFrameSpec(rd).1.frame == rd.frame
  {
    HeaderKeeps(rd);
  }

  /** The frame number asked for at a time, as the source computes it in an int. */
  function FrameAt(f: Format, ms: int): int
    requires f.fpsDen != 0
  {
    ToInt32(Quotient(ms * f.fpsNum, 1000 * f.fpsDen))
  }

  /** The result of GetFrame: its code, `updated`, the reader, and the octets it read. */
  datatype Got = Got(code: int, updated: bool, reader: Reader, octets: string)

  /** The next n octets, or as many as there are. */
  function Ahead(rd: Reader, n: nat): (octets: string)
    ensures |octets| <= n
  {
    if rd.cursor + n <= |rd.file| then rd.file[rd.cursor..rd.cursor + n]
    else if rd.cursor < |rd.file| then rd.file[rd.cursor..]
    else ""
  }

  /** From the header of frame number `frame` on: read the frame and step past it. */
  function FetchSpec(at: Reader, frame: int): Got
    requires FrameSize(at.format) >= 0
  {
    var (r, head) := ReadFrameHeaderSpec(at);
    if r != 0 then Got(r, false, head, "")
    else
      var size := FrameSize(at.format);
      var octets := Ahead(head, size);
      var read := head.(cursor := head.cursor + |octets|);
      if |octets| != size then Got(-10, false, read, octets)
      else
        var over := read.(pos := head.pos + size);
        if over.pos < 0 || over.pos > |at.file| then Got(-11, false, over, octets)
        else Got(0, true, Wrapped(over).(frame := at.frame + 1, prevFrame := frame), octets)
  }

  function GetFrameSpec(rd: Reader, ms: int): Got
    requires rd.format.fpsDen != 0 && FrameSize(rd.format) >= 0
  {
    var frame := FrameAt(rd.format, ms);
    if rd.prevFrame == frame then Got(0, false, rd, "")
    else if frame < rd.frame then Got(-1, false, rd, "")
    else
      SkipToKeeps(rd, frame);
      var (skip, at) := SkipTo(rd, frame);
      if skip != 0 then Got(skip, false, at, "") else FetchSpec(at, frame)
  }

  lemma {:induction false} SkipToKeeps(rd: Reader, frame: int)
    ensures SkipTo(rd, frame).1.file == rd.file && SkipTo(rd, frame).1.format == rd.format
    decreases frame - rd.frame
  {
    if rd.frame < frame {
      SkipKeepsFrame(rd);
      var (r, rd') := SkipFrameSpec(rd);
      if r == 0 {
        SkipToKeeps(rd', frame);
      }
    }
  }

  // ----- the object -----

  class Y4MReader {
    var file: string
    var cursor: nat
    var startPos: nat
    var pos: int
    var frame: int
    var prevFrame: int
    var format: Format

    function Value(): Reader
      reads this
    {
      Reader(file, cursor, startPos, pos, frame, prevFrame, format)
    }

    /** An opened file, before its header is read. */
    constructor (file: string)
      ensures Value() == Reader(file, 0, 0, 0, 0, -1, UNKNOWN)
    {
      this.file, cursor, startPos, pos, frame, prevFrame := file, 0, 0, 0, 0, -1;
      format := UNKNOWN;
    }

    method ReadHeader() returns (r: int)
      requires cursor == 0
      modifies this
      ensures file == old(file)
      ensures var h := ReadHeaderSpec(old(format), file);
              && r == h.code && format == h.format
              && (r == 0 ==> Value() == Reader(file, h.length, h.length, h.length, 0, -1, format))
    {
      var data := if |file| > HEADER_LIMIT then file[..HEADER_LIMIT] else file;
      cursor := |data|;
      if |data| <= 0 {
        return -2;
      }
      var n := Find(data, '\n');
      if n < 0 {
        return -3;
      }
      var tokens := Split(data[..n], ' ');
      if tokens[0] != MAGIC {
        return -5;
      }
      tokens := tokens[1..];
      for k := 0 to |tokens|
        invariant file == old(file) && cursor == |data|
        invariant ParseTokens(old(format), tokens) == ParseTokens(format, tokens[k..])
      {
        var p := ParseToken(format, tokens[k]);
        assert tokens[k..][1..] == tokens[k + 1..];
        format := p.format;
        if p.code != 0 {
          return p.code;
        }
      }
      if format.width == 0 || format.height == 0 || format.fpsNum == 0 {
        return -9;
      }
      cursor := n + 1;
      startPos := n + 1;
      pos := n + 1;
      frame := 0;
      prevFrame := -1;
      return 0;
    }

    method ReadFrameHeader() returns (r: int)
      modifies this`cursor, this`pos
      ensures (r, Value()) == ReadFrameHeaderSpec(old(Value()))
    {
      if cursor + 5 > |file| {
        cursor := if cursor < |file| then |file| else cursor;
        return -1;
      }
      var magic := file[cursor..cursor + 5];
      cursor := cursor + 5;
      if magic != FRAME_MAGIC {
        return -2;
      }
      pos := pos + 5;
      ghost var begin := Value();
      ghost var stop := cursor + LINE_LIMIT;
      for i := 0 to LINE_LIMIT
        invariant Value() == Seek(begin, cursor, pos) && cursor == begin.cursor + i
        invariant SkipLine(begin, stop) == SkipLine(Value(), stop)
      {
        if cursor >= |file| {
          return -3;
        }
        var c := file[cursor];
        cursor := cursor + 1;
        pos := pos + 1;
        if c == '\n' {
          return 0;
        }
      }
      return -4;
    }

    method SkipFrame() returns (r: int)
      modifies this`cursor, this`pos, this`frame
      ensures (r, Value()) == SkipFrameSpec(old(Value()))
    {
      r := ReadFrameHeader();
      if r != 0 {
        return;
      }
      var size := FrameSize(format);
      if cursor + size < 0 {
        return -5;
      }
      cursor := cursor + size;
      pos := pos + size;
      if pos < 0 || pos > |file| {
        return -6;
      }
      if pos == |file| {
        cursor := startPos;
        pos := startPos;
      }
      frame := frame + 1;
      return 0;
    }

    /** fread of n octets: how many there were. */
    method ReadOctets(data: array<char>, n: nat) returns (r: nat)
      requires n <= data.Length
      modifies this`cursor, data
      ensures r == |Ahead(old(Value()), n)| && cursor == old(cursor) + r
      ensures data[..] == Ahead(old(Value()), n) + old(data[..])[r..]
    {
      var left := if cursor < |file| then |file| - cursor else 0;
      r := if n <= left then n else left;
      forall k | 0 <= k < r {
        data[k] := file[cursor + k];
      }
      cursor := cursor + r;
    }

    /** The part of GetFrame that follows the skipping. */
    method Fetch(wanted: int, data: array<char>) returns (r: int, updated: bool)
      requires 0 <= FrameSize(format) <= data.Length
      modifies this`cursor, this`pos, this`frame, this`prevFrame, data
      ensures var got := FetchSpec(old(Value()), wanted);
              && r == got.code && updated == got.updated && Value() == got.reader
              && |got.octets| <= data.Length
              && data[..] == got.octets + old(data[..])[|got.octets|..]
    {
      ghost var at := Value();
      HeaderKeeps(at);
      r := ReadFrameHeader();
      if r != 0 {
        return r, false;
      }
      ghost var head := Value();
      assert head == ReadFrameHeaderSpec(at).1 && head.file == at.file && head.format == at.format;
      var size := FrameSize(format);
      var n := ReadOctets(data, size);
      if n != size {
        return -10, false;
      }
      pos := pos + size;
      if pos < 0 || pos > |file| {
        return -11, false;
      }
      if pos == |file| {
        cursor := startPos;
        pos := startPos;
      }
      frame := frame + 1;
      prevFrame := wanted;
      return 0, true;
    }

    /** `updated` stays false, as its caller sets it, when an error is returned. */
    method GetFrame(ms: int, data: array<char>) returns (r: int, updated: bool)
      requires format.fpsDen != 0 && 0 <= FrameSize(format) <= data.Length
      modifies this`cursor, this`pos, this`frame, this`prevFrame, data
      ensures var got := GetFrameSpec(old(Value()), ms);
              && r == got.code && updated == got.updated && Value() == got.reader
              && |got.octets| <= data.Length
              && data[..] == got.octets + old(data[..])[|got.octets|..]
    {
      updated := false;
      var wanted := FrameAt(format, ms);
      if prevFrame == wanted {
        return 0, false;
      }
      if wanted < frame {
        return -1, false;
      }
      SkipToKeeps(Value(), wanted);
      while frame < wanted
        invariant file == old(file) && format == old(format)
        invariant SkipTo(old(Value()), wanted) == SkipTo(Value(), wanted)
        invariant data[..] == old(data[..])
        decreases wanted - frame
      {
        SkipKeepsFrame(Value());
        r := SkipFrame();
        if r != 0 {
          return;
        }
      }
      r, updated := Fetch(wanted, data);
    }
  }
}
