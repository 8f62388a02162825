/**
 * Which Y4M files and frames are accepted at all (src/y4m_reader.cpp).
 */
module Y4MAcceptance {
  import opened Text
  import opened Y4M

  /** A token that a 4:2:0 file of whole pictures can have. */
  predicate Understood(token: string) {
    && token != ""
    && (token[0] == 'W' || token[0] == 'H' || token[0] == 'X'
        || ((token[0] == 'F' || token[0] == 'A') && ':' in token)
        || (token[0] == 'I' && |token| > 1 && token[1] == 'p')
        || token == "C420jpeg" || token == "C420paldv" || token == "C420" || token == "C420mpeg2")
  }

  lemma {:induction false} ParsesIffUnderstood(f: Format, tokens: seq<string>)
    ensures ParseTokens(f, tokens).code == 0 <==> forall k :: 0 <= k < |tokens| ==> Understood(tokens[k])
    decreases |tokens|
  {
    if tokens != [] {
      var p := ParseToken(f, tokens[0]);
      OneParses(f, tokens[0]);
      ParsesIffUnderstood(p.format, tokens[1..]);
      assert tokens == [tokens[0]] + tokens[1..];
    }
  }

  lemma OneParses(f: Format, token: string)
    ensures ParseToken(f, token).code == 0 <==> Understood(token)
  {
    assert IsChroma420(token) ==> token[0] == 'C';
  }

  /** The first newline of a file. */
  predicate FirstLineEnds(file: string, k: nat) {
    k < |file| && file[k] == '\n' && '\n' !in file[..k]
  }

  lemma FindIs(s: string, c: char, k: nat)
    requires k < |s| && s[k] == c && c !in s[..k]
    ensures Find(s, c) == k
  {
    assert s == s[..k] + [c] + s[k + 1..];
    FindFirst(s[..k], c, s[k + 1..]);
  }

  /**
   * Of all files, ReadHeader accepts exactly those whose first newline is among the first 1024
   * octets, and whose first line has the magic word first, behind it only what is understood,
   * progressive and 4:2:0, and among that a size and a rate.
   */
  lemma AcceptsExactly(file: string, k: nat)
    requires FirstLineEnds(file, k)
    ensures var h := ReadHeaderSpec(UNKNOWN, file);
            var tokens := Split(file[..k], ' ');
            h.code == 0 <==>
              && k < 1024 && tokens[0] == "YUV4MPEG2"
              && (forall j :: 1 <= j < |tokens| ==> Understood(tokens[j]))
              && h.format.width != 0 && h.format.height != 0 && h.format.fpsNum != 0
  {
    var data := if |file| > 1024 then file[..1024] else file;
    var tokens := Split(file[..k], ' ');
    ParsesIffUnderstood(UNKNOWN, tokens[1..]);
    assert forall j :: 1 <= j < |tokens| ==> tokens[j] == tokens[1..][j - 1];
    if k < 1024 {
      assert data[..k] == file[..k];
      FindIs(data, '\n', k);
    } else {
      assert data == file[..k][..1024];
    }
  }

  /** Files without a line are refused. */
  lemma NeedsALine(file: string)
    requires '\n' !in file
    ensures ReadHeaderSpec(UNKNOWN, file).code == if file == "" then -2 else -3
  {
  }

  // ----- frames -----

  /** The line that the cursor is in ends at `end`. */
  predicate LineEnds(rd: Reader, end: nat) {
    && rd.cursor <= end < |rd.file| && rd.file[end] == '\n'
    && forall j :: rd.cursor <= j < end ==> rd.file[j] != '\n'
  }

  lemma {:induction false} SkipsLineOnly(rd: Reader, stop: int, end: nat)
    requires LineEnds(rd, end)
    ensures SkipLine(rd, stop).0 == if end < stop then 0 else -4
    ensures end < stop ==>
              SkipLine(rd, stop).1 == Seek(rd, end + 1, rd.pos + (end + 1 - rd.cursor))
    decreases end - rd.cursor
  {
    if rd.cursor < end && rd.cursor < stop {
      SkipsLineOnly(Seek(rd, rd.cursor + 1, rd.pos + 1), stop, end);
    }
  }

  /**
   * Of all places in a line of the file, a frame starts at exactly those that say FRAME, with the
   * newline within 1024 octets behind that; then the picture starts behind the line. Otherwise the
   * code is -1 at the end of the file, -2 for another word, and -4 for a longer line.
   */
  lemma FrameLineExactly(rd: Reader, end: nat)
    requires LineEnds(rd, end)
    ensures var (r, rd') := ReadFrameHeaderSpec(rd);
            if rd.cursor + 5 > |rd.file| then r == -1
            else if rd.file[rd.cursor..rd.cursor + 5] != "FRAME" then r == -2
            else if end >= rd.cursor + 5 + 1024 then r == -4
            else r == 0 && rd' == Seek(rd, end + 1, rd.pos + (end + 1 - rd.cursor))
  {
    if rd.cursor + 5 <= |rd.file| && rd.file[rd.cursor..rd.cursor + 5] == "FRAME" {
      MagicHasNoNewline(rd.file, rd.cursor);
      SkipsLineOnly(Seek(rd, rd.cursor + 5, rd.pos + 5), rd.cursor + 5 + 1024, end);
    }
  }

  lemma MagicHasNoNewline(file: string, at: nat)
    requires at + 5 <= |file| && file[at..at + 5] == "FRAME"
    ensures forall j :: at <= j < at + 5 ==> file[j] != '\n'
  {
    forall j | at <= j < at + 5
      ensures file[j] != '\n'
    {
      assert file[j] == file[at..at + 5][j - at] == "FRAME"[j - at];
    }
  }
}
