/**
 * Writing a Y4M header and reading it back, and playing a whole file that starts with it.
 */
module Y4MHeader {
  import opened Text
  import opened Y4M
  import opened Y4MPlayback

  datatype Field =
    | Width(w: nat)
    | Height(h: nat)
    | Rate(num: nat, den: nat)
    | Aspect(ah: nat, av: nat)
    | Progressive
    | Chroma(tag: string)
    | Comment(text: string)

  function Token(f: Field): string {
    match f
    case Width(w) => "W" + ToDecimal(w)
    case Height(h) => "H" + ToDecimal(h)
    case Rate(num, den) => "F" + ToDecimal(num) + ":" + ToDecimal(den)
    case Aspect(ah, av) => "A" + ToDecimal(ah) + ":" + ToDecimal(av)
    case Progressive => "Ip"
    case Chroma(tag) => tag
    case Comment(text) => "X" + text
  }

  /** Fields that can be written: numbers of an int, 4:2:0 tags, and comments of one word. */
  predicate Writable(f: Field) {
    match f
    case Width(w) => w < INT_LIMIT
    case Height(h) => h < INT_LIMIT
    case Rate(num, den) => num < INT_LIMIT && den < INT_LIMIT
    case Aspect(ah, av) => ah < INT_LIMIT && av < INT_LIMIT
    case Chroma(tag) => IsChroma420(tag)
    case Comment(text) => ' ' !in text && '\n' !in text
    case _ => true
  }

  function Tokens(fields: seq<Field>): (tokens: seq<string>)
    ensures |tokens| == |fields|
    ensures forall k :: 0 <= k < |fields| ==> tokens[k] == Token(fields[k])
  {
    if fields == [] then [] else [Token(fields[0])] + Tokens(fields[1..])
  }

  /** The header line: the magic word and the fields, separated by single spaces. */
  function Line(fields: seq<Field>): string {
    Join([MAGIC] + Tokens(fields), ' ')
  }

  /** What a field says about the format. */
  function Meaning(format: Format, f: Field): Format {
    match f
    case Width(w) => format.(width := w)
    case Height(h) => format.(height := h)
    case Rate(num, den) => format.(fpsNum := num, fpsDen := den)
    case Aspect(ah, av) => format.(aspectH := ah, aspectV := av)
    case _ => format
  }

  function Meanings(format: Format, fields: seq<Field>): Format
    decreases |fields|
  {
    if fields == [] then format else Meanings(Meaning(format, fields[0]), fields[1..])
  }

  lemma NumberIsParsed(letter: char, n: nat)
    requires n < INT_LIMIT
    ensures Atoi(([letter] + ToDecimal(n))[1..]) == n
  {
    assert ([letter] + ToDecimal(n))[1..] == ToDecimal(n) + "";
    AtoiReadsDecimal(n, "");
  }

  lemma PairParts(letter: char, a: string, b: string)
    requires letter != ':' && ':' !in a
    ensures var token := [letter] + a + ":" + b;
            && token[1..] == a + (":" + b)
            && Find(token, ':') == 1 + |a|
            && token[1 + |a| + 1..] == b + ""
  {
    var token := [letter] + a + ":" + b;
    assert token == ([letter] + a) + [':'] + b;
    FindFirst([letter] + a, ':', b);
  }

  lemma PairIsParsed(letter: char, a: nat, b: nat)
    requires letter != ':' && a < INT_LIMIT && b < INT_LIMIT
    ensures var token := [letter] + ToDecimal(a) + ":" + ToDecimal(b);
            var n := Find(token, ':');
            n >= 0 && Atoi(token[1..]) == a && Atoi(token[n + 1..]) == b
  {
    PairParts(letter, ToDecimal(a), ToDecimal(b));
    AtoiReadsDecimal(a, ":" + ToDecimal(b));
    AtoiReadsDecimal(b, "");
  }

  lemma PairTokenIsParsed(format: Format, f: Field)
    requires (f.Rate? || f.Aspect?) && Writable(f)
    ensures ParseToken(format, Token(f)) == Parse(0, Meaning(format, f))
  {
    match f
    case Rate(num, den) =>
      PairIsParsed('F', num, den);
      assert Token(f) == ['F'] + ToDecimal(num) + ":" + ToDecimal(den);
    case Aspect(ah, av) =>
      PairIsParsed('A', ah, av);
      assert Token(f) == ['A'] + ToDecimal(ah) + ":" + ToDecimal(av);
  }

  lemma TokenIsParsed(format: Format, f: Field)
    requires Writable(f)
    ensures ParseToken(format, Token(f)) == Parse(0, Meaning(format, f))
  {
    match f
    case Width(w) => NumberIsParsed('W', w);
    case Height(h) => NumberIsParsed('H', h);
    case Rate(_, _) => PairTokenIsParsed(format, f);
    case Aspect(_, _) => PairTokenIsParsed(format, f);
    case Progressive =>
    case Chroma(tag) => assert tag[0] == 'C';
    case Comment(text) => assert Token(f)[0] == 'X';
  }

  lemma {:induction false} TokensAreParsed(format: Format, fields: seq<Field>)
    requires forall f :: f in fields ==> Writable(f)
    ensures ParseTokens(format, Tokens(fields)) == Parse(0, Meanings(format, fields))
    decreases |fields|
  {
    if fields != [] {
      assert fields[0] in fields;
      TokenIsParsed(format, fields[0]);
      TokensAreParsed(Meaning(format, fields[0]), fields[1..]);
      assert Tokens(fields)[1..] == Tokens(fields[1..]);
    }
  }

  lemma DecimalAvoids(n: nat)
    ensures ' ' !in ToDecimal(n) && '\n' !in ToDecimal(n)
  {
  }

  lemma PairAvoids(letter: string, a: nat, b: nat)
    requires ' ' !in letter && '\n' !in letter
    ensures var token := letter + ToDecimal(a) + ":" + ToDecimal(b);
            ' ' !in token && '\n' !in token
  {
    DecimalAvoids(a);
    DecimalAvoids(b);
  }

  lemma TokenAvoids(f: Field)
    requires Writable(f)
    ensures ' ' !in Token(f) && '\n' !in Token(f)
  {
    match f
    case Width(w) => DecimalAvoids(w);
    case Height(h) => DecimalAvoids(h);
    case Rate(num, den) => PairAvoids("F", num, den);
    case Aspect(ah, av) => PairAvoids("A", ah, av);
    case _ =>
  }

  lemma LineSplits(fields: seq<Field>)
    requires forall f :: f in fields ==> Writable(f)
    ensures Split(Line(fields), ' ') == [MAGIC] + Tokens(fields)
    ensures '\n' !in Line(fields)
  {
    var tokens := [MAGIC] + Tokens(fields);
    forall k | 0 <= k < |tokens|
      ensures ' ' !in tokens[k] && '\n' !in tokens[k]
    {
      if k > 0 {
        TokenAvoids(fields[k - 1]);
      }
    }
    SplitJoin(tokens, ' ');
    JoinAvoids(tokens, ' ', '\n');
  }

  /** The first newline of the octets that are read ends the header line. */
  lemma LineIsFound(line: string, rest: string)
    requires '\n' !in line && |line| < HEADER_LIMIT
    ensures var file := line + "\n" + rest;
            var data := if |file| > HEADER_LIMIT then file[..HEADER_LIMIT] else file;
            data != "" && Find(data, '\n') == |line| && data[..|line|] == line
  {
    var file := line + "\n" + rest;
    var data := if |file| > HEADER_LIMIT then file[..HEADER_LIMIT] else file;
    assert data == line + ['\n'] + data[|line| + 1..];
    FindFirst(line, '\n', data[|line| + 1..]);
  }

  /**
   * Any fields in any order, on a header line whose newline is among the first 1024 octets: if
   * width, height and frame rate come out nonzero, ReadHeader returns 0, recovers what the
   * fields mean, and stops just after the line.
   */
  lemma HeaderRoundTrip(fields: seq<Field>, rest: string)
    requires forall f :: f in fields ==> Writable(f)
    requires |Line(fields)| < HEADER_LIMIT
    ensures var format := Meanings(UNKNOWN, fields);
            var h := ReadHeaderSpec(UNKNOWN, Line(fields) + "\n" + rest);
            if format.width == 0 || format.height == 0 || format.fpsNum == 0
            then h.code == -9
            else h == Header(0, format, |Line(fields)| + 1)
  {
    var line := Line(fields);
    LineSplits(fields);
    TokensAreParsed(UNKNOWN, fields);
    LineIsFound(line, rest);
    assert ([MAGIC] + Tokens(fields))[1..] == Tokens(fields);
  }

  // ----- the order of the fields does not matter -----

  predicate SameKind(f: Field, g: Field) {
    (f.Width? && g.Width?) || (f.Height? && g.Height?)
    || (f.Rate? && g.Rate?) || (f.Aspect? && g.Aspect?)
  }

  /** Wherever it stands, a field that no other field contradicts determines its part. */
  lemma {:induction false} FieldIsRecovered(format: Format, fields: seq<Field>, f: Field)
    requires f in fields || Meaning(format, f) == format
    requires forall g :: g in fields && SameKind(f, g) ==> g == f
    ensures Meaning(Meanings(format, fields), f) == Meanings(format, fields)
    decreases |fields|
  {
    if fields != [] {
      var g := fields[0];
      assert g in fields;
      FieldIsRecovered(Meaning(format, g), fields[1..], f);
    }
  }

  /** Two orders of the same fields, without contradictions, mean the same format. */
  lemma OrderDoesNotMatter(a: seq<Field>, b: seq<Field>)
    requires multiset(a) == multiset(b)
    requires forall f, g :: f in a && g in a && SameKind(f, g) ==> f == g
    ensures Meanings(UNKNOWN, a) == Meanings(UNKNOWN, b)
  {
    forall f
      ensures f in a <==> f in b
    {
      assert f in a <==> f in multiset(a);
      assert f in b <==> f in multiset(b);
    }
    var x, y := Meanings(UNKNOWN, a), Meanings(UNKNOWN, b);
    forall f | f in a
      ensures Meaning(x, f) == x && Meaning(y, f) == y
    {
      FieldIsRecovered(UNKNOWN, a, f);
      FieldIsRecovered(UNKNOWN, b, f);
    }
    AbsentKinds(UNKNOWN, a);
    AbsentKinds(UNKNOWN, b);
  }

  lemma {:induction false} AbsentKinds(format: Format, fields: seq<Field>)
    ensures var m := Meanings(format, fields);
            && ((forall f :: f in fields ==> !f.Width?) ==> m.width == format.width)
            && ((forall f :: f in fields ==> !f.Height?) ==> m.height == format.height)
            && ((forall f :: f in fields ==> !f.Rate?) ==>
                  m.fpsNum == format.fpsNum && m.fpsDen == format.fpsDen)
            && ((forall f :: f in fields ==> !f.Aspect?) ==>
                  m.aspectH == format.aspectH && m.aspectV == format.aspectV)
    decreases |fields|
  {
    if fields != [] {
      assert fields[0] in fields;
      AbsentKinds(Meaning(format, fields[0]), fields[1..]);
    }
  }

  // ----- a whole file -----

  /** The reader after a successful ReadHeader. */
  function Opened(file: string): Reader {
    var h := ReadHeaderSpec(UNKNOWN, file);
    Reader(file, h.length, h.length, h.length, 0, -1, h.format)
  }

  /**
   * A whole file, from its printed header to its last frame: opening it succeeds, and playing it
   * at any nondecreasing times shows, at each, the frame of that time in an endless loop.
   */
  lemma FilePlays(fields: seq<Field>, frames: seq<Frame>, times: seq<nat>)
    requires forall f :: f in fields ==> Writable(f)
    requires |Line(fields)| < HEADER_LIMIT && |frames| > 0 && Nondecreasing(times)
    requires var format := Meanings(UNKNOWN, fields);
             && format.width != 0 && format.height != 0 && format.fpsNum != 0
             && Rated(format) && GoodFrames(frames, FrameSize(format))
             && forall i :: 0 <= i < |times| ==> Fits(format, times[i])
    ensures var format := Meanings(UNKNOWN, fields);
            var file := Line(fields) + "\n" + EncodeFrames(frames);
            && ReadHeaderSpec(UNKNOWN, file).code == 0 && Opened(file).format == format
            && Play(Opened(file), "", times) == Ideal(format, frames, -1, times)
  {
    var format := Meanings(UNKNOWN, fields);
    var file := Line(fields) + "\n" + EncodeFrames(frames);
    HeaderRoundTrip(fields, EncodeFrames(frames));
    OpensInStep(file, |Line(fields)| + 1, format, frames);
    var rd := Reader(file, |Line(fields)| + 1, |Line(fields)| + 1, |Line(fields)| + 1, 0, -1, format);
    if times != [] {
      NumberIsQuotient(format, times[0]);
    }
    PlaysEveryTime(rd, frames, "", times);
  }

  lemma OpensInStep(file: string, start: nat, format: Format, frames: seq<Frame>)
    requires start <= |file| && file[start..] == EncodeFrames(frames) && |frames| > 0
    requires GoodFrames(frames, FrameSize(format))
    ensures Ready(Reader(file, start, start, start, 0, -1, format), frames)
  {
    assert 0 % |frames| == 0 && frames[..0] == [];
  }
}
