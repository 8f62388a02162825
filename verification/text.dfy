/** The C and Boost string functions that the file and option readers use. */
module Text {

  function Digit(d: nat): (c: char)
    requires d < 10
    ensures IsDigit(c) && DigitValue(c) == d
  {
    (('0' as int) + d) as char
  }

  predicate IsDigit(c: char) {
    '0' <= c <= '9'
  }

  function DigitValue(c: char): (d: nat)
    requires IsDigit(c)
    ensures d < 10
  {
    (c as int) - ('0' as int)
  }

  /** std::to_string of a nonnegative number. */
  function ToDecimal(n: nat): (s: string)
    ensures |s| > 0 && forall k :: 0 <= k < |s| ==> IsDigit(s[k])
  {
    if n < 10 then [Digit(n)] else ToDecimal(n / 10) + [Digit(n % 10)]
  }

  /** The value of the leading digits, continuing from `value`. */
  function LeadingDigits(s: string, value: nat): nat {
    if s != [] && IsDigit(s[0]) then LeadingDigits(s[1..], value * 10 + DigitValue(s[0]))
    else value
  }

  predicate IsSpace(c: char) {
    c == ' ' || '\t' <= c <= '\r'
  }

  /** The first number that an int does not hold; atoi is not defined from there on. */
  const INT_LIMIT := 0x8000_0000

  /** atoi, for values that fit an int: spaces, an optional sign, then digits. */
  function Atoi(s: string): int {
    if s == [] then 0
    else if IsSpace(s[0]) then Atoi(s[1..])
    else if s[0] == '-' then 0 - LeadingDigits(s[1..], 0)
    else if s[0] == '+' then LeadingDigits(s[1..], 0)
    else LeadingDigits(s, 0)
  }

  lemma {:induction false} DecimalThen(n: nat, rest: string)
    ensures LeadingDigits(ToDecimal(n) + rest, 0) == LeadingDigits(rest, n)
  {
    if n < 10 {
      assert ([Digit(n)] + rest)[1..] == rest;
    } else {
      var d := Digit(n % 10);
      DecimalThen(n / 10, [d] + rest);
      assert ToDecimal(n) + rest == ToDecimal(n / 10) + ([d] + rest);
      assert ([d] + rest)[1..] == rest;
    }
  }

  /** Reading back a printed number, whatever follows it, as long as that is no digit. */
  lemma AtoiReadsDecimal(n: nat, rest: string)
    requires n < INT_LIMIT
    requires rest != [] ==> !IsDigit(rest[0])
    ensures Atoi(ToDecimal(n) + rest) == n
  {
    DecimalThen(n, rest);
    assert IsDigit((ToDecimal(n) + rest)[0]);
  }

  lemma DecimalInjective(m: nat, n: nat)
    requires ToDecimal(m) == ToDecimal(n)
    ensures m == n
  {
    DecimalThen(m, "");
    DecimalThen(n, "");
    assert ToDecimal(m) + "" == ToDecimal(n) + "";
  }

  /** std::string::find, with -1 for npos. */
  function Find(s: string, c: char): (i: int)
    ensures -1 <= i < |s|
    ensures i >= 0 ==> s[i] == c && c !in s[..i]
    ensures i < 0 ==> c !in s
  {
    if s == [] then -1
    else if s[0] == c then 0
    else var i := Find(s[1..], c);
         if i < 0 then -1
         else assert s[..i + 1] == [s[0]] + s[1..][..i]; i + 1
  }

  lemma {:induction false} FindFirst(a: string, c: char, b: string)
    requires c !in a
    ensures Find(a + [c] + b, c) == |a|
  {
    if a != [] {
      FindFirst(a[1..], c, b);
      assert (a + [c] + b)[1..] == a[1..] + [c] + b;
    }
  }

  /** boost::split at single separators: n separators give n + 1 tokens. */
  function Split(s: string, c: char): (tokens: seq<string>)
    ensures |tokens| > 0
  {
    if s == [] then [[]]
    else var rest := Split(s[1..], c);
         if s[0] == c then [[]] + rest else [[s[0]] + rest[0]] + rest[1..]
  }

  function Join(tokens: seq<string>, c: char): string
    requires |tokens| > 0
  {
    if |tokens| == 1 then tokens[0] else tokens[0] + [c] + Join(tokens[1..], c)
  }

  lemma {:induction false} SplitToken(token: string, c: char)
    requires c !in token
    ensures Split(token, c) == [token]
  {
    if token != [] {
      SplitToken(token[1..], c);
      assert [token[0]] + token[1..] == token;
    }
  }

  lemma {:induction false} SplitFirst(token: string, c: char, rest: string)
    requires c !in token
    ensures Split(token + [c] + rest, c) == [token] + Split(rest, c)
    decreases |token|
  {
    var s := token + [c] + rest;
    if token == [] {
      assert s[1..] == rest;
    } else {
      SplitFirst(token[1..], c, rest);
      assert s[1..] == token[1..] + [c] + rest;
      assert [token[0]] + token[1..] == token;
    }
  }

  lemma {:induction false} SplitJoin(tokens: seq<string>, c: char)
    requires |tokens| > 0
    requires forall k :: 0 <= k < |tokens| ==> c !in tokens[k]
    ensures Split(Join(tokens, c), c) == tokens
    decreases |tokens|
  {
    if |tokens| == 1 {
      SplitToken(tokens[0], c);
    } else {
      SplitJoin(tokens[1..], c);
      SplitFirst(tokens[0], c, Join(tokens[1..], c));
    }
  }

  lemma {:induction false} JoinAvoids(tokens: seq<string>, c: char, d: char)
    requires |tokens| > 0 && c != d
    requires forall k :: 0 <= k < |tokens| ==> d !in tokens[k]
    ensures d !in Join(tokens, c)
    decreases |tokens|
  {
    if |tokens| > 1 {
      JoinAvoids(tokens[1..], c, d);
    }
  }
}
