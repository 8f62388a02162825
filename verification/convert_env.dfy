/**
 * Expansion of ${name} in option values (ConvertEnv in src/util.cpp), and its use for numbering
 * the instances of a scenario (ParseInstanceToArgs).
 */
module ConvertEnv {
  import opened Text

  type Env = map<string, string>

  /** What `.` does not match in an ECMAScript regular expression over bytes. */
  predicate IsTerminator(c: char) {
    c == '\n' || c == '\r'
  }

  /** The first '}' of s, unless a line terminator comes before it. */
  function Scan(s: string): (k: int)
    ensures -1 <= k < |s|
    ensures k >= 0 ==> s[k] == '}' && forall i :: 0 <= i < k ==> s[i] != '}' && !IsTerminator(s[i])
    ensures k < 0 ==> forall j :: 0 <= j < |s| && s[j] == '}' ==>
                        exists i :: 0 <= i < j && IsTerminator(s[i])
  {
    if s == "" || IsTerminator(s[0]) then -1
    else if s[0] == '}' then 0
    else var k := Scan(s[1..]);
         if k < 0 then
           assert forall j :: 0 < j < |s| && s[j] == '}' ==> s[1..][j - 1] == '}';
           -1
         else k + 1
  }

  /** The length of the match of \$\{(.*?)\} at the very start of s, or -1. */
  function MatchLength(s: string): (n: int)
    ensures n >= 0 ==> 3 <= n <= |s|
  {
    if |s| < 2 || s[0] != '$' || s[1] != '{' then -1
    else var k := Scan(s[2..]); if k < 0 then -1 else k + 3
  }

  function Name(s: string): string
    requires MatchLength(s) >= 0
  {
    s[2..MatchLength(s) - 1]
  }

  function Value(match_: string, name: string, env: Env): string {
    if name in env then env[name] else match_
  }

  /** The substitution, read from left to right. */
  function Expand(s: string, env: Env): string {
    if s == "" then ""
    else
      var n := MatchLength(s);
      if n < 0 then [s[0]] + Expand(s[1..], env)
      else Value(s[..n], Name(s), env) + Expand(s[n..], env)
  }

  /** No match starts at any of the first i positions. */
  predicate NoMatchBefore(s: string, i: nat)
    requires i <= |s|
    decreases i
  {
    i == 0 || (MatchLength(s) < 0 && NoMatchBefore(s[1..], i - 1))
  }

  /** Where the regex iterator finds the next match, or -1. */
  function NextMatch(s: string): (i: int)
    ensures -1 <= i < |s|
  {
    if s == "" then -1
    else if MatchLength(s) >= 0 then 0
    else
      var i := NextMatch(s[1..]);
      if i < 0 then -1 else i + 1
  }

  lemma {:induction false} NextMatchIsFirst(s: string)
    ensures var i := NextMatch(s);
            && NoMatchBefore(s, if i < 0 then |s| else i)
            && (i >= 0 ==> MatchLength(s[i..]) >= 0)
  {
    if s != "" {
      if MatchLength(s) >= 0 {
        assert s[0..] == s;
      } else {
        NextMatchIsFirst(s[1..]);
        var i := NextMatch(s[1..]);
        assert i >= 0 ==> s[1..][i..] == s[i + 1..];
      }
    }
  }

  lemma {:induction false} ExpandSkips(s: string, i: nat, env: Env)
    requires i <= |s| && NoMatchBefore(s, i)
    ensures Expand(s, env) == s[..i] + Expand(s[i..], env)
    decreases i
  {
    if i == 0 {
      assert s[0..] == s;
    } else {
      ExpandSkips(s[1..], i - 1, env);
      assert s[1..][i - 1..] == s[i..];
      assert [s[0]] + s[1..][..i - 1] == s[..i];
    }
  }

  /** The prefix up to the next match, then the value of the match, then the rest. */
  lemma ExpandNext(s: string, env: Env)
    requires NextMatch(s) >= 0
    ensures var tail := s[NextMatch(s)..];
            var n := MatchLength(tail);
            n >= 3 && Expand(s, env)
            == s[..NextMatch(s)] + (Value(tail[..n], Name(tail), env) + Expand(tail[n..], env))
  {
    NextMatchIsFirst(s);
    ExpandSkips(s, NextMatch(s), env);
  }

  lemma ExpandLast(s: string, env: Env)
    requires NextMatch(s) < 0
    ensures Expand(s, env) == s
  {
    NextMatchIsFirst(s);
    ExpandSkips(s, |s|, env);
    assert s[|s|..] == "";
  }

  lemma Regroup(a: string, b: string, c: string, d: string)
    ensures a + (b + (c + d)) == a + b + c + d
  {
  }

  method Convert(input: string, env: Env) returns (result: string)
    ensures result == Expand(input, env)
  {
    result := "";
    var suffix, found := input, false;
    var i := NextMatch(suffix);
    while i >= 0
      invariant i == NextMatch(suffix)
      invariant result + Expand(suffix, env) == Expand(input, env)
      invariant !found ==> result == "" && suffix == input
      decreases |suffix|
    {
      ExpandNext(suffix, env);
      var m := suffix[i..];
      var n := MatchLength(m);
      var v := Value(m[..n], Name(m), env);
      Regroup(result, suffix[..i], v, Expand(m[n..], env));
      result := result + suffix[..i];
      result := result + v;
      suffix := m[n..];
      found := true;
      i := NextMatch(suffix);
    }
    ExpandLast(suffix, env);
    if found {
      result := result + suffix;
    } else {
      result := input;
    }
  }

  // ----- what is substituted -----

  /** The names of the references of s, from left to right. */
  function Names(s: string): seq<string> {
    if s == "" then []
    else
      var n := MatchLength(s);
      if n < 0 then Names(s[1..]) else [Name(s)] + Names(s[n..])
  }

  /** References whose name is not defined stay as they are. */
  lemma {:induction false} UnknownNamesStay(s: string, env: Env)
    requires forall name :: name in Names(s) ==> name !in env
    ensures Expand(s, env) == s
    decreases |s|
  {
    if s != "" {
      var n := MatchLength(s);
      if n < 0 {
        UnknownNamesStay(s[1..], env);
      } else {
        var later := Names(s[n..]);
        assert Names(s) == [Name(s)] + later;
        assert Names(s)[0] == Name(s) && forall k :: 0 <= k < |later| ==> Names(s)[k + 1] == later[k];
        UnknownNamesStay(s[n..], env);
        assert s[..n] + s[n..] == s;
      }
    }
  }

  // ----- idempotence -----

  /** A value that cannot take part in a reference, as the digits of a number. */
  predicate Inert(value: string) {
    value != "" && forall k :: 0 <= k < |value| ==> value[k] !in "${}"
  }

  predicate AllInert(env: Env) {
    forall name :: name in env ==> Inert(env[name])
  }

  lemma {:induction false} ScanPrefix(a: string, b: string)
    requires forall k :: 0 <= k < |a| ==> a[k] != '}' && !IsTerminator(a[k])
    ensures Scan(a + b) == if Scan(b) < 0 then -1 else |a| + Scan(b)
    decreases |a|
  {
    if a == "" {
      assert a + b == b;
    } else {
      assert (a + b)[1..] == a[1..] + b;
      ScanPrefix(a[1..], b);
    }
  }

  /** A reference is found again whatever follows it. */
  lemma MatchIsLocal(s: string, rest: string)
    requires MatchLength(s) >= 0
    ensures var n := MatchLength(s);
            MatchLength(s[..n] + rest) == n && Name(s[..n] + rest) == Name(s)
  {
    var n := MatchLength(s);
    var name := s[2..][..n - 3];
    var t := s[..n] + rest;
    assert name == Name(s);
    assert t[2..] == name + (['}'] + rest);
    ScanPrefix(name, ['}'] + rest);
    assert t[2..n - 1] == name;
  }

  lemma {:induction false} InertIsCopied(value: string, rest: string, env: Env)
    requires forall k :: 0 <= k < |value| ==> value[k] != '$'
    ensures Expand(value + rest, env) == value + Expand(rest, env)
    decreases |value|
  {
    if value == "" {
      assert value + rest == rest;
    } else {
      var t := value + rest;
      assert t[1..] == value[1..] + rest && t[0] == value[0];
      InertIsCopied(value[1..], rest, env);
      assert [value[0]] + (value[1..] + Expand(rest, env)) == value + Expand(rest, env);
    }
  }

  /** A '}' that cannot be reached before expansion cannot be reached afterwards. */
  lemma {:induction false} StaysOpen(s: string, env: Env)
    requires Scan(s) < 0
    ensures Scan(Expand(s, env)) < 0
    decreases |s|
  {
    if s != "" {
      if |s| >= 2 && s[0] == '$' && s[1] == '{' {
        assert s[1..][1..] == s[2..];
      }
      assert Expand(s, env) == [s[0]] + Expand(s[1..], env);
      assert Expand(s, env)[1..] == Expand(s[1..], env);
      if !IsTerminator(s[0]) {
        StaysOpen(s[1..], env);
      }
    }
  }

  /** What replaces a reference does not begin with a brace. */
  lemma ReplacedHead(s: string, env: Env)
    requires AllInert(env) && MatchLength(s) >= 0
    ensures Expand(s, env) != "" && Expand(s, env)[0] != '{'
  {
    var v := Value(s[..MatchLength(s)], Name(s), env);
    assert Expand(s, env)[0] == v[0];
    assert Name(s) in env ==> v[0] !in "${}";
    assert "${}"[1] == '{';
  }

  lemma ExpandedHead(s: string, env: Env)
    requires AllInert(env) && Expand(s, env) != "" && Expand(s, env)[0] == '{'
    ensures s != "" && s[0] == '{' && Expand(s, env)[1..] == Expand(s[1..], env)
  {
    if MatchLength(s) >= 0 {
      ReplacedHead(s, env);
    }
  }

  /** Expanding a second time changes nothing, for values such as numbers. */
  lemma {:induction false} ExpandIsIdempotent(s: string, env: Env)
    requires AllInert(env)
    ensures Expand(Expand(s, env), env) == Expand(s, env)
    decreases |s|
  {
    if s != "" {
      var n := MatchLength(s);
      if n < 0 {
        var rest := Expand(s[1..], env);
        ExpandIsIdempotent(s[1..], env);
        var t := [s[0]] + rest;
        assert t[1..] == rest;
        if s[0] == '$' && rest != "" && rest[0] == '{' {
          ExpandedHead(s[1..], env);
          assert s[1..][1..] == s[2..];
          StaysOpen(s[2..], env);
          assert t[2..] == rest[1..] == Expand(s[2..], env);
        }
        assert MatchLength(t) < 0;
      } else {
        var rest := Expand(s[n..], env);
        ExpandIsIdempotent(s[n..], env);
        if Name(s) in env {
          InertIsCopied(env[Name(s)], rest, env);
        } else {
          MatchIsLocal(s, rest);
          var t := s[..n] + rest;
          assert t[..n] == s[..n] && t[n..] == rest;
        }
      }
    }
  }

  // ----- numbering instances -----

  function Numbered(i: nat): Env {
    map["" := ToDecimal(i + 1)]
  }

  function Count(s: string): nat {
    if s == "" then 0
    else
      var n := MatchLength(s);
      if n < 0 then Count(s[1..]) else (if Name(s) == "" then 1 else 0) + Count(s[n..])
  }

  /** The length of the expansion when ${} stands for k characters. */
  function Length(s: string, k: nat): nat {
    if s == "" then 0
    else
      var n := MatchLength(s);
      if n < 0 then 1 + Length(s[1..], k)
      else (if Name(s) == "" then k else n) + Length(s[n..], k)
  }

  lemma {:induction false} ExpandedLength(s: string, v: string)
    ensures |Expand(s, map["" := v])| == Length(s, |v|)
    decreases |s|
  {
    if s != "" {
      var n := MatchLength(s);
      ExpandedLength(if n < 0 then s[1..] else s[n..], v);
    }
  }

  lemma {:induction false} LengthGrows(s: string, j: nat, k: nat)
    requires j < k
    ensures if Count(s) > 0 then Length(s, j) < Length(s, k) else Length(s, j) == Length(s, k)
    decreases |s|
  {
    if s != "" {
      var n := MatchLength(s);
      LengthGrows(if n < 0 then s[1..] else s[n..], j, k);
    }
  }

  lemma {:induction false} SameLengthValues(s: string, v: string, w: string)
    requires |v| == |w| && Count(s) > 0
    requires Expand(s, map["" := v]) == Expand(s, map["" := w])
    ensures v == w
    decreases |s|
  {
    var n := MatchLength(s);
    if n < 0 {
      var a, b := Expand(s[1..], map["" := v]), Expand(s[1..], map["" := w]);
      assert ([s[0]] + a)[1..] == a && ([s[0]] + b)[1..] == b;
      SameLengthValues(s[1..], v, w);
    } else {
      var a, b := Expand(s[n..], map["" := v]), Expand(s[n..], map["" := w]);
      if Name(s) == "" {
        assert (v + a)[..|v|] == v && (w + b)[..|w|] == w;
      } else {
        assert (s[..n] + a)[n..] == a && (s[..n] + b)[n..] == b;
        SameLengthValues(s[n..], v, w);
      }
    }
  }

  /** A template that contains ${} gives every value a different text. */
  lemma ExpandIsInjective(s: string, v: string, w: string)
    requires "" in Names(s)
    requires Expand(s, map["" := v]) == Expand(s, map["" := w])
    ensures v == w
  {
    NamesCount(s);
    ExpandedLength(s, v);
    ExpandedLength(s, w);
    if |v| < |w| {
      LengthGrows(s, |v|, |w|);
    } else if |v| > |w| {
      LengthGrows(s, |w|, |v|);
    }
    SameLengthValues(s, v, w);
  }

  lemma {:induction false} NamesCount(s: string)
    ensures "" in Names(s) <==> Count(s) > 0
    decreases |s|
  {
    if s != "" {
      var n := MatchLength(s);
      NamesCount(if n < 0 then s[1..] else s[n..]);
    }
  }

  /** Different instances get different option values from a template that contains ${}. */
  lemma InstancesDiffer(template: string, i: nat, j: nat)
    requires "" in Names(template) && i != j
    ensures Expand(template, Numbered(i)) != Expand(template, Numbered(j))
  {
    if Expand(template, Numbered(i)) == Expand(template, Numbered(j)) {
      ExpandIsInjective(template, ToDecimal(i + 1), ToDecimal(j + 1));
      DecimalInjective(i + 1, j + 1);
      assert false;
    }
  }

  /** The numbers that are substituted are inert, so numbering is idempotent. */
  lemma NumberingIsIdempotent(template: string, i: nat)
    ensures Expand(Expand(template, Numbered(i)), Numbered(i)) == Expand(template, Numbered(i))
  {
    var v := ToDecimal(i + 1);
    assert Inert(v);
    ExpandIsIdempotent(template, Numbered(i));
  }

  // ----- templates -----

  /** A piece of a template. */
  datatype Part = Literal(text: string) | Reference(name: string)

  predicate Wellformed(part: Part) {
    match part
    case Literal(text) => '$' !in text
    case Reference(name) => forall k :: 0 <= k < |name| ==> name[k] !in "}\n\r"
  }

  function Template(parts: seq<Part>): string {
    if parts == [] then ""
    else (match parts[0]
          case Literal(text) => text
          case Reference(name) => "${" + name + "}")
         + Template(parts[1..])
  }

  /** Literals as they are; for a reference the value of its name, or what stands there if none. */
  function Meaning(parts: seq<Part>, env: Env): string {
    if parts == [] then ""
    else (match parts[0]
          case Literal(text) => text
          case Reference(name) => if name in env then env[name] else "${" + name + "}")
         + Meaning(parts[1..], env)
  }

  lemma ReferenceMatches(name: string, rest: string)
    requires Wellformed(Reference(name))
    ensures var s := "${" + name + "}" + rest;
            MatchLength(s) == |name| + 3 && Name(s) == name && s[|name| + 3..] == rest
            && s[..|name| + 3] == "${" + name + "}"
  {
    var s := "${" + name + "}" + rest;
    assert "}\n\r"[0] == '}' && "}\n\r"[1] == '\n' && "}\n\r"[2] == '\r';
    assert s[2..] == name + ("}" + rest);
    ScanPrefix(name, "}" + rest);
  }

  /** Every template of literals and references expands to what its parts mean. */
  lemma {:induction false} TemplateExpands(parts: seq<Part>, env: Env)
    requires forall part :: part in parts ==> Wellformed(part)
    ensures Expand(Template(parts), env) == Meaning(parts, env)
    decreases |parts|
  {
    if parts != [] {
      var rest := Template(parts[1..]);
      assert parts[0] in parts;
      TemplateExpands(parts[1..], env);
      match parts[0] {
        case Literal(text) => InertIsCopied(text, rest, env);
        case Reference(name) => ReferenceMatches(name, rest);
      }
    }
  }

  /** So ${} stands for the number of the instance, counted from one, in its decimal digits. */
  lemma InstanceIsNumbered(a: string, b: string, i: nat)
    requires '$' !in a && '$' !in b
    ensures Expand(a + "${}" + b, Numbered(i)) == a + ToDecimal(i + 1) + b
  {
    var parts := [Literal(a), Reference(""), Literal(b)];
    TemplateExpands(parts, Numbered(i));
    assert parts[1..] == [Reference(""), Literal(b)] && parts[1..][1..] == [Literal(b)];
    assert [Literal(b)][1..] == [];
    assert Template([Literal(b)]) == b + Template([]) == b;
    assert Meaning([Literal(b)], Numbered(i)) == b + Meaning([], Numbered(i)) == b;
    assert Template(parts) == a + ("${" + "" + "}" + b);
    assert Template(parts) == a + "${}" + b;
    assert Meaning(parts, Numbered(i)) == a + (ToDecimal(i + 1) + b);
  }
}
