/** Shared vocabulary: an option type and bytes. */
module Base {
  datatype Option<+T> = None | Some(value: T)

  /** One octet of a file, a message or the random pool. */
  type byte = b: int | 0 <= b < 256

  /** Path of sub-scenario names from the main player (the empty path) to a nested one. */
  type Path = seq<string>

  function CharByte(c: char): byte {
    (c as int) % 256
  }

  /** The bytes of an ASCII literal. */
  function Ascii(s: string): (b: seq<byte>)
    ensures |b| == |s|
    ensures forall k :: 0 <= k < |s| ==> b[k] == CharByte(s[k])
  {
    seq(|s|, k requires 0 <= k < |s| => CharByte(s[k]))
  }
}

/** Division facts that the solver does not find by itself. */
module Arithmetic {
  lemma ModUnique(a: int, m: int, q: int, r: int)
    requires m > 0 && 0 <= r < m && a == q * m + r
    ensures a % m == r && a / m == q
  {
    var d := a / m - q;
    assert d * m == r - a % m;
    assert d > 0 ==> d * m >= m;
    assert d < 0 ==> d * m <= -m;
  }

  lemma ModStep(a: int, m: int)
    requires m > 0
    ensures (a + 1) % m == if a % m + 1 == m then 0 else a % m + 1
  {
    var q, r := a / m, a % m;
    if r + 1 == m {
      assert a + 1 == (q + 1) * m + 0;
      ModUnique(a + 1, m, q + 1, 0);
    } else {
      assert a + 1 == q * m + (r + 1);
      ModUnique(a + 1, m, q, r + 1);
    }
  }

  lemma DivGrows(a: int, b: int, m: int)
    requires m > 0 && a <= b
    ensures a / m <= b / m
  {
    var q := b / m - a / m;
    assert b - a == q * m + (b % m - a % m);
    assert q <= -1 ==> q * m <= -m;
  }

  lemma MulGrows(a: int, b: int, k: int)
    requires a <= b && k >= 0
    ensures a * k <= b * k
  {
    assert (b - a) * k >= 0;
  }

  /** Between two different multiples of m there is room for m. */
  lemma MultipleStep(a: int, b: int, m: int)
    requires m > 0 && a % m == 0 && b % m == 0 && a < b
    ensures a + m <= b && (a + m) % m == 0
  {
    var p, q := a / m, b / m;
    assert a == p * m && b == q * m;
    if p >= q {
      MulGrows(q, p, m);
      assert false;
    }
    MulGrows(p + 1, q, m);
    assert (p + 1) * m == p * m + m;
    ModUnique(a + m, m, p + 1, 0);
  }

  /** The first multiple of m that is at least b. */
  lemma RoundUp(b: nat, m: nat)
    requires m > 0
    ensures var r := (b + m - 1) / m * m; b <= r < b + m && r % m == 0
  {
    var q := (b + m - 1) / m;
    assert b + m - 1 == q * m + (b + m - 1) % m;
    ModUnique(q * m, m, q, 0);
  }

  /** Moving on by k without reaching the next multiple of m. */
  lemma ModWithin(a: int, k: nat, m: int)
    requires m > 0 && a % m + k < m
    ensures (a + k) % m == a % m + k
  {
    assert a + k == (a / m) * m + (a % m + k);
    ModUnique(a + k, m, a / m, a % m + k);
  }
}

/** Slices of slices and of concatenations. */
module Slices {
  lemma SubSlice<T>(s: seq<T>, at: nat, n: nat, i: nat, j: nat)
    requires at + n <= |s| && i <= j <= n
    ensures s[at..at + n][i..j] == s[at + i..at + j]
  {
    var inner, outer := s[at..at + n][i..j], s[at + i..at + j];
    forall k | 0 <= k < j - i
      ensures inner[k] == outer[k]
    {
      assert s[at..at + n][i + k] == s[at + (i + k)];
    }
  }

  lemma Middle<T>(a: T, b: seq<T>, c: seq<T>, k: nat)
    requires 1 <= k < 1 + |b| + |c|
    ensures ([a] + b + c)[k] == if k - 1 < |b| then b[k - 1] else c[k - 1 - |b|]
  {
  }

  lemma FourParts<T>(a: seq<T>, b: seq<T>, c: seq<T>, d: seq<T>)
    ensures var s, i, j, k := a + b + c + d, |a|, |a| + |b|, |a| + |b| + |c|;
            s[..i] == a && s[i..j] == b && s[j..k] == c && s[k..] == d
  {
  }
}
