/**
 * The ring-shaped pool of random bytes (src/binary_pool.h). Random draws are parameters.
 */
module BinaryPools {
  import opened Base
  import opened Arithmetic

  const WORD := 8

  /** What uniform_int_distribution(lo, hi) returns for some draw of the engine. */
  function Draw(lo: int, hi: int, draw: nat): (v: int)
    ensures lo <= hi ==> lo <= v <= hi
  {
    if lo <= hi then lo + draw % (hi - lo + 1) else lo
  }

  /** The bytes of the ring from `pos` on, around its end as often as needed. */
  function RingSlice(ring: seq<byte>, pos: nat, size: nat): (r: seq<byte>)
    requires |ring| > 0
    ensures |r| == size
    ensures forall i :: 0 <= i < size ==> r[i] == ring[(pos + i) % |ring|]
  {
    seq(size, i requires 0 <= i => ring[(pos + i) % |ring|])
  }

  lemma RingSliceGrows(ring: seq<byte>, pos: nat, done: nat, n: nat)
    requires |ring| > 0
    requires (pos + done) % |ring| + n <= |ring|
    ensures var start := (pos + done) % |ring|;
            RingSlice(ring, pos, done) + ring[start..start + n] == RingSlice(ring, pos, done + n)
  {
    var start := (pos + done) % |ring|;
    var whole, part := RingSlice(ring, pos, done + n), ring[start..start + n];
    forall j | 0 <= j < n
      ensures whole[done + j] == part[j]
    {
      ModWithin(pos + done, j, |ring|);
      assert pos + (done + j) == (pos + done) + j;
    }
    assert whole[done..] == part;
    assert whole[..done] == RingSlice(ring, pos, done);
  }

  class BinaryPool {
    const bin: array<byte>

    /** Fills the pool with 8-byte words of the engine, enough of them to hold poolSize bytes. */
    constructor (poolSize: nat, engine: nat -> seq<byte>)
      requires forall i :: |engine(i)| == WORD
      ensures fresh(bin)
      ensures poolSize <= bin.Length < poolSize + WORD && bin.Length % WORD == 0
      ensures forall i :: 0 <= i < bin.Length ==> bin[i] == engine(i / WORD)[i % WORD]
    {
      var n := (poolSize + WORD - 1) / WORD;
      bin := new byte[n * WORD];
      new;
      var p := 0;
      for i := 0 to n
        invariant p == i * WORD
        invariant forall j :: 0 <= j < p ==> bin[j] == engine(j / WORD)[j % WORD]
      {
        var word := engine(i);
        for j := 0 to WORD
          invariant forall k :: 0 <= k < p + j ==> bin[k] == engine(k / WORD)[k % WORD]
        {
          ModUnique(p + j, WORD, i, j);
          bin[p + j] := word[j];
        }
        p := p + WORD;
      }
    }

    method Get(minSize: int, maxSize: int, sizeDraw: nat, posDraw: nat) returns (r: seq<byte>)
      requires 0 <= minSize <= maxSize && bin.Length > 0
      ensures minSize <= |r| <= maxSize
      ensures r == RingSlice(bin[..], posDraw % bin.Length, Draw(minSize, maxSize, sizeDraw))
    {
      var size := Draw(minSize, maxSize, sizeDraw);
      var pos := posDraw % bin.Length;
      ghost var from, all := pos, size;
      r := [];
      while size > 0
        invariant 0 <= size && |r| + size == all && pos == from + |r|
        invariant r == RingSlice(bin[..], from, |r|)
      {
        var start := pos % bin.Length;
        var n := if size < bin.Length - start then size else bin.Length - start;
        RingSliceGrows(bin[..], from, |r|, n);
        assert bin[start..start + n] == bin[..][start..start + n];
        r := r + bin[start..start + n];
        pos := pos + n;
        size := size - n;
      }
    }
  }
}
