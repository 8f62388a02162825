/**
 * The DataChannel message of src/scenario_player.h: a 48-byte header, then bytes of the pool.
 */
module Messages {
  import opened Base
  import opened Arithmetic
  import opened BinaryPools

  const HEADER_SIZE := 48
  const ID_SIZE := 26
  const TWO_64: nat := 0x1_0000_0000_0000_0000

  /** The low n bytes of v, most significant first. */
  function BigEndian(v: nat, n: nat): (b: seq<byte>)
    ensures |b| == n
  {
    if n == 0 then [] else BigEndian(v / 256, n - 1) + [v % 256]
  }

  function FromBigEndian(b: seq<byte>): nat {
    if b == [] then 0 else FromBigEndian(b[..|b| - 1]) * 256 + b[|b| - 1]
  }

  function Pow256(n: nat): (p: nat)
    ensures p > 0
  {
    if n == 0 then 1 else 256 * Pow256(n - 1)
  }

  /** The low digit and the rest of a number, modulo a power of the base. */
  lemma DigitMod(v: nat, m: nat)
    requires m > 0
    ensures v % (256 * m) == v / 256 % m * 256 + v % 256
  {
    var d, q, r := v / 256, v / 256 / m, v / 256 % m;
    assert d == q * m + r;
    assert v == d * 256 + v % 256;
    assert q * m * 256 == q * (256 * m);
    ModUnique(v, 256 * m, q, r * 256 + v % 256);
  }

  lemma {:induction false} BigEndianRoundTrip(v: nat, n: nat)
    ensures FromBigEndian(BigEndian(v, n)) == v % Pow256(n)
    decreases n
  {
    if n > 0 {
      BigEndianRoundTrip(v / 256, n - 1);
      assert BigEndian(v, n)[..n - 1] == BigEndian(v / 256, n - 1);
      DigitMod(v, Pow256(n - 1));
    }
  }

  /** Byte i of n is what shifting right by (n - 1 - i) octets leaves in the low octet. */
  lemma {:induction false} BigEndianAt(v: nat, n: nat, i: nat)
    requires i < n
    ensures BigEndian(v, n)[i] == v / Pow256(n - 1 - i) % 256
  {
    if i < n - 1 {
      BigEndianAt(v / 256, n - 1, i);
      DivDiv(v, 256, Pow256(n - 2 - i));
    }
  }

  lemma DivDiv(v: nat, a: nat, b: nat)
    requires a > 0 && b > 0
    ensures v / a / b == v / (a * b)
  {
    var q, r, s := v / a / b, v / a % b, v % a;
    assert v / a == q * b + r;
    assert v == (v / a) * a + s;
    assert (q * b + r) * a == q * (a * b) + r * a;
    MulGrows(r + 1, b, a);
    MulGrows(0, r, a);
    ModUnique(v, a * b, q, r * a + s);
  }

  function Zeros(n: nat): (b: seq<byte>)
    ensures |b| == n && forall i :: 0 <= i < n ==> b[i] == 0
  {
    seq(n, _ => 0)
  }

  /** The first 26 bytes of the connection id, or all of it followed by zeros. */
  function PaddedId(id: seq<byte>): (b: seq<byte>)
    ensures |b| == ID_SIZE
  {
    if |id| >= ID_SIZE then id[..ID_SIZE] else id + Zeros(ID_SIZE - |id|)
  }

  function Header(time: nat, counter: nat, id: seq<byte>): (b: seq<byte>)
    ensures |b| == HEADER_SIZE
  {
    Ascii("ZAKURO") + BigEndian(time, 8) + BigEndian(counter, 8) + PaddedId(id)
  }

  /** What the environment contributes to one message. */
  datatype Choice = Choice(
    random: nat,
    time: nat,
    sizeDraw: nat,
    posDraw: nat,
    connectionId: seq<byte>)

  /** The random bytes that all messages are cut from. */
  type Pool = ring: seq<byte> | |ring| > 0 witness [0]

  /** The clock is a 64-bit count of microseconds. */
  function Clock(c: Choice): nat {
    c.time % TWO_64
  }

  function Message(pool: Pool, minSize: int, maxSize: int, c: Choice, counter: nat,
                   id: seq<byte>): seq<byte>
  {
    var size := Draw(minSize - HEADER_SIZE, maxSize - HEADER_SIZE, c.sizeDraw);
    Header(Clock(c), counter, id)
    + RingSlice(pool, c.posDraw % |pool|, if size < 0 then 0 else size)
  }

  /** memcpy into the buffer at p. */
  method WriteBytes(buf: array<byte>, p: nat, bytes: seq<byte>)
    requires p + |bytes| <= buf.Length
    modifies buf
    ensures buf[..] == old(buf[..p]) + bytes + old(buf[p + |bytes|..])
  {
    forall k | 0 <= k < |bytes| {
      buf[p + k] := bytes[k];
    }
  }

  method WriteBigEndian(buf: array<byte>, p: nat, v: nat)
    requires p + 8 <= buf.Length
    modifies buf
    ensures buf[..] == old(buf[..p]) + BigEndian(v, 8) + old(buf[p + 8..])
  {
    for i := 0 to 8
      invariant forall k :: 0 <= k < p || p + 8 <= k < buf.Length ==> buf[k] == old(buf[k])
      invariant forall k :: p <= k < p + i ==> buf[k] == BigEndian(v, 8)[k - p]
    {
      BigEndianAt(v, 8, i);
      buf[p + i] := v / Pow256(7 - i) % 256;
    }
  }

  /** The header as OnNext fills it in: a zeroed buffer that starts with ZAKURO. */
  method BuildHeader(time: nat, counter: nat, id: seq<byte>) returns (header: seq<byte>)
    ensures header == Header(time, counter, id)
  {
    var buf := new byte[HEADER_SIZE](_ => 0);
    var magic := Ascii("ZAKURO");
    WriteBytes(buf, 0, magic);
    assert buf[..] == magic + Zeros(42);
    var p := 6;
    WriteBigEndian(buf, p, time);
    assert buf[..] == magic + BigEndian(time, 8) + Zeros(34);
    p := p + 8;
    WriteBigEndian(buf, p, counter);
    assert buf[..] == magic + BigEndian(time, 8) + BigEndian(counter, 8) + Zeros(26);
    p := p + 8;
    var n := if |id| < ID_SIZE then |id| else ID_SIZE;
    WriteBytes(buf, p, id[..n]);
    assert buf[..p] == magic + BigEndian(time, 8) + BigEndian(counter, 8);
    assert buf[p..] == PaddedId(id);
    assert buf[..] == buf[..p] + buf[p..];
    header := buf[..];
  }

  /**
   * Decoding a message: its length is in the requested range, its header gives back the magic,
   * the time, the counter and the connection id, and its tail reads around the pool.
   */
  lemma MessageDecodes(pool: Pool, minSize: int, maxSize: int, c: Choice, counter: nat,
                       id: seq<byte>)
    requires HEADER_SIZE <= minSize <= maxSize && counter < TWO_64
    ensures var m := Message(pool, minSize, maxSize, c, counter, id);
            && minSize <= |m| <= maxSize
            && DecodesTo(m[..HEADER_SIZE], c.time % TWO_64, counter, id)
            && m[HEADER_SIZE..] == RingSlice(pool, c.posDraw % |pool|, |m| - HEADER_SIZE)
  {
    HeaderDecodes(Clock(c), counter, id);
    assert Message(pool, minSize, maxSize, c, counter, id)[..HEADER_SIZE]
        == Header(Clock(c), counter, id);
  }

  /**
   * What a receiver reads from a header: ZAKURO, the time and the counter, and 26 bytes of the
   * connection id, or all of it with zeros behind it.
   */
  predicate DecodesTo(head: seq<byte>, time: nat, counter: nat, id: seq<byte>)
    requires |head| == HEADER_SIZE
  {
    && head[..6] == [90, 65, 75, 85, 82, 79]
    && FromBigEndian(head[6..14]) == time
    && FromBigEndian(head[14..22]) == counter
    && forall i :: 0 <= i < 26 ==> head[22 + i] == if i < |id| then id[i] else 0
  }

  lemma HeaderFields(time: nat, counter: nat, id: seq<byte>)
    ensures var head := Header(time, counter, id);
            && head[..6] == Ascii("ZAKURO") && head[6..14] == BigEndian(time, 8)
            && head[14..22] == BigEndian(counter, 8) && head[22..48] == PaddedId(id)
  {
  }

  lemma Uint64RoundTrip(v: nat)
    requires v < TWO_64
    ensures FromBigEndian(BigEndian(v, 8)) == v
  {
    BigEndianRoundTrip(v, 8);
    Pow256Of8();
  }

  lemma HeaderDecodes(time: nat, counter: nat, id: seq<byte>)
    requires time < TWO_64 && counter < TWO_64
    ensures DecodesTo(Header(time, counter, id), time, counter, id)
  {
    HeaderFields(time, counter, id);
    Uint64RoundTrip(time);
    Uint64RoundTrip(counter);
    var head := Header(time, counter, id);
    forall i | 0 <= i < 26
      ensures head[22 + i] == if i < |id| then id[i] else 0
    {
      assert head[22 + i] == head[22..48][i] == PaddedId(id)[i];
    }
  }

  lemma Pow256Of8()
    ensures Pow256(8) == TWO_64
  {
    assert Pow256(2) == 0x1_0000;
    assert Pow256(4) == 0x1_0000_0000;
    assert Pow256(6) == 0x1_0000_0000_0000;
  }

  /** Every length in the requested range and every place in the pool can be drawn. */
  lemma EveryDrawIsPossible(pool: Pool, minSize: int, maxSize: int, counter: nat, id: seq<byte>,
                            time: nat, size: int, pos: nat)
    requires HEADER_SIZE <= minSize <= size <= maxSize && pos < |pool|
    ensures exists c: Choice :: c.time == time
              && |Message(pool, minSize, maxSize, c, counter, id)| == size
              && (size > HEADER_SIZE ==>
                    Message(pool, minSize, maxSize, c, counter, id)[HEADER_SIZE] == pool[pos])
  {
    var c := Choice(0, time, size - minSize, pos, id);
    ModUnique(size - minSize, maxSize - minSize + 1, 0, size - minSize);
    ModUnique(pos, |pool|, 0, pos);
    assert |Message(pool, minSize, maxSize, c, counter, id)| == size;
  }
}
