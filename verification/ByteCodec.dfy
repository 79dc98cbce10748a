// The value codecs of ByteArray: fixed-width integers in either byte order, varints and zigzag.

module ByteCodecs {
  import opened Base
  import opened ByteArrays

  // ---------------------------------------------------------------- memory layout

  function Pow256(w: nat): (m: nat)
    ensures m > 0
  {
    if w == 0 then 1 else 256 * Pow256(w - 1)
  }

  /** The bytes of a w-byte integer, lowest first and highest first. */
  function LittleBytes(v: nat, w: nat): (s: seq<byte>)
    ensures |s| == w
  {
    if w == 0 then [] else [v % 256] + LittleBytes(v / 256, w - 1)
  }

  function BigBytes(v: nat, w: nat): (s: seq<byte>)
    ensures |s| == w
  {
    if w == 0 then [] else BigBytes(v / 256, w - 1) + [v % 256]
  }

  function FromLittle(s: seq<byte>): nat {
    if s == [] then 0 else s[0] + 256 * FromLittle(s[1..])
  }

  function FromBig(s: seq<byte>): nat {
    if s == [] then 0 else 256 * FromBig(s[..|s| - 1]) + s[|s| - 1]
  }

  /** How the host keeps an integer in memory. */
  function Layout(v: nat, w: nat, hostLittle: bool): (s: seq<byte>)
    ensures |s| == w
  {
    if hostLittle then LittleBytes(v, w) else BigBytes(v, w)
  }

  function Load(s: seq<byte>, hostLittle: bool): nat {
    if hostLittle then FromLittle(s) else FromBig(s)
  }

  function Reverse(s: seq<byte>): (r: seq<byte>)
    ensures |r| == |s|
  {
    if s == [] then [] else Reverse(s[1..]) + [s[0]]
  }

  /** byteswap: the integer whose bytes are those of v in the opposite order. */
  function ByteSwap(v: nat, w: nat): nat {
    FromLittle(Reverse(LittleBytes(v, w)))
  }

  lemma {:induction false} LittleRoundTrip(v: nat, w: nat)
    requires v < Pow256(w)
    ensures FromLittle(LittleBytes(v, w)) == v
  {
    if w > 0 {
      LittleRoundTrip(v / 256, w - 1);
      assert LittleBytes(v, w)[1..] == LittleBytes(v / 256, w - 1);
    }
  }

  lemma {:induction false} LittleFromLittle(s: seq<byte>)
    ensures FromLittle(s) < Pow256(|s|) && LittleBytes(FromLittle(s), |s|) == s
  {
    if s != [] {
      LittleFromLittle(s[1..]);
    }
  }

  lemma {:induction false} BigIsReversed(v: nat, w: nat)
    ensures BigBytes(v, w) == Reverse(LittleBytes(v, w))
  {
    if w > 0 {
      BigIsReversed(v / 256, w - 1);
      assert LittleBytes(v, w)[1..] == LittleBytes(v / 256, w - 1);
    }
  }

  lemma {:induction false} ReverseSnoc(s: seq<byte>, b: byte)
    ensures Reverse(s + [b]) == [b] + Reverse(s)
  {
    if s == [] {
      assert [] + [b] == [b];
    } else {
      ReverseSnoc(s[1..], b);
      assert (s + [b])[1..] == s[1..] + [b];
    }
  }

  lemma {:induction false} ReverseTwice(s: seq<byte>)
    ensures Reverse(Reverse(s)) == s
  {
    if s != [] {
      ReverseTwice(s[1..]);
      ReverseSnoc(Reverse(s[1..]), s[0]);
    }
  }

  lemma {:induction false} FromBigIsReversed(s: seq<byte>)
    ensures FromBig(s) == FromLittle(Reverse(s))
  {
    if s != [] {
      var front, last := s[..|s| - 1], s[|s| - 1];
      FromBigIsReversed(front);
      ReverseSnoc(front, last);
      assert s == front + [last];
      assert Reverse(s)[1..] == Reverse(front);
    }
  }

  /** byteswap undoes itself. */
  lemma ByteSwapTwice(v: nat, w: nat)
    requires v < Pow256(w)
    ensures ByteSwap(v, w) < Pow256(w) && ByteSwap(ByteSwap(v, w), w) == v
  {
    LittleFromLittle(Reverse(LittleBytes(v, w)));
    ReverseTwice(LittleBytes(v, w));
    LittleRoundTrip(v, w);
  }

  /** What a fixed-width write puts into memory: swapped when the array's order is not the
      host's, then laid out as the host does. */
  function Wire(v: nat, w: nat, little: bool, hostLittle: bool): (s: seq<byte>)
    ensures |s| == w
  {
    Layout(if little != hostLittle && w > 1 then ByteSwap(v, w) else v, w, hostLittle)
  }

  function Unwire(s: seq<byte>, little: bool, hostLittle: bool): nat {
    var v := Load(s, hostLittle);
    if little == hostLittle || |s| == 1 then v else ByteSwap(v, |s|)
  }

  lemma SingleByte(v: nat, s: seq<byte>)
    requires v < 256 && |s| == 1
    ensures LittleBytes(v, 1) == BigBytes(v, 1) == [v]
    ensures FromLittle(s) == FromBig(s) == s[0]
  {
    assert BigBytes(v / 256, 0) == [] && s[..0] == [] && FromLittle(s[1..]) == 0;
    assert LittleBytes(v / 256, 0) == [];
  }

  /** The bytes written depend on the array's byte order only, never on the host. */
  lemma WireIsHostIndependent(v: nat, w: nat, little: bool, hostLittle: bool)
    requires v < Pow256(w) && w > 0
    ensures Wire(v, w, little, hostLittle) == if little then LittleBytes(v, w) else BigBytes(v, w)
  {
    BigIsReversed(v, w);
    if w == 1 {
      assert Pow256(1) == 256 * Pow256(0);
      SingleByte(v, [v]);
    } else if little != hostLittle {
      LittleFromLittle(Reverse(LittleBytes(v, w)));
      BigIsReversed(ByteSwap(v, w), w);
      ReverseTwice(LittleBytes(v, w));
    }
  }

  /** Reading is the inverse of writing, whatever the two byte orders. */
  lemma UnwireWire(v: nat, w: nat, little: bool, hostLittle: bool)
    requires v < Pow256(w)
    ensures Unwire(Wire(v, w, little, hostLittle), little, hostLittle) == v
  {
    ByteSwapTwice(v, w);
    var m := if little != hostLittle && w > 1 then ByteSwap(v, w) else v;
    LittleRoundTrip(m, w);
    BigIsReversed(m, w);
    FromBigIsReversed(BigBytes(m, w));
    ReverseTwice(LittleBytes(m, w));
    if w == 0 {
      assert Pow256(0) == 1;
    }
  }

  // ---------------------------------------------------------------- two's complement

  /** The w-byte pattern of a signed integer, and back. */
  function Pattern(v: int, w: nat): (u: nat)
    ensures u < Pow256(w)
  {
    v % Pow256(w)
  }

  function Signed(u: nat, m: nat): int {
    if 2 * u < m then u else u - m
  }

  /** v is a signed value of the width with m patterns. */
  predicate Fits(v: int, m: nat) {
    0 <= 2 * v + m < 2 * m
  }

  lemma SmallMod(x: nat, m: nat)
    requires x < m
    ensures x % m == x
  {
  }

  lemma WrapOnce(x: int, m: nat)
    requires 0 <= x + m < m
    ensures x % m == x + m
  {
    var q, r := x / m, x % m;
    assert x == m * q + r;
    assert q < -1 ==> m * (q + 1) <= -1 * m;
    assert q > -1 ==> m * q >= 0;
  }

  lemma SignedPattern(v: int, w: nat)
    requires Fits(v, Pow256(w))
    ensures Signed(Pattern(v, w), Pow256(w)) == v
  {
    if v >= 0 {
      SmallMod(v, Pow256(w));
    } else {
      WrapOnce(v, Pow256(w));
    }
  }

  // ---------------------------------------------------------------- zigzag

  /** EncodeZigzag32 and EncodeZigzag64, with m two to the width; all steps wrap around. */
  function EncodeZigzag(v: int, m: nat): nat
    requires m > 0
  {
    if v < 0 then ((-v) % m * 2 - 1) % m else v * 2 % m
  }

  /** DecodeZigzag: the exclusive or with all ones is the complement. */
  function DecodeZigzag(u: nat, m: nat): int
    requires u < m
  {
    Signed(if u % 2 == 0 then u / 2 else m - 1 - u / 2, m)
  }

  /** Zigzag interleaves 0, -1, 1, -2, ... and is a bijection between the signed and the
      unsigned values of the width. */
  lemma ZigzagBijection(v: int, u: nat, m: nat)
    requires (m == 0x1_0000_0000 || m == 0x1_0000_0000_0000_0000) && Fits(v, m) && u < m
    ensures EncodeZigzag(v, m) == (if v < 0 then -2 * v - 1 else 2 * v) < m
    ensures DecodeZigzag(EncodeZigzag(v, m), m) == v
    ensures Fits(DecodeZigzag(u, m), m) && EncodeZigzag(DecodeZigzag(u, m), m) == u
  {
    EncodeZigzagValue(v, m);
    EncodeZigzagValue(DecodeZigzag(u, m), m);
  }

  lemma EncodeZigzagValue(v: int, m: nat)
    requires (m == 0x1_0000_0000 || m == 0x1_0000_0000_0000_0000) && Fits(v, m)
    ensures EncodeZigzag(v, m) == (if v < 0 then -2 * v - 1 else 2 * v) < m
  {
    if v < 0 {
      SmallMod(-v, m);
      SmallMod(-2 * v - 1, m);
    } else {
      SmallMod(v * 2, m);
    }
  }

  // ---------------------------------------------------------------- varint

  /** The bytes of writeUint32 and writeUint64. */
  function Varint(v: nat): (s: seq<byte>)
    ensures |s| > 0
  {
    if v < 0x80 then [v] else [v % 0x80 + 0x80] + Varint(v / 0x80)
  }

  function BitLength(v: nat): nat {
    if v == 0 then 0 else BitLength(v / 2) + 1
  }

  /** What seven-bit groups mean, lowest first: unsigned LEB128, section 7.6 of DWARF 5. */
  function Groups(s: seq<byte>): nat {
    if s == [] then 0 else s[0] % 0x80 + 0x80 * Groups(s[1..])
  }

  lemma {:induction false} VarintIsLeb128(v: nat)
    ensures Groups(Varint(v)) == v
    ensures var s := Varint(v); s[|s| - 1] < 0x80 && forall i :: 0 <= i < |s| - 1 ==> s[i] >= 0x80
  {
    if v >= 0x80 {
      VarintIsLeb128(v / 0x80);
      assert Varint(v)[1..] == Varint(v / 0x80);
    }
  }

  lemma BitLengthOver128(v: nat)
    requires v >= 0x80
    ensures BitLength(v) == BitLength(v / 0x80) + 7
  {
    var a := v / 2;
    var b := a / 2;
    var c := b / 2;
    var d := c / 2;
    var e := d / 2;
    var f := e / 2;
    assert f / 2 == v / 0x80 && f > 0;
    assert BitLength(f) == BitLength(f / 2) + 1;
    assert BitLength(d) == BitLength(e) + 1 == BitLength(f) + 2;
    assert BitLength(b) == BitLength(c) + 1 == BitLength(d) + 2;
    assert BitLength(v) == BitLength(a) + 1 == BitLength(b) + 2;
  }

  /** One byte for every seven bits begun, and one for zero. */
  lemma {:induction false} VarintLength(v: nat)
    ensures |Varint(v)| == if v == 0 then 1 else (BitLength(v) + 6) / 7
  {
    if v >= 0x80 {
      VarintLength(v / 0x80);
      BitLengthOver128(v);
    } else {
      SmallBitLength(v);
    }
  }

  lemma OneBitMore(v: nat, half: nat)
    requires half == v / 2
    ensures BitLength(v) <= BitLength(half) + 1 && (v > 0 ==> BitLength(v) > 0)
  {
  }

  lemma SmallBitLength(v: nat)
    requires v < 0x80
    ensures BitLength(v) <= 7 && (v > 0 ==> BitLength(v) > 0)
  {
    OneBitMore(v, v / 2);
    OneBitMore(v / 2, v / 4);
    OneBitMore(v / 4, v / 8);
    OneBitMore(v / 8, v / 16);
    OneBitMore(v / 16, v / 32);
    OneBitMore(v / 32, v / 64);
    OneBitMore(v / 64, 0);
  }

  /** At most 5 bytes for 32 bits and 10 for 64: the size of the buffers in the source. */
  lemma VarintFits(v: nat)
    ensures v < TWO_32 ==> |Varint(v)| <= 5
    ensures v < TWO_64 ==> |Varint(v)| <= 10
  {
    if v < TWO_64 {
      VarintTail(v, 9);
    }
    if v < TWO_32 {
      VarintTail(v, 4);
    }
  }

  function Pow128(i: nat): (m: nat)
    ensures m > 0
  {
    if i == 0 then 1 else 0x80 * Pow128(i - 1)
  }

  lemma {:induction false} VarintTail(v: nat, n: nat)
    requires v < 0x80 * Pow128(n)
    ensures |Varint(v)| <= n + 1
  {
    if v >= 0x80 {
      VarintTail(v / 0x80, n - 1);
    }
  }

  lemma {:induction false} VarintHead(v: nat, n: nat)
    requires v >= Pow128(n)
    ensures |Varint(v)| >= n + 1
  {
    if n > 0 {
      VarintHead(v / 0x80, n - 1);
    }
  }

  /** On disjoint bits `or` adds: why the decoder's result |= b << i is written as a sum. */
  lemma OrAdds(x: bv64, y: bv64)
    requires x & y == 0
    ensures x | y == x + y
  {
  }
}
