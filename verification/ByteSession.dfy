// Serialisation sessions: values of many kinds written one after another and read back in the
// same order.

module ByteSessions {
  import opened Base
  import opened ByteArrays
  import opened ByteCodecs

  // ---------------------------------------------------------------- kinds and values

  /** The pairs of write and read methods, by format; w is the width in bytes. Text is preceded by
      its length. */
  datatype Kind =
    | Unsigned(w: nat)
    | TwosComplement(w: nat)
    | VarUint(wide: bool)
    | VarInt(wide: bool)
    | Text(w: nat)

  datatype Value = Number(n: int) | Chars(s: seq<byte>)

  function Modulus(wide: bool): nat { if wide then TWO_64 else TWO_32 }

  /** The most bytes a varint of the width takes. */
  function MaxGroups(wide: bool): nat { if wide then 10 else 5 }

  /** The value is one the C++ type of the method can hold; a text can have any length. */
  predicate OfKind(k: Kind, v: Value) {
    match k
    case Unsigned(w) => w > 0 && v.Number? && 0 <= v.n < Pow256(w)
    case TwosComplement(w) => w > 0 && v.Number? && Fits(v.n, Pow256(w))
    case VarUint(wide) => v.Number? && 0 <= v.n < Modulus(wide)
    case VarInt(wide) => v.Number? && Fits(v.n, Modulus(wide))
    case Text(w) => w > 0 && v.Chars?
  }

  /** The kinds that ByteArray reads and writes hold what their C++ types hold, and a text of any length. */
  lemma KindRange(n: int, s: seq<byte>, w: nat)
    ensures (OfKind(Unsigned(1), Number(n)) <==> 0 <= n < 256) && (OfKind(Unsigned(2), Number(n)) <==> 0 <= n < 65536)
    ensures OfKind(Unsigned(4), Number(n)) <==> 0 <= n < 0x1_0000_0000
    ensures OfKind(Unsigned(8), Number(n)) <==> 0 <= n < 0x1_0000_0000_0000_0000
    ensures (OfKind(TwosComplement(1), Number(n)) <==> -128 <= n < 128) && (OfKind(TwosComplement(2), Number(n)) <==> -32768 <= n < 32768)
    ensures OfKind(TwosComplement(4), Number(n)) <==> -0x8000_0000 <= n < 0x8000_0000
    ensures OfKind(TwosComplement(8), Number(n)) <==> -0x8000_0000_0000_0000 <= n < 0x8000_0000_0000_0000
    ensures (OfKind(VarUint(false), Number(n)) <==> OfKind(Unsigned(4), Number(n)))
            && (OfKind(VarUint(true), Number(n)) <==> OfKind(Unsigned(8), Number(n)))
    ensures (OfKind(VarInt(false), Number(n)) <==> OfKind(TwosComplement(4), Number(n)))
            && (OfKind(VarInt(true), Number(n)) <==> OfKind(TwosComplement(8), Number(n)))
    ensures w > 0 ==> OfKind(Text(w), Chars(s))
  {
    assert Pow256(1) == 256 && Pow256(2) == 65536 && Pow256(4) == TWO_32;
    assert Pow256(8) == TWO_64 by { assert Pow256(6) == 0x1_0000_0000_0000; }
  }

  /** The bytes a value is written as. The length of a text is cut to its prefix. */
  function Encode(k: Kind, v: Value, little: bool, host: bool): (s: seq<byte>)
    requires OfKind(k, v)
    ensures |s| > 0
  {
    match k
    case Unsigned(w) => Wire(v.n, w, little, host)
    case TwosComplement(w) => Wire(Pattern(v.n, w), w, little, host)
    case VarUint(wide) => Varint(v.n)
    case VarInt(wide) => Varint(EncodeZigzag(v.n, Modulus(wide)))
    case Text(w) => Wire(Pattern(|v.s|, w), w, little, host) + v.s
  }

  // ---------------------------------------------------------------- reading, on values

  function FetchFixed(st: Store, c: Cursor, w: nat, little: bool, host: bool): Reading<nat>
    requires StoreOk(st)
  {
    var r := Fetch(st, c, w);
    match r.result
    case Done(s) => Reading(Done(Unwire(s, little, host)), r.cursor)
    case OutOfRange => Reading(OutOfRange, r.cursor)
    case NullCursor => Reading(NullCursor, r.cursor)
  }

  /** result |= (b & 0x7f) << 7 * i, in the width of the result. */
  function NextSum(sum: nat, b: byte, i: nat, wide: bool): nat {
    sum + b % 0x80 * Pow128(i) % Modulus(wide)
  }

  /** The loop of readUint32 and readUint64 from its i-th round on. */
  function FetchGroups(st: Store, c: Cursor, wide: bool, i: nat, sum: nat): Reading<nat>
    requires StoreOk(st) && i <= MaxGroups(wide)
    decreases MaxGroups(wide) - i
  {
    if i == MaxGroups(wide) then Reading(Done(sum), c)
    else
      var r := Fetch(st, c, 1);
      match r.result
      case Done(s) =>
        var sum' := NextSum(sum, s[0], i, wide);
        if s[0] < 0x80 then Reading(Done(sum'), r.cursor) else FetchGroups(st, r.cursor, wide, i + 1, sum')
      case OutOfRange => Reading(OutOfRange, r.cursor)
      case NullCursor => Reading(NullCursor, r.cursor)
  }

  function FetchText(st: Store, c: Cursor, w: nat, little: bool, host: bool): Reading<Value>
    requires StoreOk(st)
  {
    var len := FetchFixed(st, c, w, little, host);
    match len.result
    case Done(n) => FetchChars(st, len.cursor, n)
    case OutOfRange => Reading(OutOfRange, len.cursor)
    case NullCursor => Reading(NullCursor, len.cursor)
  }

  function FetchChars(st: Store, c: Cursor, n: nat): Reading<Value>
    requires StoreOk(st)
  {
    var r := Fetch(st, c, n);
    match r.result
    case Done(s) => Reading(Done(Chars(s)), r.cursor)
    case OutOfRange => Reading(OutOfRange, r.cursor)
    case NullCursor => Reading(NullCursor, r.cursor)
  }

  function Map(r: Reading<nat>, f: nat -> int): Reading<Value> {
    match r.result
    case Done(n) => Reading(Done(Number(f(n))), r.cursor)
    case OutOfRange => Reading(OutOfRange, r.cursor)
    case NullCursor => Reading(NullCursor, r.cursor)
  }

  /** DecodeZigzag on whatever a varint read returned. */
  function Unzigzag(n: nat, wide: bool): int {
    DecodeZigzag(n % Modulus(wide), Modulus(wide))
  }

  /** Reading a zigzag varint undoes writing one, and what is read is a value of the width. */
  lemma UnzigzagExactly(v: int, n: nat, wide: bool)
    requires Fits(v, Modulus(wide)) && n < Modulus(wide)
    ensures Unzigzag(EncodeZigzag(v, Modulus(wide)), wide) == v
    ensures Unzigzag(n, wide) == if n % 2 == 0 then n / 2 else -1 - n / 2
  {
    ZigzagBijection(v, n, Modulus(wide));
    SmallMod(EncodeZigzag(v, Modulus(wide)), Modulus(wide));
    SmallMod(n, Modulus(wide));
  }

  function Decode(k: Kind, st: Store, c: Cursor, little: bool, host: bool): Reading<Value>
    requires StoreOk(st)
  {
    match k
    case Unsigned(w) => Map(FetchFixed(st, c, w, little, host), (n: nat) => n)
    case TwosComplement(w) => Map(FetchFixed(st, c, w, little, host), (n: nat) => Signed(n, Pow256(w)))
    case VarUint(wide) => Map(FetchGroups(st, c, wide, 0, 0), (n: nat) => n)
    case VarInt(wide) => Map(FetchGroups(st, c, wide, 0, 0), (n: nat) => Unzigzag(n, wide))
    case Text(w) => FetchText(st, c, w, little, host)
  }

  // ---------------------------------------------------------------- one value

  /** s is stored at p. */
  predicate StoredAt(st: Store, p: nat, s: seq<byte>) {
    p + |s| <= st.size && At(st.flat, p, s)
  }

  /** A read of n bytes from p is as documented: without line 607 always, with it when the read
      starts on a block boundary or ends in its first block. */
  predicate Straight(st: Store, p: nat, n: nat) {
    st.base > 0 && Skip(st, p, n) == 0
  }

  lemma FetchAt(st: Store, p: nat, q: nat, s: seq<byte>)
    requires StoreOk(st) && StoredAt(st, p, s) && Straight(st, p, |s|) && q == p + |s|
    ensures Fetch(st, CursorAt(st.base, p), |s|) ==
              if s == [] && p == |st.flat| then Reading(NullCursor, CursorAt(st.base, p))
              else Reading(Done(s), CursorAt(st.base, q))
  {
    FetchAligned(st, p, |s|);
  }

  /** The n-th group adds its seven bits at their place. */
  lemma GroupStep(v: nat, power: nat)
    requires power > 0
    ensures v == 0x80 * (v / 0x80) + v % 0x80
    ensures v % 0x80 * power + v / 0x80 * (0x80 * power) == v * power
  {
    var q, r := v / 0x80, v % 0x80;
    assert (0x80 * q + r) * power == 0x80 * q * power + r * power;
    assert q * (0x80 * power) == 0x80 * q * power;
  }

  /** The sum after one more group, none of whose bits are cut off. */
  lemma SumStep(sum: nat, v: nat, b: byte, i: nat, wide: bool)
    requires sum + v * Pow128(i) < Modulus(wide) && b % 0x80 == v % 0x80
    ensures v < 0x80 ==> NextSum(sum, b, i, wide) == sum + v * Pow128(i)
    ensures v >= 0x80 ==> NextSum(sum, b, i, wide) + v / 0x80 * Pow128(i + 1) == sum + v * Pow128(i)
  {
    GroupStep(v, Pow128(i));
    assert v / 0x80 * (0x80 * Pow128(i)) >= 0;
    SmallMod(v % 0x80 * Pow128(i), Modulus(wide));
  }

  /** The buffers of the encoder and the rounds of the decoder are as many as the largest values need. */
  lemma GroupsNeeded(wide: bool)
    ensures |Varint(Modulus(wide) - 1)| == MaxGroups(wide)
  {
    VarintFits(Modulus(wide) - 1);
    if wide {
      assert Pow128(9) == 0x8000_0000_0000_0000;
      VarintHead(TWO_64 - 1, 9);
    } else {
      assert Pow128(4) == 0x1000_0000;
      VarintHead(TWO_32 - 1, 4);
    }
  }

  /** A read of one byte never leaves its block at an offset. */
  lemma OneByteStraight(st: Store, p: nat)
    requires st.base > 0
    ensures Straight(st, p, 1)
  {
  }

  lemma StoredHead(st: Store, p: nat, s: seq<byte>)
    requires StoredAt(st, p, s) && s != []
    ensures StoredAt(st, p, [s[0]]) && StoredAt(st, p + 1, s[1..])
  {
    assert s == [s[0]] + s[1..];
    AtBoth(st.flat, p, [s[0]], s[1..]);
  }

  /** One round of the decoder loop on a byte that is stored at p. */
  lemma GroupAt(st: Store, p: nat, wide: bool, i: nat, sum: nat, b: byte)
    requires StoreOk(st) && StoredAt(st, p, [b]) && i < MaxGroups(wide)
    ensures var sum' := NextSum(sum, b, i, wide);
            FetchGroups(st, CursorAt(st.base, p), wide, i, sum) ==
              if b < 0x80 then Reading(Done(sum'), CursorAt(st.base, p + 1))
              else FetchGroups(st, CursorAt(st.base, p + 1), wide, i + 1, sum')
  {
    OneByteStraight(st, p);
    FetchAt(st, p, p + 1, [b]);
  }

  lemma {:induction false} GroupsAt(st: Store, p: nat, q: nat, wide: bool, i: nat, sum: nat, v: nat)
    requires StoreOk(st) && StoredAt(st, p, Varint(v)) && q == p + |Varint(v)|
    requires |Varint(v)| + i <= MaxGroups(wide) && sum + v * Pow128(i) < Modulus(wide)
    ensures FetchGroups(st, CursorAt(st.base, p), wide, i, sum) == Reading(Done(sum + v * Pow128(i)), CursorAt(st.base, q))
    decreases v
  {
    var s := Varint(v);
    StoredHead(st, p, s);
    GroupAt(st, p, wide, i, sum, s[0]);
    SumStep(sum, v, s[0], i, wide);
    if v >= 0x80 {
      assert s[1..] == Varint(v / 0x80);
      GroupsAt(st, p + 1, q, wide, i + 1, NextSum(sum, s[0], i, wide), v / 0x80);
    }
  }

  lemma VarintAt(st: Store, p: nat, q: nat, wide: bool, v: nat)
    requires StoreOk(st) && StoredAt(st, p, Varint(v)) && v < Modulus(wide) && q == p + |Varint(v)|
    ensures FetchGroups(st, CursorAt(st.base, p), wide, 0, 0) == Reading(Done(v), CursorAt(st.base, q))
  {
    VarintFits(v);
    assert v * Pow128(0) == v;
    GroupsAt(st, p, q, wide, 0, 0, v);
  }

  lemma FixedAt(st: Store, p: nat, q: nat, v: nat, w: nat, little: bool, host: bool)
    requires StoreOk(st) && w > 0 && v < Pow256(w) && StoredAt(st, p, Wire(v, w, little, host))
    requires Straight(st, p, w) && q == p + w
    ensures FetchFixed(st, CursorAt(st.base, p), w, little, host) == Reading(Done(v), CursorAt(st.base, q))
  {
    FetchAt(st, p, q, Wire(v, w, little, host));
    UnwireWire(v, w, little, host);
  }

  lemma CharsAt(st: Store, p: nat, q: nat, s: seq<byte>)
    requires StoreOk(st) && StoredAt(st, p, s) && Straight(st, p, |s|) && q == p + |s|
    ensures FetchChars(st, CursorAt(st.base, p), |s|) ==
              if |s| == 0 && p == |st.flat| then Reading(NullCursor, CursorAt(st.base, p))
              else Reading(Done(Chars(s)), CursorAt(st.base, q))
  {
    FetchAt(st, p, q, s);
  }

  /** A read of a text that was written at p: the length comes back cut to its prefix, and so
      many bytes with it; an empty text at full capacity is where the null cursor is followed. */
  lemma TextAt(st: Store, p: nat, q: nat, s: seq<byte>, w: nat, little: bool, host: bool)
    requires StoreOk(st) && w > 0 && StoredAt(st, p, Wire(Pattern(|s|, w), w, little, host) + s) && q == p + w
    requires Straight(st, p, w) && Straight(st, q, |s| % Pow256(w))
    ensures var n := |s| % Pow256(w);
            n <= |s| && FetchText(st, CursorAt(st.base, p), w, little, host) ==
              if n == 0 && q == |st.flat| then Reading(NullCursor, CursorAt(st.base, q))
              else Reading(Done(Chars(s[..n])), CursorAt(st.base, q + n))
  {
    var n := Pattern(|s|, w);
    CutShorter(|s|, Pow256(w));
    AtParts(st.flat, p, q, Wire(n, w, little, host) + s, Wire(n, w, little, host), s);
    AtFront(st.flat, q, s, n);
    FixedAt(st, p, q, n, w, little, host);
    CharsAt(st, q, q + n, s[..n]);
  }

  lemma AtFront(data: seq<byte>, p: nat, s: seq<byte>, n: nat)
    requires At(data, p, s) && n <= |s|
    ensures At(data, p, s[..n])
  {
    assert data[p..p + n] == data[p..p + |s|][..n];
  }

  lemma CutShorter(n: nat, m: nat)
    requires m > 0
    ensures n % m <= n && (n % m == n <==> n < m)
  {
    if n < m {
      SmallMod(n, m);
    } else {
      assert n % m < m;
    }
  }
  // ---------------------------------------------------------------- sessions, on values

  datatype Item = Item(kind: Kind, value: Value)

  /** A value that comes back: a text must fit its length prefix. */
  predicate Fitting(it: Item) {
    OfKind(it.kind, it.value) && (it.kind.Text? ==> |it.value.s| < Pow256(it.kind.w))
  }

  predicate AllFitting(items: seq<Item>) {
    forall it :: it in items ==> Fitting(it)
  }

  predicate EmptyText(it: Item) {
    it.kind.Text? && it.value == Chars([])
  }

  function EncodeAll(items: seq<Item>, little: bool, host: bool): (s: seq<byte>)
    requires AllFitting(items)
    ensures items != [] ==> |s| > 0
  {
    if items == [] then []
    else
      assert Fitting(items[0]);
      Encode(items[0].kind, items[0].value, little, host) + EncodeAll(items[1..], little, host)
  }

  function Kinds(items: seq<Item>): (ks: seq<Kind>)
    ensures |ks| == |items|
  {
    if items == [] then [] else [items[0].kind] + Kinds(items[1..])
  }

  function Values(items: seq<Item>): seq<Value> {
    if items == [] then [] else [items[0].value] + Values(items[1..])
  }

  function Prepend(v: Value, r: Reading<seq<Value>>): (r': Reading<seq<Value>>)
    ensures r'.cursor == r.cursor
  {
    if r.result.Done? then Reading(Done([v] + r.result.value), r.cursor) else r
  }

  function DecodeAll(ks: seq<Kind>, st: Store, c: Cursor, little: bool, host: bool): Reading<seq<Value>>
    requires StoreOk(st)
  {
    if ks == [] then Reading(Done([]), c)
    else
      var first := Decode(ks[0], st, c, little, host);
      match first.result
      case Done(v) => Prepend(v, DecodeAll(ks[1..], st, first.cursor, little, host))
      case OutOfRange => Reading(OutOfRange, first.cursor)
      case NullCursor => Reading(NullCursor, first.cursor)
  }

  /** The only way a session of straight reads fails: it ends with an empty text, just at full
      capacity. */
  predicate EndsAtNull(items: seq<Item>, end: nat, cap: nat) {
    items != [] && EmptyText(items[|items| - 1]) && end == cap
  }

  /** What reading a session back returns when it goes well. */
  function ReadBack(items: seq<Item>, st: Store, end: nat): Reading<seq<Value>>
    requires StoreOk(st)
  {
    Reading(if EndsAtNull(items, end, |st.flat|) then NullCursor else Done(Values(items)), CursorAt(st.base, end))
  }

  /** Every field of the item is read straight: the bytes of a number, the length of a text, and
      its characters. A varint is read byte by byte and always is. */
  predicate ItemStraight(it: Item, st: Store, p: nat) {
    match it.kind
    case Unsigned(w) => Straight(st, p, w)
    case TwosComplement(w) => Straight(st, p, w)
    case VarUint(_) => true
    case VarInt(_) => true
    case Text(w) => Straight(st, p, w) && (it.value.Chars? ==> Straight(st, p + w, |it.value.s|))
  }

  predicate AllStraight(items: seq<Item>, st: Store, p: nat, little: bool, host: bool)
    requires AllFitting(items)
    decreases |items|
  {
    items != [] ==>
      assert Fitting(items[0]);
      && ItemStraight(items[0], st, p)
      && AllStraight(items[1..], st, p + |Encode(items[0].kind, items[0].value, little, host)|, little, host)
  }

  lemma ZigzagAt(st: Store, p: nat, q: nat, wide: bool, v: int)
    requires StoreOk(st) && Fits(v, Modulus(wide)) && StoredAt(st, p, Varint(EncodeZigzag(v, Modulus(wide))))
    requires q == p + |Varint(EncodeZigzag(v, Modulus(wide)))|
    ensures Map(FetchGroups(st, CursorAt(st.base, p), wide, 0, 0), (n: nat) => Unzigzag(n, wide)) ==
              Reading(Done(Number(v)), CursorAt(st.base, q))
  {
    ZigzagBijection(v, 0, Modulus(wide));
    VarintAt(st, p, q, wide, EncodeZigzag(v, Modulus(wide)));
    SmallMod(EncodeZigzag(v, Modulus(wide)), Modulus(wide));
  }

  lemma WholeTextAt(st: Store, p: nat, q: nat, s: seq<byte>, w: nat, little: bool, host: bool)
    requires StoreOk(st) && w > 0 && |s| < Pow256(w) && StoredAt(st, p, Wire(Pattern(|s|, w), w, little, host) + s)
    requires Straight(st, p, w) && Straight(st, p + w, |s|) && q == p + w + |s|
    ensures FetchText(st, CursorAt(st.base, p), w, little, host) ==
              if s == [] && q == |st.flat| then Reading(NullCursor, CursorAt(st.base, q))
              else Reading(Done(Chars(s)), CursorAt(st.base, q))
  {
    var n := |s| % Pow256(w);
    SmallMod(|s|, Pow256(w));
    assert n == |s| && s[..n] == s;
    TextAt(st, p, p + w, s, w, little, host);
  }

  lemma DecodeAt(it: Item, st: Store, p: nat, q: nat, little: bool, host: bool)
    requires StoreOk(st) && Fitting(it) && StoredAt(st, p, Encode(it.kind, it.value, little, host))
    requires q == p + |Encode(it.kind, it.value, little, host)| && ItemStraight(it, st, p)
    ensures Decode(it.kind, st, CursorAt(st.base, p), little, host) ==
              if EmptyText(it) && q == |st.flat| then Reading(NullCursor, CursorAt(st.base, q))
              else Reading(Done(it.value), CursorAt(st.base, q))
  {
    match it.kind
    case Unsigned(w) => FixedAt(st, p, q, it.value.n, w, little, host);
    case TwosComplement(w) =>
      FixedAt(st, p, q, Pattern(it.value.n, w), w, little, host);
      SignedPattern(it.value.n, w);
    case VarUint(wide) => VarintAt(st, p, q, wide, it.value.n);
    case VarInt(wide) => ZigzagAt(st, p, q, wide, it.value.n);
    case Text(w) => WholeTextAt(st, p, q, it.value.s, w, little, host);
  }

  /** Any list of values written one after another comes back in the same order, for either byte
      order, and the reading ends where the writing did, when every field is read straight. */
  lemma {:induction false} SessionAt(items: seq<Item>, st: Store, p: nat, end: nat, little: bool, host: bool)
    requires StoreOk(st) && AllFitting(items) && StoredAt(st, p, EncodeAll(items, little, host))
    requires end == p + |EncodeAll(items, little, host)| && AllStraight(items, st, p, little, host)
    ensures DecodeAll(Kinds(items), st, CursorAt(st.base, p), little, host) == ReadBack(items, st, end)
    decreases |items|
  {
    if items != [] {
      var q := SplitSession(items, st, p, end, little, host);
      SplitStraight(items, st, p, q, little, host);
      DecodeAt(items[0], st, p, q, little, host);
      if EndsAtNull(items, end, |st.flat|) && |items| == 1 {
        OnlyNull(items, st, p, q, end, little, host);
      } else {
        SessionAt(items[1..], st, q, end, little, host);
        ReadBackStep(items, st, p, q, end, little, host);
      }
    }
  }

  /** The failing case: one empty text, at full capacity. */
  lemma OnlyNull(items: seq<Item>, st: Store, p: nat, q: nat, end: nat, little: bool, host: bool)
    requires StoreOk(st) && |items| == 1 && EndsAtNull(items, end, |st.flat|) && q == end
    requires Decode(items[0].kind, st, CursorAt(st.base, p), little, host) == Reading(NullCursor, CursorAt(st.base, q))
    ensures DecodeAll(Kinds(items), st, CursorAt(st.base, p), little, host) == ReadBack(items, st, end)
  {
  }

  /** A session is its first value, up to q, and then the rest. */
  lemma SplitSession(items: seq<Item>, st: Store, p: nat, end: nat, little: bool, host: bool) returns (q: nat)
    requires items != [] && AllFitting(items) && StoredAt(st, p, EncodeAll(items, little, host))
    requires end == p + |EncodeAll(items, little, host)|
    ensures Fitting(items[0]) && AllFitting(items[1..])
    ensures StoredAt(st, p, Encode(items[0].kind, items[0].value, little, host))
    ensures q == p + |Encode(items[0].kind, items[0].value, little, host)|
    ensures StoredAt(st, q, EncodeAll(items[1..], little, host)) && end == q + |EncodeAll(items[1..], little, host)|
    ensures |items| > 1 ==> q < end
  {
    var head, tail := EncodeAllStep(items, little, host);
    q := p + |head|;
    AtParts(st.flat, p, q, EncodeAll(items, little, host), head, tail);
  }

  lemma SplitStraight(items: seq<Item>, st: Store, p: nat, q: nat, little: bool, host: bool)
    requires items != [] && AllFitting(items) && Fitting(items[0]) && AllFitting(items[1..])
    requires q == p + |Encode(items[0].kind, items[0].value, little, host)|
    ensures AllStraight(items, st, p, little, host) <==>
              ItemStraight(items[0], st, p) && AllStraight(items[1..], st, q, little, host)
  {
  }

  lemma EncodeAllStep(items: seq<Item>, little: bool, host: bool) returns (head: seq<byte>, tail: seq<byte>)
    requires items != [] && AllFitting(items)
    ensures Fitting(items[0]) && AllFitting(items[1..])
    ensures head == Encode(items[0].kind, items[0].value, little, host) && tail == EncodeAll(items[1..], little, host)
    ensures EncodeAll(items, little, host) == head + tail && (|items| > 1 ==> tail != [])
  {
    assert Fitting(items[0]);
    head, tail := Encode(items[0].kind, items[0].value, little, host), EncodeAll(items[1..], little, host);
  }

  lemma ReadBackStep(items: seq<Item>, st: Store, p: nat, q: nat, end: nat, little: bool, host: bool)
    requires StoreOk(st) && items != [] && !(EndsAtNull(items, end, |st.flat|) && |items| == 1)
    requires Decode(items[0].kind, st, CursorAt(st.base, p), little, host) == Reading(Done(items[0].value), CursorAt(st.base, q))
    requires DecodeAll(Kinds(items[1..]), st, CursorAt(st.base, q), little, host) == ReadBack(items[1..], st, end)
    ensures DecodeAll(Kinds(items), st, CursorAt(st.base, p), little, host) == ReadBack(items, st, end)
  {
    assert Kinds(items)[1..] == Kinds(items[1..]);
    assert |items| > 1 ==> items[1..][|items| - 2] == items[|items| - 1];
  }
}
