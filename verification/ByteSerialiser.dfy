// The typed write and read methods of ByteArray, and whole sessions with them.

module ByteSerialisers {
  import opened Base
  import opened ByteArrays
  import opened ByteCodecs
  import opened ByteSessions
  import opened ByteDrifts

  // ---------------------------------------------------------------- writing

  method WriteFixed(b: ByteArray, v: nat, w: nat, host: bool)
    requires b.Valid()
    modifies b`position, b`capacity, b`size, b`cur, b`nodes, b`block, b`flat, b.nodes`next, b.Arrays()
    ensures b.Valid() && b.Grew(old(b.nodes))
    ensures b.position == old(b.position) + w
    ensures b.Stored() == Overwrite(old(b.Stored()), old(b.position), Wire(v, w, b.little, host))
  {
    var bytes := FixedBytes(v, w, b.little, host);
    b.Write(bytes);
  }

  /** The value in memory, its bytes swapped when the array's order is not the host's. */
  method FixedBytes(v: nat, w: nat, little: bool, host: bool) returns (bytes: seq<byte>)
    ensures bytes == Wire(v, w, little, host)
  {
    var value := v;
    if little != host && w > 1 {
      value := ByteSwap(v, w);
    }
    bytes := Layout(value, w, host);
  }

  /** writeUint32 and writeUint64: the groups are collected in a buffer of 5 or 10 bytes. */
  method WriteVarint(b: ByteArray, v: nat, wide: bool)
    requires b.Valid() && v < Modulus(wide)
    modifies b`position, b`capacity, b`size, b`cur, b`nodes, b`block, b`flat, b.nodes`next, b.Arrays()
    ensures b.Valid() && b.Grew(old(b.nodes))
    ensures b.position == old(b.position) + |Varint(v)|
    ensures b.Stored() == Overwrite(old(b.Stored()), old(b.position), Varint(v))
  {
    var tmp := Groups7(v, wide);
    b.Write(tmp);
  }

  method Groups7(v: nat, wide: bool) returns (s: seq<byte>)
    requires v < Modulus(wide)
    ensures s == Varint(v)
  {
    VarintFits(v);
    var tmp := new byte[MaxGroups(wide)];
    var i := 0;
    var value := v;
    while value >= 0x80
      invariant 0 <= i <= tmp.Length && i + |Varint(value)| <= tmp.Length
      invariant tmp[..i] + Varint(value) == Varint(v)
    {
      tmp[i] := value % 0x80 + 0x80;
      i := i + 1;
      value := value / 0x80;
    }
    tmp[i] := value;
    i := i + 1;
    s := tmp[..i];
  }

  /** writeStringF16, F32 and F64: the length, then the bytes. */
  method WriteText(b: ByteArray, s: seq<byte>, w: nat, host: bool)
    requires b.Valid()
    modifies b`position, b`capacity, b`size, b`cur, b`nodes, b`block, b`flat, b.nodes`next, b.Arrays()
    ensures b.Valid() && b.Grew(old(b.nodes))
    ensures b.position == old(b.position) + w + |s|
    ensures b.Stored() == Overwrite(old(b.Stored()), old(b.position), Wire(Pattern(|s|, w), w, b.little, host) + s)
  {
    var length := FixedBytes(Pattern(|s|, w), w, b.little, host);
    WriteTwo(b, length, s);
  }

  /** One write after the other. */
  method WriteTwo(b: ByteArray, x: seq<byte>, y: seq<byte>)
    requires b.Valid()
    modifies b`position, b`capacity, b`size, b`cur, b`nodes, b`block, b`flat, b.nodes`next, b.Arrays()
    ensures b.Valid() && b.Grew(old(b.nodes)) && b.position == old(b.position) + |x| + |y|
    ensures b.Stored() == Overwrite(old(b.Stored()), old(b.position), x + y)
  {
    ghost var data, p := b.Stored(), b.position;
    b.Write(x);
    ghost var between, q := b.Stored(), b.position;
    b.Write(y);
    SecondWrite(data, between, b.Stored(), p, q, x, y);
  }

  /** Two writes one after the other are one write. */
  lemma SecondWrite(data: seq<byte>, between: seq<byte>, after: seq<byte>, p: nat, q: nat, x: seq<byte>, y: seq<byte>)
    requires p <= |data| && between == Overwrite(data, p, x)
    requires q == p + |x| && after == Overwrite(between, q, y)
    ensures after == Overwrite(data, p, x + y)
  {
  }

  method WriteValue(b: ByteArray, k: Kind, v: Value, host: bool)
    requires b.Valid() && OfKind(k, v)
    modifies b`position, b`capacity, b`size, b`cur, b`nodes, b`block, b`flat, b.nodes`next, b.Arrays()
    ensures b.Valid() && b.Grew(old(b.nodes))
    ensures b.position == old(b.position) + |Encode(k, v, b.little, host)|
    ensures b.Stored() == Overwrite(old(b.Stored()), old(b.position), Encode(k, v, b.little, host))
  {
    match k
    case Unsigned(w) => WriteFixed(b, v.n, w, host);
    case TwosComplement(w) => WriteFixed(b, Pattern(v.n, w), w, host);
    case VarUint(wide) => WriteVarint(b, v.n, wide);
    case VarInt(wide) =>
      EncodeZigzagValue(v.n, Modulus(wide));
      WriteVarint(b, EncodeZigzag(v.n, Modulus(wide)), wide);
    case Text(w) => WriteText(b, v.s, w, host);
  }

  // ---------------------------------------------------------------- reading

  method ReadFixed(b: ByteArray, w: nat, host: bool, line607: bool) returns (r: Outcome<nat>)
    requires b.Wired()
    modifies b`position, b`cur, b`block
    ensures b.Wired()
    ensures Reading(r, b.Here()) == FetchFixed(b.StoreOf(line607), old(b.Here()), w, b.little, host)
  {
    var bytes := b.Read(w, line607);
    match bytes
    case Done(s) =>
      var v := Load(s, host);
      if b.little == host || w == 1 {
        r := Done(v);
      } else {
        r := Done(ByteSwap(v, w));
      }
    case OutOfRange => r := OutOfRange;
    case NullCursor => r := NullCursor;
  }

  /** One round of the varint loop, on what its one-byte read returned. */
  lemma GroupRound(st: Store, c: Cursor, wide: bool, i: nat, sum: nat, r: Reading<seq<byte>>)
    requires StoreOk(st) && i < MaxGroups(wide) && r == Fetch(st, c, 1)
    ensures match r.result
            case OutOfRange => FetchGroups(st, c, wide, i, sum) == Reading(OutOfRange, r.cursor)
            case NullCursor => FetchGroups(st, c, wide, i, sum) == Reading(NullCursor, r.cursor)
            case Done(s) =>
              |s| == 1 &&
              var sum' := NextSum(sum, s[0], i, wide);
              FetchGroups(st, c, wide, i, sum) ==
                if s[0] < 0x80 then Reading(Done(sum'), r.cursor) else FetchGroups(st, r.cursor, wide, i + 1, sum')
  {
  }

  /** readUint32 and readUint64. */
  method ReadVarint(b: ByteArray, wide: bool, line607: bool) returns (r: Outcome<nat>)
    requires b.Wired()
    modifies b`position, b`cur, b`block
    ensures b.Wired()
    ensures Reading(r, b.Here()) == FetchGroups(b.StoreOf(line607), old(b.Here()), wide, 0, 0)
  {
    ghost var st, whole := b.StoreOf(line607), FetchGroups(b.StoreOf(line607), b.Here(), wide, 0, 0);
    var result: nat := 0;
    var i := 0;
    while i < MaxGroups(wide)
      invariant 0 <= i <= MaxGroups(wide) && b.Wired() && b.StoreOf(line607) == st
      invariant whole == FetchGroups(st, b.Here(), wide, i, result)
    {
      ghost var c := b.Here();
      var bytes := b.Read(1, line607);
      GroupRound(st, c, wide, i, result, Reading(bytes, b.Here()));
      match bytes {
        case OutOfRange => return OutOfRange;
        case NullCursor => return NullCursor;
        case Done(s) =>
          var next := s[0];
          result := NextSum(result, next, i, wide);
          if next < 0x80 {
            return Done(result);
          }
      }
      i := i + 1;
    }
    r := Done(result);
  }

  method ReadChars(b: ByteArray, n: nat, line607: bool) returns (r: Outcome<Value>)
    requires b.Wired()
    modifies b`position, b`cur, b`block
    ensures b.Wired() && Reading(r, b.Here()) == FetchChars(b.StoreOf(line607), old(b.Here()), n)
  {
    var bytes := b.Read(n, line607);
    match bytes
    case Done(s) => r := Done(Chars(s));
    case OutOfRange => r := OutOfRange;
    case NullCursor => r := NullCursor;
  }

  /** readStringF16, F32 and F64. */
  method ReadText(b: ByteArray, w: nat, host: bool, line607: bool) returns (r: Outcome<Value>)
    requires b.Wired()
    modifies b`position, b`cur, b`block
    ensures b.Wired() && Reading(r, b.Here()) == FetchText(b.StoreOf(line607), old(b.Here()), w, b.little, host)
  {
    var len := ReadFixed(b, w, host, line607);
    match len
    case Done(n) => r := ReadChars(b, n, line607);
    case OutOfRange => r := OutOfRange;
    case NullCursor => r := NullCursor;
  }

  method ReadValue(b: ByteArray, k: Kind, host: bool, line607: bool) returns (r: Outcome<Value>)
    requires b.Wired()
    modifies b`position, b`cur, b`block
    ensures b.Wired() && Reading(r, b.Here()) == Decode(k, b.StoreOf(line607), old(b.Here()), b.little, host)
  {
    var number: Outcome<nat>;
    match k {
      case Text(w) =>
        r := ReadText(b, w, host, line607);
        return;
      case Unsigned(w) => number := ReadFixed(b, w, host, line607);
      case TwosComplement(w) => number := ReadFixed(b, w, host, line607);
      case VarUint(wide) => number := ReadVarint(b, wide, line607);
      case VarInt(wide) => number := ReadVarint(b, wide, line607);
    }
    match number {
      case Done(n) =>
        match k {
          case TwosComplement(w) => r := Done(Number(Signed(n, Pow256(w))));
          case VarInt(wide) => r := Done(Number(Unzigzag(n, wide)));
          case _ => r := Done(Number(n));
        }
      case OutOfRange => r := OutOfRange;
      case NullCursor => r := NullCursor;
    }
  }

  // ---------------------------------------------------------------- sessions

  method WriteAll(b: ByteArray, items: seq<Item>, host: bool)
    requires b.Valid() && AllFitting(items)
    modifies b`position, b`capacity, b`size, b`cur, b`nodes, b`block, b`flat, b.nodes`next, b.Arrays()
    ensures b.Valid() && b.Grew(old(b.nodes))
    ensures b.position == old(b.position) + |EncodeAll(items, b.little, host)|
    ensures b.Stored() == Overwrite(old(b.Stored()), old(b.position), EncodeAll(items, b.little, host))
    decreases |items|
  {
    if items == [] {
      OverwriteNothing(b.Stored(), b.position);
    } else {
      assert Fitting(items[0]);
      ghost var data, p := b.Stored(), b.position;
      ghost var head, tail := Encode(items[0].kind, items[0].value, b.little, host), EncodeAll(items[1..], b.little, host);
      WriteValue(b, items[0].kind, items[0].value, host);
      ghost var between, q := b.Stored(), b.position;
      WriteAll(b, items[1..], host);
      SecondWrite(data, between, b.Stored(), p, q, head, tail);
    }
  }

  method ReadAll(b: ByteArray, ks: seq<Kind>, host: bool, line607: bool) returns (r: Outcome<seq<Value>>)
    requires b.Wired()
    modifies b`position, b`cur, b`block
    ensures b.Wired() && Reading(r, b.Here()) == DecodeAll(ks, b.StoreOf(line607), old(b.Here()), b.little, host)
    decreases |ks|
  {
    if ks == [] {
      return Done([]);
    }
    var first := ReadValue(b, ks[0], host, line607);
    match first {
      case Done(v) =>
        var rest := ReadAll(b, ks[1..], host, line607);
        match rest {
          case Done(vs) => r := Done([v] + vs);
          case OutOfRange => r := OutOfRange;
          case NullCursor => r := NullCursor;
        }
      case OutOfRange => r := OutOfRange;
      case NullCursor => r := NullCursor;
    }
  }

  /** What has been written stands in the store that is read. */
  lemma WrittenIsStored(st: Store, was: seq<byte>, p: nat, s: seq<byte>)
    requires st.size <= |st.flat| && p <= |was| && st.flat[..st.size] == Overwrite(was, p, s)
    ensures StoredAt(st, p, s)
  {
    var now := Overwrite(was, p, s);
    assert now[p..p + |s|] == s;
    assert st.flat[p..p + |s|] == now[p..p + |s|];
  }

  /** The writing half of a session, and back to where it began. */
  method WriteSession(b: ByteArray, items: seq<Item>, host: bool)
    requires b.Valid() && AllFitting(items)
    modifies b`position, b`capacity, b`size, b`cur, b`nodes, b`block, b`flat, b.nodes`next, b.Arrays()
    ensures b.Valid() && b.position == old(b.position)
    ensures forall line607 :: StoredAt(b.StoreOf(line607), b.position, EncodeAll(items, b.little, host))
  {
    var start := b.position;
    ghost var was := b.Stored();
    WriteAll(b, items, host);
    var _ := b.SetPosition(start);
    forall line607 ensures StoredAt(b.StoreOf(line607), start, EncodeAll(items, b.little, host)) {
      WrittenIsStored(b.StoreOf(line607), was, start, EncodeAll(items, b.little, host));
    }
  }

  /** What a session may return, and where it may leave the position: the values, and the end of the
      writing, exactly when every field is read straight and the session does not end with an empty text
      just at full capacity; without line 607 every field is read straight, and that empty text is the only
      thing that does not come back. */
  predicate SessionResult(items: seq<Item>, st: Store, p: nat, end: nat, little: bool, host: bool,
                          r: Outcome<seq<Value>>, position: nat)
    requires AllFitting(items)
  {
    && (r == Done(Values(items)) && position == end <==>
          AllStraight(items, st, p, little, host) && !EndsAtNull(items, end, |st.flat|))
    && (!st.line607 ==>
          && AllStraight(items, st, p, little, host) && position == end
          && r == if EndsAtNull(items, end, |st.flat|) then NullCursor else Done(Values(items)))
  }

  lemma WhatComesBack(items: seq<Item>, st: Store, p: nat, end: nat, little: bool, host: bool)
    requires StoreOk(st) && AllFitting(items) && StoredAt(st, p, EncodeAll(items, little, host))
    requires end == p + |EncodeAll(items, little, host)|
    ensures var r := DecodeAll(Kinds(items), st, CursorAt(st.base, p), little, host);
            && SessionResult(items, st, p, end, little, host, r.result, r.cursor.p)
            && (!st.line607 ==> r.cursor == CursorAt(st.base, end) && end <= st.size)
  {
    SessionExactly(items, st, p, end, little, host);
    if !st.line607 {
      DocumentedIsStraight(items, st, p, little, host);
      SessionAt(items, st, p, end, little, host);
    }
  }

  /** The reading half of a session. */
  method ReadSession(b: ByteArray, items: seq<Item>, host: bool, line607: bool) returns (r: Outcome<seq<Value>>)
    requires b.Valid() && AllFitting(items)
    requires StoredAt(b.StoreOf(line607), b.position, EncodeAll(items, b.little, host))
    modifies b`position, b`cur, b`block
    ensures b.Wired() && (!line607 ==> b.Valid())
    ensures SessionResult(items, b.StoreOf(line607), old(b.position), old(b.position) + |EncodeAll(items, b.little, host)|,
                          b.little, host, r, b.position)
  {
    ghost var st, p := b.StoreOf(line607), b.position;
    b.ValidIsAligned();
    WhatComesBack(items, st, p, p + |EncodeAll(items, b.little, host)|, b.little, host);
    r := ReadAll(b, Kinds(items), host, line607);
    b.ValidIsAligned();
  }

  /** A whole session on one array, with the read that is documented or, with line607, the one that
      the source has: whatever the block size, the contents before, the array's byte order and the host's,
      what is written from a position comes back when it is read from there exactly as SessionResult says. */
  method Session(b: ByteArray, items: seq<Item>, host: bool, line607: bool) returns (r: Outcome<seq<Value>>)
    requires b.Valid() && AllFitting(items)
    modifies b`position, b`capacity, b`size, b`cur, b`nodes, b`block, b`flat, b.nodes`next, b.Arrays()
    ensures b.Wired() && (!line607 ==> b.Valid())
    ensures SessionResult(items, b.StoreOf(line607), old(b.position), old(b.position) + |EncodeAll(items, b.little, host)|,
                          b.little, host, r, b.position)
  {
    WriteSession(b, items, host);
    r := ReadSession(b, items, host, line607);
  }
}
