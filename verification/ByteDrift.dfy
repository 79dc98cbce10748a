// Sessions as the source reads them, with line 607: when they come back, and when they do not.

module ByteDrifts {
  import opened Base
  import opened ByteArrays
  import opened ByteCodecs
  import opened ByteSessions

  // ---------------------------------------------------------------- how far a read gets

  /** A read that succeeds moves the position by what it read, and by the drift. */
  lemma FetchAdvances(st: Store, c: Cursor, n: nat)
    requires StoreOk(st) && Fetch(st, c, n).result.Done?
    ensures |Fetch(st, c, n).result.value| == n
    ensures Fetch(st, c, n).cursor.p == c.p + n + Skip(st, c.p, n)
  {
  }

  /** The value of a varint is below 128 to the number of bytes it took, whatever the bytes. */
  lemma {:induction false} GroupsAdvance(st: Store, c: Cursor, wide: bool, i: nat, sum: nat)
    requires StoreOk(st) && i < MaxGroups(wide) && sum < Pow128(i)
    ensures var r := FetchGroups(st, c, wide, i, sum);
            r.result.Done? ==> r.cursor.p > c.p && r.result.value < Pow128(i + (r.cursor.p - c.p))
    decreases MaxGroups(wide) - i
  {
    var r := Fetch(st, c, 1);
    if r.result.Done? {
      FetchAdvances(st, c, 1);
      var b := r.result.value[0];
      var sum' := NextSum(sum, b, i, wide);
      OneMoreGroup(sum, b, i, wide);
      if b < 0x80 {
        assert FetchGroups(st, c, wide, i, sum) == Reading(Done(sum'), r.cursor);
      } else if i + 1 < MaxGroups(wide) {
        GroupsAdvance(st, r.cursor, wide, i + 1, sum');
      }
    }
  }

  /** Whatever the bytes, what a varint read returns fits the width. */
  lemma {:induction false} GroupsFit(st: Store, c: Cursor, wide: bool, i: nat, sum: nat)
    requires StoreOk(st) && i < MaxGroups(wide) && sum < Pow128(i) && sum < Modulus(wide)
    ensures var r := FetchGroups(st, c, wide, i, sum); r.result.Done? ==> r.result.value < Modulus(wide)
    decreases MaxGroups(wide) - i
  {
    var r := Fetch(st, c, 1);
    if r.result.Done? {
      FetchAdvances(st, c, 1);
      var b := r.result.value[0];
      OneMoreGroup(sum, b, i, wide);
      SumFits(sum, b, i, wide);
      if b >= 0x80 && i + 1 < MaxGroups(wide) {
        GroupsFit(st, r.cursor, wide, i + 1, NextSum(sum, b, i, wide));
      }
    }
  }

  lemma Powers()
    ensures Pow128(4) == 0x1000_0000 && Pow128(9) == 0x8000_0000_0000_0000
  {
  }

  lemma {:induction false} PowersGrow(i: nat, j: nat)
    requires i <= j
    ensures Pow128(i) <= Pow128(j)
  {
    if i < j {
      PowersGrow(i, j - 1);
    }
  }

  lemma SumFits(sum: nat, b: byte, i: nat, wide: bool)
    requires i < MaxGroups(wide) && sum < Pow128(i)
    ensures NextSum(sum, b, i, wide) < Modulus(wide)
  {
    var last := MaxGroups(wide) - 1;
    Powers();
    if i < last {
      OneMoreGroup(sum, b, i, wide);
      PowersGrow(i + 1, last);
    } else {
      TopGroup(b % 0x80);
    }
  }

  /** The bits of the last group that do not fit are cut off. */
  lemma TopGroup(g: nat)
    ensures g * 0x1000_0000 % 0x1_0000_0000 + 0x1000_0000 <= 0x1_0000_0000
    ensures g * 0x8000_0000_0000_0000 % 0x1_0000_0000_0000_0000 + 0x8000_0000_0000_0000 <= 0x1_0000_0000_0000_0000
  {
  }

  lemma OneMoreGroup(sum: nat, b: byte, i: nat, wide: bool)
    requires sum < Pow128(i)
    ensures NextSum(sum, b, i, wide) < Pow128(i + 1)
  {
    AtMost127(b % 0x80, Pow128(i));
    CutShorter(b % 0x80 * Pow128(i), Modulus(wide));
  }

  lemma AtMost127(g: nat, power: nat)
    requires g <= 127
    ensures g * power <= 127 * power
  {
  }

  lemma VarintNoLonger(v: nat, g: nat)
    requires g > 0 && v < Pow128(g)
    ensures |Varint(v)| <= g
  {
    VarintTail(v, g - 1);
  }

  lemma VarintAdvances(st: Store, c: Cursor, wide: bool, v: nat)
    requires StoreOk(st)
    ensures var r := FetchGroups(st, c, wide, 0, 0);
            r.result.Done? && v <= r.result.value ==> r.cursor.p >= c.p + |Varint(v)|
  {
    var r := FetchGroups(st, c, wide, 0, 0);
    GroupsAdvance(st, c, wide, 0, 0);
    if r.result.Done? && v <= r.result.value { VarintNoLonger(v, r.cursor.p - c.p); }
  }

  lemma ZigzagAdvances(st: Store, c: Cursor, wide: bool, v: int)
    requires StoreOk(st) && Fits(v, Modulus(wide))
    ensures var r := FetchGroups(st, c, wide, 0, 0);
            r.result.Done? && Unzigzag(r.result.value, wide) == v ==>
              r.cursor.p >= c.p + |Varint(EncodeZigzag(v, Modulus(wide)))|
  {
    var r := FetchGroups(st, c, wide, 0, 0);
    if r.result.Done? {
      ZigzagBijection(v, r.result.value % Modulus(wide), Modulus(wide));
      CutShorter(r.result.value, Modulus(wide));
    }
    VarintAdvances(st, c, wide, EncodeZigzag(v, Modulus(wide)));
  }

  lemma TextAdvances(st: Store, c: Cursor, w: nat, little: bool, host: bool)
    requires StoreOk(st)
    ensures var r := FetchText(st, c, w, little, host);
            r.result.Done? ==>
              r.result.value.Chars? && r.cursor.p >= c.p + w + |r.result.value.s| + Skip(st, c.p, w)
  {
  }

  /** From any position and any cursor, a read that returns the value takes at least the bytes that
      the value is written as. */
  lemma Advances(it: Item, st: Store, c: Cursor, little: bool, host: bool)
    requires StoreOk(st) && Fitting(it)
    ensures var r := Decode(it.kind, st, c, little, host);
            r.result == Done(it.value) ==> r.cursor.p >= c.p + |Encode(it.kind, it.value, little, host)|
  {
    match it.kind
    case Unsigned(w) => if Fetch(st, c, w).result.Done? { FetchAdvances(st, c, w); }
    case TwosComplement(w) => if Fetch(st, c, w).result.Done? { FetchAdvances(st, c, w); }
    case VarUint(wide) => VarintAdvances(st, c, wide, it.value.n);
    case VarInt(wide) => ZigzagAdvances(st, c, wide, it.value.n);
    case Text(w) => TextAdvances(st, c, w, little, host);
  }

  lemma {:induction false} AdvancesAll(items: seq<Item>, st: Store, c: Cursor, little: bool, host: bool)
    requires StoreOk(st) && AllFitting(items)
    ensures var r := DecodeAll(Kinds(items), st, c, little, host);
            r.result == Done(Values(items)) ==> r.cursor.p >= c.p + |EncodeAll(items, little, host)|
    decreases |items|
  {
    if items != [] {
      var head, tail := EncodeAllStep(items, little, host);
      var first := Decode(items[0].kind, st, c, little, host);
      Advances(items[0], st, c, little, host);
      AdvancesAll(items[1..], st, first.cursor, little, host);
      FirstAndRest(items, st, c, little, host);
    }
  }

  /** A session that returns the values returns the first and then the rest. */
  lemma FirstAndRest(items: seq<Item>, st: Store, c: Cursor, little: bool, host: bool)
    requires StoreOk(st) && items != []
    ensures var r := DecodeAll(Kinds(items), st, c, little, host);
            var first := Decode(items[0].kind, st, c, little, host);
            var rest := DecodeAll(Kinds(items[1..]), st, first.cursor, little, host);
            r.result == Done(Values(items)) ==>
              first.result == Done(items[0].value) && rest.result == Done(Values(items[1..])) && r.cursor == rest.cursor
  {
    assert Kinds(items)[1..] == Kinds(items[1..]);
    var first := Decode(items[0].kind, st, c, little, host);
    if first.result.Done? {
      var rest := DecodeAll(Kinds(items[1..]), st, first.cursor, little, host);
      if rest.result.Done? {
        var v, vs := first.result.value, rest.result.value;
        assert ([v] + vs)[0] == v && ([v] + vs)[1..] == vs;
        assert Values(items)[0] == items[0].value && Values(items)[1..] == Values(items[1..]);
      }
    }
  }

  // ---------------------------------------------------------------- when a field is not straight

  lemma CrookedText(st: Store, p: nat, s: seq<byte>, w: nat, little: bool, host: bool)
    requires StoreOk(st) && w > 0 && |s| < Pow256(w) && StoredAt(st, p, Wire(Pattern(|s|, w), w, little, host) + s)
    requires !(Straight(st, p, w) && Straight(st, p + w, |s|))
    ensures var r := FetchText(st, CursorAt(st.base, p), w, little, host);
            r.result == Done(Chars(s)) ==> r.cursor.p > p + w + |s|
  {
    var c := CursorAt(st.base, p);
    TextAdvances(st, c, w, little, host);
    if Straight(st, p, w) {
      SmallMod(|s|, Pow256(w));
      AtParts(st.flat, p, p + w, Wire(|s|, w, little, host) + s, Wire(|s|, w, little, host), s);
      FixedAt(st, p, p + w, |s|, w, little, host);
    }
  }

  /** A field that is not read straight leaves the position too far, if the value comes back at all. */
  lemma CrookedItem(it: Item, st: Store, p: nat, little: bool, host: bool)
    requires StoreOk(st) && Fitting(it) && StoredAt(st, p, Encode(it.kind, it.value, little, host))
    requires !ItemStraight(it, st, p)
    ensures var r := Decode(it.kind, st, CursorAt(st.base, p), little, host);
            r.result == Done(it.value) ==> r.cursor.p > p + |Encode(it.kind, it.value, little, host)|
  {
    var c := CursorAt(st.base, p);
    match it.kind
    case Unsigned(w) => if Fetch(st, c, w).result.Done? { FetchAdvances(st, c, w); }
    case TwosComplement(w) => if Fetch(st, c, w).result.Done? { FetchAdvances(st, c, w); }
    case VarUint(_) =>
    case VarInt(_) =>
    case Text(w) => CrookedText(st, p, it.value.s, w, little, host);
  }

  /** A session whose first field is crooked and whose rest returns the rest ends too far. */
  lemma CrookedFirst(items: seq<Item>, st: Store, p: nat, q: nat, end: nat, little: bool, host: bool)
    requires StoreOk(st) && items != [] && AllFitting(items) && Fitting(items[0]) && AllFitting(items[1..])
    requires StoredAt(st, p, Encode(items[0].kind, items[0].value, little, host)) && !ItemStraight(items[0], st, p)
    requires q == p + |Encode(items[0].kind, items[0].value, little, host)|
    requires end == q + |EncodeAll(items[1..], little, host)|
    ensures var r := DecodeAll(Kinds(items), st, CursorAt(st.base, p), little, host);
            !(r.result == Done(Values(items)) && r.cursor.p == end)
  {
    var c := CursorAt(st.base, p);
    FirstAndRest(items, st, c, little, host);
    CrookedItem(items[0], st, p, little, host);
    AdvancesAll(items[1..], st, Decode(items[0].kind, st, c, little, host).cursor, little, host);
  }

  /** A session whose first field comes back as it should ends as the rest does. */
  lemma CrookedLater(items: seq<Item>, st: Store, p: nat, q: nat, end: nat, little: bool, host: bool)
    requires StoreOk(st) && items != []
    requires var r := Decode(items[0].kind, st, CursorAt(st.base, p), little, host);
      r.result == Done(items[0].value) ==> r.cursor == CursorAt(st.base, q)
    requires var r := DecodeAll(Kinds(items[1..]), st, CursorAt(st.base, q), little, host);
      !(r.result == Done(Values(items[1..])) && r.cursor.p == end)
    ensures var r := DecodeAll(Kinds(items), st, CursorAt(st.base, p), little, host);
            !(r.result == Done(Values(items)) && r.cursor.p == end)
  {
    FirstAndRest(items, st, CursorAt(st.base, p), little, host);
  }

  lemma {:induction false} CrookedSession(items: seq<Item>, st: Store, p: nat, end: nat, little: bool, host: bool)
    requires StoreOk(st) && AllFitting(items) && StoredAt(st, p, EncodeAll(items, little, host))
    requires end == p + |EncodeAll(items, little, host)| && !AllStraight(items, st, p, little, host)
    ensures var r := DecodeAll(Kinds(items), st, CursorAt(st.base, p), little, host);
            !(r.result == Done(Values(items)) && r.cursor.p == end)
    decreases |items|
  {
    var q := SplitSession(items, st, p, end, little, host);
    SplitStraight(items, st, p, q, little, host);
    if ItemStraight(items[0], st, p) {
      DecodeAt(items[0], st, p, q, little, host);
      CrookedSession(items[1..], st, q, end, little, host);
      CrookedLater(items, st, p, q, end, little, host);
    } else {
      CrookedFirst(items, st, p, q, end, little, host);
    }
  }

  /** The session as the source reads it: the values come back, with the position where the writing
      ended, exactly when every field that starts inside a block is read without leaving it, and the
      session does not end with an empty text at full capacity. */
  lemma SessionExactly(items: seq<Item>, st: Store, p: nat, end: nat, little: bool, host: bool)
    requires StoreOk(st) && AllFitting(items) && StoredAt(st, p, EncodeAll(items, little, host))
    requires end == p + |EncodeAll(items, little, host)|
    ensures var r := DecodeAll(Kinds(items), st, CursorAt(st.base, p), little, host);
            r.result == Done(Values(items)) && r.cursor.p == end <==>
            AllStraight(items, st, p, little, host) && !EndsAtNull(items, end, |st.flat|)
  {
    if AllStraight(items, st, p, little, host) {
      SessionAt(items, st, p, end, little, host);
    } else {
      CrookedSession(items, st, p, end, little, host);
    }
  }

  /** Without line 607 every field is read straight. */
  lemma {:induction false} DocumentedIsStraight(items: seq<Item>, st: Store, p: nat, little: bool, host: bool)
    requires st.base > 0 && !st.line607 && AllFitting(items)
    ensures AllStraight(items, st, p, little, host)
    decreases |items|
  {
    if items != [] {
      assert Fitting(items[0]);
      DocumentedIsStraight(items[1..], st, p + |Encode(items[0].kind, items[0].value, little, host)|, little, host);
    }
  }

  // ---------------------------------------------------------------- the failing session

  /** A session that line 607 breaks, in blocks of two bytes: a byte, a two-byte integer, a byte.
      The integer is read across the block boundary from offset 1, the position ends at 4 instead
      of 3, and the last byte is refused as missing; without the line all three come back. */
  lemma FailingSession(little: bool, host: bool, a: byte, v: nat, z: byte)
    requires v < Pow256(2)
    ensures var flat := [a] + Wire(v, 2, little, host) + [z];
            var items := [Item(Unsigned(1), Number(a)), Item(Unsigned(2), Number(v)), Item(Unsigned(1), Number(z))];
            && DecodeAll(Kinds(items), Store(2, 2, flat, 4, true), Cursor(0, 0), little, host).result == OutOfRange
            && DecodeAll(Kinds(items), Store(2, 2, flat, 4, false), Cursor(0, 0), little, host)
                 == Reading(Done(Values(items)), Cursor(4, 2))
  {
    var flat := [a] + Wire(v, 2, little, host) + [z];
    var one, two, three := Item(Unsigned(1), Number(a)), Item(Unsigned(2), Number(v)), Item(Unsigned(1), Number(z));
    assert Start(2, 2) == 4;
    DriftsToFour(Store(2, 2, flat, 4, true), a, v, z, little, host);
    ThreeKinds(one, two, three);
    ComesBack(Store(2, 2, flat, 4, false), one, two, three, a, v, z, little, host);
  }

  lemma ThreeKinds(one: Item, two: Item, three: Item)
    ensures Kinds([one, two, three]) == [one.kind, two.kind, three.kind]
  {
    assert [one, two, three][1..] == [two, three] && [two, three][1..] == [three] && [three][1..] == [];
    assert Kinds([three]) == [three.kind] && Kinds([two, three]) == [two.kind, three.kind];
  }

  lemma ComesBack(st: Store, one: Item, two: Item, three: Item, a: byte, v: nat, z: byte, little: bool, host: bool)
    requires v < Pow256(2) && st == Store(2, 2, [a] + Wire(v, 2, little, host) + [z], 4, false) && StoreOk(st)
    requires one == Item(Unsigned(1), Number(a)) && two == Item(Unsigned(2), Number(v)) && three == Item(Unsigned(1), Number(z))
    ensures DecodeAll(Kinds([one, two, three]), st, Cursor(0, 0), little, host)
              == Reading(Done(Values([one, two, three])), Cursor(4, 2))
  {
    var items := [one, two, three];
    assert Pow256(1) == 256 * Pow256(0);
    OneByteWire(a, little, host);
    OneByteWire(z, little, host);
    assert items[1..] == [two, three] && [two, three][1..] == [three] && [three][1..] == [];
    assert EncodeAll([three], little, host) == [z];
    assert EncodeAll([two, three], little, host) == Wire(v, 2, little, host) + [z];
    assert EncodeAll(items, little, host) == st.flat;
    DocumentedIsStraight(items, st, 0, little, host);
    SessionAt(items, st, 0, 4, little, host);
  }

  lemma OneByteWire(b: byte, little: bool, host: bool)
    ensures Wire(b, 1, little, host) == [b]
  {
    assert Pow256(1) == 256 * Pow256(0);
    WireIsHostIndependent(b, 1, little, host);
    SingleByte(b, [b]);
  }

  lemma DriftsToFour(st: Store, a: byte, v: nat, z: byte, little: bool, host: bool)
    requires v < Pow256(2) && st == Store(2, 2, [a] + Wire(v, 2, little, host) + [z], 4, true) && StoreOk(st)
    ensures DecodeAll([Unsigned(1), Unsigned(2), Unsigned(1)], st, Cursor(0, 0), little, host).result == OutOfRange
  {
    var ks := [Unsigned(1), Unsigned(2), Unsigned(1)];
    assert ks[1..] == [Unsigned(2), Unsigned(1)] && ks[1..][1..] == [Unsigned(1)];
    FetchAligned(st, 0, 1);
    assert Fetch(st, Cursor(0, 0), 1) == Reading(Done(st.flat[0..1]), Cursor(1, 0));
    FetchAligned(st, 1, 2);
    assert Fetch(st, Cursor(1, 0), 2) == Reading(Done(st.flat[1..3]), Cursor(4, 1));
    assert Fetch(st, Cursor(4, 1), 1) == Reading(OutOfRange, Cursor(4, 1));
    assert DecodeAll([Unsigned(1)], st, Cursor(4, 1), little, host) == Reading(OutOfRange, Cursor(4, 1));
    assert DecodeAll(ks[1..], st, Cursor(1, 0), little, host).result == OutOfRange;
  }
}
