// ByteArray: a growable list of equally sized blocks with a cursor, seen as one flat run of
// bytes.

module ByteArrays {
  import opened Base

  /** What a read ends in: bytes, the exception for missing data, or a null cursor followed. */
  datatype Outcome<T> = Done(value: T) | OutOfRange | NullCursor

  // ---------------------------------------------------------------- flat bytes

  /** s with b written over it at p, growing when b reaches past the end. */
  function Overwrite(s: seq<byte>, p: nat, b: seq<byte>): (r: seq<byte>)
    requires p <= |s|
    ensures |r| == if p + |b| <= |s| then |s| else p + |b|
  {
    if p + |b| <= |s| then s[..p] + b + s[p + |b|..] else s[..p] + b
  }

  lemma OverwriteNothing(s: seq<byte>, p: nat)
    requires p <= |s|
    ensures Overwrite(s, p, []) == s
  {
  }

  /** now is was with b put at p, and nothing else touched. */
  ghost predicate Patched(was: seq<byte>, now: seq<byte>, p: nat, b: seq<byte>) {
    && |now| == |was| && p + |b| <= |was|
    && forall i :: 0 <= i < |was| ==> now[i] == if p <= i < p + |b| then b[i - p] else was[i]
  }

  /** One piece of buf after another. */
  lemma PatchedNext(a: seq<byte>, b: seq<byte>, c: seq<byte>, p: nat, buf: seq<byte>, done: nat, n: nat)
    requires done + n <= |buf|
    requires Patched(a, b, p, buf[..done]) && Patched(b, c, p + done, buf[done..done + n])
    ensures Patched(a, c, p, buf[..done + n])
  {
  }

  /** What is stored after a write: growing first and cutting at the end change nothing. */
  lemma OverwriteStored(was: seq<byte>, grown: seq<byte>, now: seq<byte>, n: nat, p: nat, b: seq<byte>)
    requires was <= grown && p <= n <= |was| && Patched(grown, now, p, b)
    ensures now[..if n < p + |b| then p + |b| else n] == Overwrite(was[..n], p, b)
  {
  }

  // ---------------------------------------------------------------- block arithmetic

  /** Where block k starts. */
  function Start(base: nat, k: nat): nat {
    if k == 0 then 0 else Start(base, k - 1) + base
  }

  lemma {:induction false} StartIsProduct(base: nat, k: nat)
    ensures Start(base, k) == base * k
  {
    if k > 0 {
      StartIsProduct(base, k - 1);
      assert base * k == base * (k - 1) + base;
    }
  }

  lemma {:induction false} StartMono(base: nat, j: nat, k: nat)
    requires j <= k
    ensures Start(base, j) <= Start(base, k)
  {
    if j < k {
      StartMono(base, j, k - 1);
    }
  }

  /** Place p lies in block k. */
  predicate In(base: nat, p: nat, k: nat) {
    Start(base, k) <= p < Start(base, k) + base
  }

  /** A place lies below block n exactly when its block does. */
  lemma Below(base: nat, p: nat, k: nat, n: nat)
    requires In(base, p, k)
    ensures p < Start(base, n) <==> k < n
  {
    if k < n {
      StartMono(base, k + 1, n);
    } else {
      StartMono(base, n, k);
    }
  }

  /** Division and remainder find the block and the offset of a place. */
  lemma Divide(base: nat, p: nat)
    requires base > 0
    ensures In(base, p, p / base) && p == Start(base, p / base) + p % base
  {
    StartIsProduct(base, p / base);
  }

  lemma InOnly(base: nat, p: nat, k: nat)
    requires In(base, p, k)
    ensures k == p / base && p == Start(base, k) + p % base
  {
    Divide(base, p);
    Below(base, p, k, p / base);
    Below(base, p, p / base, k);
  }

  /** How many blocks hold n bytes: ceil(n / base). */
  function BlocksFor(base: nat, n: nat): (count: nat)
    requires base > 0
    ensures n <= Start(base, count) < n + base
  {
    if n == 0 then 0 else if n <= base then 1 else BlocksFor(base, n - base) + 1
  }

  /** The capacity after room has been made for n bytes at p. */
  function Grown(base: nat, capacity: nat, p: nat, n: nat): (c: nat)
    requires base > 0 && p <= capacity
    ensures capacity <= c && p + n <= c
    ensures c > capacity ==> c < p + n + base
  {
    if n <= capacity - p then capacity else capacity + Start(base, BlocksFor(base, n - (capacity - p)))
  }

  /** How far line 607 pushes the position beyond the bytes read: the offset in the first block
      again, when the read leaves that block. */
  function Drift(base: nat, p: nat, n: nat): nat
    requires base > 0
  {
    if n > base - p % base then p % base else 0
  }

  /** Where the const read looks for position p when the cursor is at position at. */
  function SeenAt(base: nat, at: nat, p: nat): nat
    requires base > 0
  {
    Start(base, at / base) + p % base
  }

  // ---------------------------------------------------------------- reading, on values

  /** What a read depends on: the blocks end to end, how much is stored, and whether read has line
      607 of the source. */
  datatype Store = Store(base: nat, blocks: nat, flat: seq<byte>, size: nat, line607: bool)

  /** The position and the block of the cursor, which need not be the block of the position. */
  datatype Cursor = Cursor(p: nat, k: nat)

  /** A result together with the cursor it leaves. */
  datatype Reading<T> = Reading(result: Outcome<T>, cursor: Cursor)

  predicate StoreOk(st: Store) {
    st.base > 0 && |st.flat| == Start(st.base, st.blocks) && st.size <= |st.flat|
  }

  /** getReadSize, in size_t arithmetic when the position is beyond the size. */
  function Remaining(size: nat, p: nat): nat {
    if p <= size then size - p else (size - p) % TWO_64
  }

  /** A position that line 607 has pushed beyond the size seems to have almost everything left. */
  lemma RemainingWraps(size: nat, p: nat)
    requires size < p <= 0x1_0000_0000_0000_0000
    ensures Remaining(size, p) == size + (0x1_0000_0000_0000_0000 - p)
  {
  }

  /** The place that is read next: the offset of the position, in the block of the cursor. */
  function Place(st: Store, c: Cursor): nat
    requires st.base > 0
  {
    Start(st.base, c.k) + c.p % st.base
  }

  function Skip(st: Store, p: nat, n: nat): nat
    requires st.base > 0
  {
    if st.line607 then Drift(st.base, p, n) else 0
  }

  /** read(n) from any position and any cursor: the exception for missing data; a null cursor
      followed at once, or behind the last block when the read runs off it; or n bytes from the place
      that is read next. */
  function Fetch(st: Store, c: Cursor, n: nat): Reading<seq<byte>>
    requires StoreOk(st)
  {
    if n > Remaining(st.size, c.p) then Reading(OutOfRange, c)
    else if c.k >= st.blocks then Reading(NullCursor, c)
    else
      var at := Place(st, c);
      PlaceInside(st, c);
      if at + n > |st.flat| then Reading(NullCursor, Cursor(c.p + (|st.flat| - at) + Skip(st, c.p, n), st.blocks))
      else Reading(Done(st.flat[at..at + n]), Cursor(c.p + n + Skip(st, c.p, n), (at + n) / st.base))
  }

  lemma PlaceInside(st: Store, c: Cursor)
    requires StoreOk(st) && c.k < st.blocks
    ensures In(st.base, Place(st, c), c.k) && Place(st, c) < |st.flat|
  {
    Below(st.base, Place(st, c), c.k, st.blocks);
  }

  /** The cursor as it should be: on the block of the position. */
  function CursorAt(base: nat, p: nat): Cursor
    requires base > 0
  {
    Cursor(p, p / base)
  }

  /** From a cursor on the block of its position a read returns the next n stored bytes and leaves
      the cursor on the block behind them. The position is there too, but for the drift of line 607. The
      read follows a null pointer exactly for nothing at full capacity. */
  lemma FetchAligned(st: Store, p: nat, n: nat)
    requires StoreOk(st) && p <= st.size
    ensures Fetch(st, CursorAt(st.base, p), n) ==
              if n > st.size - p then Reading(OutOfRange, CursorAt(st.base, p))
              else if n == 0 && p == |st.flat| then Reading(NullCursor, CursorAt(st.base, p))
              else Reading(Done(st.flat[p..p + n]), Cursor(p + n + Skip(st, p, n), (p + n) / st.base))
  {
    Divide(st.base, p);
    Below(st.base, p, p / st.base, st.blocks);
  }

  // ---------------------------------------------------------------- blocks

  class Node {
    const data: array<byte>
    var next: Node?

    constructor (size: nat)
      ensures fresh(data) && data.Length == size && next == null
    {
      data := new byte[size];
      next := null;
    }

    /** memcpy into the block. */
    method Put(off: nat, piece: seq<byte>)
      requires off + |piece| <= data.Length
      modifies data
      ensures forall i :: 0 <= i < data.Length ==>
                data[i] == if off <= i < off + |piece| then piece[i - off] else old(data[i])
    {
      forall i | 0 <= i < |piece| {
        data[off + i] := piece[i];
      }
    }
  }

  class ByteArray {
    const base: nat
    const root: Node
    var position: nat
    var capacity: nat
    var size: nat
    var little: bool
    var cur: Node?
    ghost var nodes: seq<Node>        // the blocks in order
    ghost var block: nat              // which block the position is in
    ghost var flat: seq<byte>         // the bytes of all blocks, end to end

    /** The storage of all blocks. */
    ghost function Arrays(): set<array<byte>>
      reads `nodes
    {
      set n: Node | n in nodes :: n.data
    }

    /** The blocks are chained from the root, all of the same size, and no two share storage. */
    ghost predicate Linked()
      reads `nodes, `capacity, nodes`next
    {
      && base > 0 && |nodes| > 0 && nodes[0] == root && capacity == Start(base, |nodes|)
      && (forall i :: 0 <= i < |nodes| ==> nodes[i].data.Length == base)
      && (forall i, j :: 0 <= i < j < |nodes| && j - i == 1 ==> nodes[i].next == nodes[j])
      && nodes[|nodes| - 1].next == null
      && (forall i, j :: 0 <= i < j < |nodes| ==> nodes[i] != nodes[j] && nodes[i].data != nodes[j].data)
    }

    /** flat is what the blocks hold. */
    ghost predicate Holds()
      requires Linked()
      reads `nodes, `capacity, `flat, nodes`next, Arrays()
    {
      && |flat| == capacity
      && forall k :: 0 <= k < |nodes| ==> BlockHolds(nodes[k], k)
    }

    ghost predicate BlockHolds(n: Node, k: nat)
      reads `flat, n.data
    {
      && n.data.Length == base && Start(base, k) + base <= |flat|
      && forall off :: 0 <= off < base ==> n.data[off] == flat[Start(base, k) + off]
    }

    /** The k-th block, or null past the last one. */
    ghost function BlockAt(k: nat): Node?
      reads `nodes
    {
      if k < |nodes| then nodes[k] else null
    }

    /** The cursor is the block of the position, and null at full capacity. */
    ghost predicate Valid()
      reads this, nodes`next, Arrays()
    {
      && Linked() && Holds()
      && position <= size <= capacity
      && In(base, position, block)
      && cur == BlockAt(block)
    }

    /** What a read finds even after line 607 has pushed the position: the blocks are in order and
        the cursor is some block, or null. */
    ghost predicate Wired()
      reads this, nodes`next, Arrays()
    {
      Linked() && Holds() && size <= capacity && cur == BlockAt(block)
    }

    /** The array as a read sees it. */
    ghost function StoreOf(line607: bool): (st: Store)
      requires Linked() && Holds() && size <= capacity
      reads `nodes, `capacity, `flat, `size, nodes`next, Arrays()
      ensures StoreOk(st)
    {
      Store(base, |nodes|, flat, size, line607)
    }

    ghost function Here(): Cursor
      reads `position, `block
    {
      Cursor(position, block)
    }

    /** The bytes stored so far. */
    ghost function Stored(): seq<byte>
      requires size <= |flat|
      reads `flat, `size
    {
      flat[..size]
    }

    constructor (base: nat)
      requires base > 0
      ensures Valid() && fresh(root) && fresh(root.data) && nodes == [root] && this.base == base
      ensures position == size == 0 && !little
    {
      this.base := base;
      var first := new Node(base);
      root, cur, nodes := first, first, [first];
      position, size, capacity, little, block := 0, 0, base, false, 0;
      flat := first.data[..];
    }

    /** What Valid says in the terms of the source: the cursor is the block of position / base,
        it is null exactly at full capacity, and byte i stands in block i / base. */
    lemma CursorAndBytes(i: nat)
      requires Valid()
      ensures cur == BlockAt(position / base) && (cur == null <==> position == capacity)
      ensures i < capacity ==> i / base < |nodes| && flat[i] == nodes[i / base].data[i % base]
    {
      InOnly(base, position, block);
      Below(base, position, block, |nodes|);
      Divide(base, i);
      Below(base, i, i / base, |nodes|);
      if i < capacity {
        assert BlockHolds(nodes[i / base], i / base);
      }
    }

    lemma NextBlock(k: nat)
      requires Linked() && k < |nodes|
      ensures nodes[k].next == BlockAt(k + 1)
    {
      if k + 1 < |nodes| {
        assert nodes[k].next == nodes[k + 1];
      }
    }

    // -------------------------------------------------------------- growing

    /** Blocks are added at the tail, so every block and byte there was stays, and the rest is new. */
    twostate predicate Grew(before: seq<Node>)
      reads `nodes
    {
      && before <= nodes
      && (forall i :: |before| <= i < |nodes| ==> fresh(nodes[i]) && fresh(nodes[i].data))
    }

    /** One more block behind the tail. */
    method AppendBlock(tail: Node)
      requires Linked() && Holds() && tail == nodes[|nodes| - 1]
      modifies this`capacity, this`nodes, this`flat, tail`next
      ensures Linked() && Holds()
      ensures tail.next != null && nodes == old(nodes) + [tail.next] && fresh(tail.next) && fresh(tail.next.data)
      ensures capacity == old(capacity) + base && old(flat) <= flat
    {
      var node := new Node(base);
      tail.next := node;
      nodes := nodes + [node];
      capacity := capacity + base;
      flat := flat + node.data[..];
      forall k | 0 <= k < |nodes| ensures BlockHolds(nodes[k], k) {
        if k < |nodes| - 1 {
          assert old(BlockHolds(nodes[k], k));
        }
      }
    }

    /** The walk to the last block. */
    method Tail() returns (tail: Node)
      requires Linked()
      ensures tail == nodes[|nodes| - 1]
    {
      tail := root;
      ghost var at := 0;
      while tail.next != null
        invariant at < |nodes| && tail == nodes[at]
        decreases |nodes| - at
      {
        NextBlock(at);
        tail := tail.next;
        at := at + 1;
      }
      NextBlock(at);
    }

    /** count new blocks behind the last one; first is the first of them. */
    method AppendBlocks(last: Node, count: nat) returns (first: Node?)
      requires Linked() && Holds() && last == nodes[|nodes| - 1]
      modifies this`capacity, this`nodes, this`flat, last`next
      ensures Linked() && Holds() && Grew(old(nodes)) && old(flat) <= flat
      ensures capacity == old(capacity) + Start(base, count)
      ensures |nodes| == |old(nodes)| + count && first == (if count == 0 then null else nodes[|old(nodes)|])
    {
      first := null;
      var tail := last;
      var i := 0;
      while i < count
        invariant 0 <= i <= count && Linked() && Holds() && tail == nodes[|nodes| - 1]
        invariant tail == last || fresh(tail)
        invariant capacity == old(capacity) + Start(base, i)
        invariant Grew(old(nodes)) && old(flat) <= flat
        invariant |nodes| == |old(nodes)| + i && first == (if i == 0 then null else nodes[|old(nodes)|])
      {
        AppendBlock(tail);
        if first == null {
          first := tail.next;
        }
        tail := tail.next;
        i := i + 1;
      }
    }

    /** Room for `missing` bytes more; a null cursor becomes the first new block. */
    method Grow(missing: nat)
      requires Valid() && missing > 0
      modifies this`capacity, this`nodes, this`flat, this`cur, nodes`next
      ensures Valid() && Grew(old(nodes)) && old(flat) <= flat
      ensures capacity == old(capacity) + Start(base, BlocksFor(base, missing))
    {
      var full := position == capacity;
      Below(base, position, block, |nodes|);
      Below(base, position, block, |nodes| + 1);
      var tail := Tail();
      var first := AppendBlocks(tail, BlocksFor(base, missing));
      if full {
        cur := first;
      }
    }

    /** addCapacity: room for n bytes at the position, with as few new blocks as possible. */
    method AddCapacity(n: nat)
      requires Valid()
      modifies this`capacity, this`nodes, this`flat, this`cur, nodes`next
      ensures Valid() && Grew(old(nodes)) && old(flat) <= flat
      ensures capacity == Grown(base, old(capacity), position, n)
    {
      if n == 0 {
        return;
      }
      var oldCap := capacity - position;
      if oldCap >= n {
        return;
      }
      Grow(n - oldCap);
    }

    // -------------------------------------------------------------- writing

    /** memcpy into the block under the cursor. */
    method PutBlock(ghost k: nat, off: nat, piece: seq<byte>)
      requires Linked() && Holds() && k < |nodes| && cur == nodes[k] && off + |piece| <= base
      modifies cur.data, this`flat
      ensures Linked() && Holds() && Patched(old(flat), flat, Start(base, k) + off, piece)
    {
      assert BlockHolds(nodes[k], k);
      ghost var at := Start(base, k) + off;
      ghost var was := flat;
      flat := Overwrite(was, at, piece);
      assert Patched(was, flat, at, piece);
      cur.Put(off, piece);
      forall j | 0 <= j < |nodes| ensures BlockHolds(nodes[j], j) {
        assert old(BlockHolds(nodes[j], j));
        if j < k {
          StartMono(base, j + 1, k);
        } else if j > k {
          StartMono(base, k + 1, j);
        }
      }
    }

    /** One memcpy of write: n bytes of buf go in, the position follows, and a block that is
        full now hands over to the next one. */
    method PutPiece(npos: nat, buf: seq<byte>, bpos: nat, n: nat, ghost was: seq<byte>, ghost from: nat)
      requires Linked() && Holds() && block < |nodes| && cur == nodes[block]
      requires position == Start(base, block) + npos && npos + n <= base && npos < base
      requires bpos + n <= |buf| && position == from + bpos && Patched(was, flat, from, buf[..bpos])
      modifies this`position, this`cur, this`block, this`flat, Arrays()
      ensures Linked() && Holds() && In(base, position, block) && cur == BlockAt(block)
      ensures position == old(position) + n && Patched(was, flat, from, buf[..bpos + n])
      ensures block == if npos + n == base then old(block) + 1 else old(block)
    {
      PutBlock(block, npos, buf[bpos..bpos + n]);
      PatchedNext(was, old(flat), flat, from, buf, bpos, n);
      Pass(npos, n);
    }

    /** The position moves on, and the cursor with it when its block is full. */
    method Pass(npos: nat, n: nat)
      requires Linked() && block < |nodes| && cur == nodes[block]
      requires position == Start(base, block) + npos && npos + n <= base && npos < base
      modifies this`position, this`cur, this`block
      ensures In(base, position, block) && cur == BlockAt(block) && position == old(position) + n
      ensures block == if npos + n == base then old(block) + 1 else old(block)
    {
      position := position + n;
      if cur.data.Length == npos + n {
        NextBlock(block);
        cur := cur.next;
        block := block + 1;
      }
    }

    /** The place within a block. */
    method Offset(p: nat, ghost k: nat) returns (npos: nat)
      requires In(base, p, k)
      ensures npos == p % base < base && p == Start(base, k) + npos
    {
      InOnly(base, p, k);
      npos := p % base;
    }

    /** How far write has come: bpos bytes are in, the cursor is where the next goes, and ncap
        bytes fit into its block. */
    ghost predicate Pouring(buf: seq<byte>, bpos: nat, left: nat, npos: nat, ncap: nat, was: seq<byte>, from: nat)
      reads this, nodes`next, Arrays()
    {
      && Linked() && Holds() && In(base, position, block) && cur == BlockAt(block)
      && bpos + left == |buf| && position == from + bpos && from + |buf| <= capacity
      && (left > 0 ==> block < |nodes| && position == Start(base, block) + npos && npos + ncap == base && npos < base)
      && Patched(was, flat, from, buf[..bpos])
    }

    /** One round of the loop of write. */
    method PourOnce(buf: seq<byte>, bpos: nat, left: nat, npos: nat, ncap: nat, ghost was: seq<byte>, ghost from: nat)
      returns (bpos': nat, left': nat, npos': nat, ncap': nat)
      requires left > 0 && Pouring(buf, bpos, left, npos, ncap, was, from)
      modifies this`position, this`cur, this`block, this`flat, Arrays()
      ensures Pouring(buf, bpos', left', npos', ncap', was, from) && left' < left
    {
      var n := if ncap >= left then left else ncap;
      PutPiece(npos, buf, bpos, n, was, from);
      Below(base, position, block, |nodes|);
      bpos', left', npos', ncap' := bpos + n, left - n, npos, ncap;
      if left' > 0 {
        ncap' := cur.data.Length;
        npos' := 0;
      }
    }

    /** The copying loop of write, once there is room. */
    method Pour(buf: seq<byte>)
      requires Valid() && |buf| > 0 && position + |buf| <= capacity
      modifies this`position, this`cur, this`block, this`flat, Arrays()
      ensures Linked() && Holds() && In(base, position, block) && cur == BlockAt(block)
      ensures position == old(position) + |buf| && Patched(old(flat), flat, old(position), buf)
    {
      Below(base, position, block, |nodes|);
      var npos := Offset(position, block);
      var ncap: nat := cur.data.Length - npos;
      var bpos: nat, left: nat := 0, |buf|;
      while left > 0
        invariant Pouring(buf, bpos, left, npos, ncap, old(flat), old(position))
      {
        bpos, left, npos, ncap := PourOnce(buf, bpos, left, npos, ncap, old(flat), old(position));
      }
      assert buf[..bpos] == buf;
    }

    /** write: the bytes stored so far are overwritten from the position on, growing as needed. */
    method Write(buf: seq<byte>)
      requires Valid()
      modifies this`position, this`capacity, this`size, this`cur, this`nodes, this`block, this`flat
      modifies nodes`next, Arrays()
      ensures Valid() && Grew(old(nodes))
      ensures position == old(position) + |buf|
      ensures size == if old(size) < position then position else old(size)
      ensures capacity == Grown(base, old(capacity), old(position), |buf|)
      ensures Stored() == Overwrite(old(Stored()), old(position), buf)
    {
      if |buf| == 0 {
        OverwriteNothing(Stored(), position);
      } else {
        WriteSome(buf);
      }
    }

    /** Making room and copying, up to the update of the size. */
    method PourGrowing(buf: seq<byte>)
      requires Valid() && |buf| > 0
      modifies this`position, this`capacity, this`cur, this`nodes, this`block, this`flat
      modifies nodes`next, Arrays()
      ensures Linked() && Holds() && In(base, position, block) && cur == BlockAt(block) && Grew(old(nodes))
      ensures position == old(position) + |buf| <= capacity == Grown(base, old(capacity), old(position), |buf|)
      ensures flat[..if size < position then position else size] == Overwrite(old(Stored()), old(position), buf)
    {
      AddCapacity(|buf|);
      ghost var grown := flat;
      Pour(buf);
      OverwriteStored(old(flat), grown, flat, size, old(position), buf);
    }

    method WriteSome(buf: seq<byte>)
      requires Valid() && |buf| > 0
      modifies this`position, this`capacity, this`size, this`cur, this`nodes, this`block, this`flat
      modifies nodes`next, Arrays()
      ensures Valid() && Grew(old(nodes))
      ensures position == old(position) + |buf|
      ensures size == if old(size) < position then position else old(size)
      ensures capacity == Grown(base, old(capacity), old(position), |buf|)
      ensures Stored() == Overwrite(old(Stored()), old(position), buf)
    {
      PourGrowing(buf);
      ghost var now := flat;
      if position > size {
        size := position;
      }
      assert Stored() == now[..size];
    }

    // -------------------------------------------------------------- reading

    /** The bytes of one block, seen in the flat bytes. */
    lemma BlockSlice(k: nat, off: nat, n: nat, at: nat)
      requires Linked() && Holds() && k < |nodes| && off + n <= base && at == Start(base, k) + off
      ensures at + n <= |flat| && nodes[k].data[off..off + n] == flat[at..at + n]
    {
      assert BlockHolds(nodes[k], k);
    }

    /** One memcpy of read: the n bytes from place `at` on, which lie in the block under the
        cursor; a block read to its end hands over to the next one. */
    method GetPiece(npos: nat, n: nat, ghost at: nat) returns (piece: seq<byte>)
      requires Linked() && Holds() && block < |nodes| && cur == nodes[block]
      requires at == Start(base, block) + npos && npos + n <= base && npos < base
      modifies this`cur, this`block
      ensures at + n <= |flat| && piece == flat[at..at + n]
      ensures In(base, at + n, block) && cur == BlockAt(block)
      ensures block == if npos + n == base then old(block) + 1 else old(block)
    {
      BlockSlice(block, npos, n, at);
      piece := cur.data[npos..npos + n];
      if cur.data.Length == npos + n {
        NextBlock(block);
        cur := cur.next;
        block := block + 1;
      }
    }

    lemma SliceOn(s: seq<byte>, from: nat, mid: nat, end: nat)
      requires from <= mid <= end <= |s|
      ensures s[from..mid] + s[mid..end] == s[from..end]
    {
    }

    /** How far read has come: buf has been read from place `at` on, the cursor is where the next
        byte is, null behind the last block, and the position has drifted once a block has been left. */
    ghost predicate Draining(buf: seq<byte>, left: nat, npos: nat, ncap: nat, p: nat, at: nat, n: nat, drift: nat)
      reads this
    {
      && In(base, at + |buf|, block) && cur == BlockAt(block) && capacity == |flat|
      && left + |buf| == n && at + |buf| <= |flat| && buf == flat[at..at + |buf|]
      && (left > 0 && cur != null ==> at + |buf| == Start(base, block) + npos && npos + ncap == base && npos < base)
      && Drifted(position, |buf|, left, npos, p, drift)
    }

    /** The position after `done` bytes: behind them, and further by the drift once a block has been left. */
    predicate Drifted(position: nat, done: nat, left: nat, npos: nat, p: nat, drift: nat) {
      && position == p + done + (if done == 0 then 0 else drift)
      && (if done == 0 then drift == 0 || drift == npos else left > 0 ==> npos == 0)
    }

    /** Offset and room in the block that is read next. */
    method NextRoom(npos: nat, ncap: nat, n: nat, left: nat) returns (npos': nat, ncap': nat)
      requires Linked() && cur == BlockAt(block) && npos + ncap == base && npos < base
      requires left > 0 ==> n == ncap
      ensures left > 0 ==> npos' == 0 && (cur != null ==> ncap' == base)
    {
      npos', ncap' := npos, ncap;
      if left > 0 {
        if cur != null {
          ncap' := cur.data.Length;
        }
        npos' := 0;
      }
    }

    /** One round of the loop of read; it cannot go on when there is no next block. */
    method DrainOnce(buf: seq<byte>, left: nat, npos: nat, ncap: nat, line607: bool,
                     ghost p: nat, ghost at: nat, ghost n: nat, ghost drift: nat)
      returns (buf': seq<byte>, left': nat, npos': nat, ncap': nat)
      requires Linked() && Holds() && left > 0 && cur != null && Draining(buf, left, npos, ncap, p, at, n, drift)
      requires buf == [] ==> drift == (if line607 && left > ncap then npos else 0)
      modifies this`position, this`cur, this`block
      ensures Draining(buf', left', npos', ncap', p, at, n, drift) && left' < left && buf' != []
    {
      var m := if ncap >= left then left else ncap;
      var piece := GetPiece(npos, m, at + |buf|);
      SliceOn(flat, at, at + |buf|, at + |buf| + m);
      position := position + m;
      buf', left' := buf + piece, left - m;
      assert buf' == flat[at..at + |buf'|] && left' + |buf'| == n;
      assert left' > 0 ==> at + |buf'| == Start(base, block);
      if left' > 0 && line607 {
        position := position + npos;
      }
      npos', ncap' := NextRoom(npos, ncap, m, left');
    }

    /** The rounds of the loop of read; false when it ran off the last block. */
    method DrainAll(n: nat, npos: nat, ncap: nat, line607: bool, ghost p: nat, ghost at: nat, ghost drift: nat)
      returns (ok: bool, buf: seq<byte>)
      requires Linked() && Holds() && cur != null && Draining([], n, npos, ncap, p, at, n, drift)
      requires drift == (if line607 && n > ncap then npos else 0)
      modifies this`position, this`cur, this`block
      ensures In(base, at + |buf|, block) && cur == BlockAt(block) && at + |buf| <= |flat|
      ensures buf == flat[at..at + |buf|] && position == p + |buf| + (if buf == [] then 0 else drift)
      ensures if ok then |buf| == n else |buf| < n && at + |buf| == capacity && block == |nodes| && buf != []
    {
      buf := [];
      var left: nat, off: nat, room: nat := n, npos, ncap;
      while left > 0
        invariant Draining(buf, left, off, room, p, at, n, drift)
        invariant buf == [] ==> cur != null && drift == (if line607 && left > room then off else 0)
      {
        if cur == null {
          OffTheEnd(at + |buf|);
          return false, buf;
        }
        buf, left, off, room := DrainOnce(buf, left, off, room, line607, p, at, n, drift);
      }
      ok := true;
    }

    /** The copying loop of read; line607 keeps the extra step of the position that the source
        takes after each block it leaves, without it the position follows the bytes. */
    method Drain(n: nat, line607: bool) returns (r: Outcome<seq<byte>>)
      requires Wired() && cur != null && n <= Remaining(size, position)
      modifies this`position, this`cur, this`block
      ensures Wired() && Reading(r, Here()) == Fetch(StoreOf(line607), old(Here()), n)
    {
      ghost var st, c := StoreOf(line607), Here();
      PlaceInside(st, c);
      ghost var at := Place(st, c);
      var npos: nat := position % base;
      var ok, buf := DrainAll(n, npos, cur.data.Length - npos, line607, c.p, at, Skip(st, c.p, n));
      InOnly(base, at + |buf|, block);
      r := if ok then Done(buf) else NullCursor;
    }

    /** With a null cursor behind the last block everything there is has been read. */
    lemma OffTheEnd(end: nat)
      requires Linked() && In(base, end, block) && end <= capacity && BlockAt(block) == null
      ensures end == capacity && block == |nodes|
    {
      Below(base, end, block, |nodes|);
      Below(base, end, block, |nodes| + 1);
    }

    /** read, from any position and any cursor. */
    method Read(n: nat, line607: bool) returns (r: Outcome<seq<byte>>)
      requires Wired()
      modifies this`position, this`cur, this`block
      ensures Wired() && Reading(r, Here()) == Fetch(StoreOf(line607), old(Here()), n)
    {
      if n > Remaining(size, position) {
        return OutOfRange;
      }
      if cur == null {
        return NullCursor;
      }
      r := Drain(n, line607);
    }

    /** In a valid array the cursor is on the block of its position, and conversely. */
    lemma ValidIsAligned()
      requires Wired()
      ensures Valid() <==> position <= size && Here() == CursorAt(base, position)
    {
      Divide(base, position);
      if Valid() { InOnly(base, position, block); }
    }

    /** The const read. It starts in the block of the cursor, whatever block p is in, so what it
        returns is what stands at SeenAt. */
    method ReadAt(n: nat, p: nat) returns (r: Outcome<seq<byte>>)
      requires Valid()
      ensures r.OutOfRange? <==> n > (size - p) % TWO_64
      ensures r.NullCursor? <==>
                n <= (size - p) % TWO_64 && (position == capacity || SeenAt(base, position, p) + n > capacity)
      ensures r.Done? ==> r.value == flat[SeenAt(base, position, p)..SeenAt(base, position, p) + n]
    {
      if n > (size - p) % TWO_64 {
        return OutOfRange;
      }
      Below(base, position, block, |nodes|);
      InOnly(base, position, block);
      if cur == null {
        return NullCursor;
      }
      r := Follow(block, cur, p % base, n);
    }

    /** How far the const read has come: buf stands from place `from` on, and the next byte is at
        offset npos of block `at`, which is null behind the last block. */
    ghost predicate Following(buf: seq<byte>, left: nat, node: Node?, at: nat, npos: nat, ncap: nat, from: nat, n: nat)
      reads `nodes, `capacity, `flat
    {
      && left + |buf| == n && from + |buf| <= capacity == |flat| && buf == flat[from..from + |buf|]
      && (left > 0 ==>
            && node == BlockAt(at) && from + |buf| == Start(base, at) + npos && npos < base
            && (node == null ==> from + |buf| == capacity)
            && (node != null ==> npos + ncap == base))
    }

    /** One round of the loop of the const read. */
    method FollowOnce(buf: seq<byte>, left: nat, node: Node, npos: nat, ncap: nat, ghost at: nat, ghost from: nat, ghost n: nat)
      returns (buf': seq<byte>, left': nat, node': Node?, npos': nat, ncap': nat)
      requires Linked() && Holds() && left > 0 && Following(buf, left, node, at, npos, ncap, from, n)
      ensures left' < left && (Following(buf', left', node', at + 1, npos', ncap', from, n))
    {
      var m: nat := if left <= ncap then left else ncap;
      BlockSlice(at, npos, m, from + |buf|);
      SliceOn(flat, from, from + |buf|, from + |buf| + m);
      buf', left', node', npos', ncap' := buf + node.data[npos..npos + m], left - m, node, npos, ncap;
      if left' > 0 {
        NextBlock(at);
        Below(base, Start(base, at + 1), at + 1, |nodes|);
        node' := node.next;
        npos' := 0;
        if node' != null {
          ncap' := node'.data.Length;
        }
      }
    }

    /** The loop of the const read, from offset off of block k on. */
    method Follow(ghost k: nat, first: Node, off: nat, n: nat) returns (r: Outcome<seq<byte>>)
      requires Linked() && Holds() && k < |nodes| && first == nodes[k] && off < base
      ensures r == if Start(base, k) + off + n <= capacity
                   then Done(flat[Start(base, k) + off..Start(base, k) + off + n]) else NullCursor
    {
      var node: Node? := first;
      ghost var at: nat, from := k, Start(base, k) + off;
      var npos: nat, ncap: nat, left: nat := off, node.data.Length - off, n;
      var buf := [];
      StartMono(base, k + 1, |nodes|);
      while left > 0
        invariant Following(buf, left, node, at, npos, ncap, from, n)
      {
        if node == null {
          return NullCursor;
        }
        buf, left, node, npos, ncap := FollowOnce(buf, left, node, npos, ncap, at, from, n);
        at := at + 1;
      }
      r := Done(buf);
    }

    /** toString: everything stored from the position on. */
    method ToString() returns (str: seq<byte>)
      requires Valid() && size < TWO_64
      ensures str == Stored()[position..]
    {
      if size - position == 0 {
        return [];
      }
      Divide(base, position);
      var r := ReadAt(size - position, position);
      str := r.value;
    }

    // -------------------------------------------------------------- moving

    /** The walk of setPosition from the root to the block of place v. */
    method Seek(v: nat)
      requires Linked() && v <= capacity
      modifies this`cur, this`block
      ensures In(base, v, block) && cur == BlockAt(block)
    {
      cur := root;
      block := 0;
      var rest := v;
      while rest > cur.data.Length
        invariant block < |nodes| && cur == nodes[block]
        invariant 0 <= rest && v == Start(base, block) + rest
      {
        NextBlock(block);
        Below(base, Start(base, block + 1), block + 1, |nodes|);
        rest := rest - cur.data.Length;
        cur := cur.next;
        block := block + 1;
      }
      if rest == cur.data.Length {
        NextBlock(block);
        cur := cur.next;
        block := block + 1;
      }
    }

    /** setPosition: any place up to the capacity; bytes skipped over count as stored. */
    method SetPosition(v: nat) returns (ok: bool)
      requires Valid()
      modifies this`position, this`size, this`cur, this`block
      ensures Valid() && ok == (v <= capacity)
      ensures position == if ok then v else old(position)
      ensures size == if ok && v > old(size) then v else old(size)
    {
      if v > capacity {
        return false;
      }
      position := v;
      if position > size {
        size := position;
      }
      Seek(v);
      ok := true;
    }

    /** The walk of clear over the blocks behind the root. */
    method ForgetBlocks()
      requires Linked()
      modifies this`cur
      ensures Linked()
    {
      var tmp := root.next;
      ghost var at := 0;
      NextBlock(0);
      while tmp != null
        invariant Linked() && at < |nodes| && tmp == BlockAt(at + 1)
        decreases |nodes| - at
      {
        NextBlock(at + 1);
        cur := tmp;
        tmp := tmp.next;
        at := at + 1;
      }
    }

    /** clear: back to one block and nothing stored. */
    method Clear()
      requires Valid()
      modifies this`position, this`size, this`capacity, this`cur, this`nodes, this`block, this`flat, root`next
      ensures Valid() && nodes == [root] && position == size == 0 && capacity == base
    {
      position, size := 0, 0;
      ForgetBlocks();
      cur := root;
      assert BlockHolds(nodes[0], 0);
      root.next := null;
      capacity := base;
      nodes, block, flat := [root], 0, flat[..base];
      assert BlockHolds(root, 0);
    }
  }

  /** The const read is right exactly for positions in the block of the cursor. */
  lemma ConstReadRightInItsBlock(base: nat, at: nat, p: nat)
    requires base > 0
    ensures SeenAt(base, at, p) == p <==> p / base == at / base
  {
    Divide(base, p);
    if SeenAt(base, at, p) == p {
      assert Start(base, at / base) == Start(base, p / base);
      if at / base < p / base {
        StartMono(base, at / base + 1, p / base);
      } else if p / base < at / base {
        StartMono(base, p / base + 1, at / base);
      }
    }
  }

  /** Line 607 keeps the documented position exactly when the read starts on a block boundary or
      ends within its first block. */
  lemma DriftExactly(base: nat, p: nat, n: nat)
    requires base > 0
    ensures Drift(base, p, n) == 0 <==> p % base == 0 || p % base + n <= base
  {
  }
}
