// Receiving a request: the buffer loop of HttpSession::recvRequest over short reads, and the
// assembly of the body.

module HttpSessions {
  import opened Base
  import opened HttpHeaders

  const FINAL := 348

  // ---------------------------------------------------------------- the parser's control

  /** Where a run of the request parser ends: its state, and how many bytes it took. */
  datatype Progress = Progress(cs: nat, taken: nat)

  /** The control of http_parser_execute for any transition table: 0 is the error state, which
      does not take the byte, and a final state takes its byte and stops. */
  function Parse(delta: (nat, byte) -> nat, cs: nat, s: seq<byte>): (r: Progress)
    ensures r.taken <= |s|
    decreases s
  {
    if s == [] then Progress(cs, 0)
    else
      var next := delta(cs, s[0]);
      if next == 0 then Progress(0, 0)
      else if next >= FINAL then Progress(next, 1)
      else var r := Parse(delta, next, s[1..]); Progress(r.cs, r.taken + 1)
  }

  predicate Unfinished(cs: nat) { 0 < cs < FINAL }

  /** A run that ends neither in an error nor in a final state has taken everything. */
  lemma {:induction false} UnfinishedTakesAll(delta: (nat, byte) -> nat, cs: nat, s: seq<byte>)
    requires Unfinished(Parse(delta, cs, s).cs)
    ensures Parse(delta, cs, s).taken == |s|
    decreases s
  {
    if s != [] {
      UnfinishedTakesAll(delta, delta(cs, s[0]), s[1..]);
    }
  }

  /** Splitting the input between two calls changes nothing. */
  lemma {:induction false} ParseSplit(delta: (nat, byte) -> nat, cs: nat, x: seq<byte>, y: seq<byte>)
    requires Unfinished(cs)
    ensures var first := Parse(delta, cs, x);
            Parse(delta, cs, x + y) ==
              if Unfinished(first.cs) then
                var rest := Parse(delta, first.cs, y); Progress(rest.cs, |x| + rest.taken)
              else first
    decreases x
  {
    if x == [] {
      assert x + y == y;
    } else {
      assert (x + y)[1..] == x[1..] + y;
      var next := delta(cs, x[0]);
      if Unfinished(next) {
        ParseSplit(delta, next, x[1..], y);
      }
    }
  }

  // ---------------------------------------------------------------- the peer

  /** What a socket will deliver: the bytes still to come, and what each next read returns at
      most; a negative entry is an error, 0 a peer that has closed. */
  class Peer {
    var incoming: seq<byte>
    var script: seq<int>

    constructor (incoming: seq<byte>, script: seq<int>)
      ensures this.incoming == incoming && this.script == script
    {
      this.incoming, this.script := incoming, script;
    }

    /** read: a short read of at most max bytes into the buffer at `at`. */
    method Read(buf: array<byte>, at: nat, max: nat) returns (len: int)
      requires script != [] && at + max <= buf.Length
      modifies this, buf
      ensures script == old(script)[1..]
      ensures len < 0 <==> old(script)[0] < 0
      ensures len < 0 ==> incoming == old(incoming) && unchanged(buf)
      ensures len >= 0 ==> len <= max && len <= |old(incoming)| && incoming == old(incoming)[len..]
      ensures len >= 0 ==> forall i :: 0 <= i < buf.Length ==>
                             buf[i] == if at <= i < at + len then old(incoming)[i - at] else old(buf[i])
      ensures len == 0 && max > 0 ==> old(script)[0] == 0 || old(incoming) == []
    {
      var k := script[0];
      script := script[1..];
      if k < 0 {
        return k;
      }
      len := if k <= max then k else max;
      len := if len <= |incoming| then len else |incoming|;
      forall i | 0 <= i < len {
        buf[at + i] := incoming[i];
      }
      incoming := incoming[len..];
    }
  }

  /** What readFixSize did: all of it, a read that returned nothing or an error, or still
      waiting when the script ends. */
  datatype Fixed = Complete | Broken(code: int) | Waiting

  predicate AllPositive(script: seq<int>) { forall i :: 0 <= i < |script| ==> script[i] > 0 }

  /** Stream::readFixSize over a raw buffer: reads until length bytes have come, however short
      the single reads are; got of them have. */
  method ReadFixSize(peer: Peer, buf: array<byte>, at: nat, length: nat) returns (r: Fixed, ghost got: nat)
    requires at + length <= buf.Length
    modifies peer, buf
    ensures got <= length && got <= |old(peer.incoming)| && peer.incoming == old(peer.incoming)[got..]
    ensures forall i :: 0 <= i < buf.Length ==>
              buf[i] == if at <= i < at + got then old(peer.incoming)[i - at] else old(buf[i])
    ensures r == Complete <==> got == length
    ensures r.Broken? ==> r.code <= 0 && (old(!AllPositive(peer.script)) || |old(peer.incoming)| < length)
    ensures r.Waiting? ==> peer.script == []
  {
    got := 0;
    var offset: nat := 0;
    var left := length;
    while left > 0
      invariant left >= 0 && offset + left == length && offset <= |old(peer.incoming)| && got == offset
      invariant peer.incoming == old(peer.incoming)[offset..]
      invariant forall i :: 0 <= i < buf.Length ==>
                  buf[i] == if at <= i < at + offset then old(peer.incoming)[i - at] else old(buf[i])
      invariant old(AllPositive(peer.script)) ==> AllPositive(peer.script)
      decreases |peer.script|
    {
      if peer.script == [] {
        return Waiting, got;
      }
      var len := peer.Read(buf, at + offset, left);
      if len <= 0 {
        return Broken(len), got;
      }
      left := left - len;
      offset := offset + len;
      got := offset;
    }
    r := Complete;
  }

  // ---------------------------------------------------------------- recvRequest

  datatype Outcome = Closed | Pending | Request(body: Option<seq<byte>>)

  /** uint64_t to int. */
  function ToInt(n: nat): int {
    var r := n % TWO_32; if r < TWO_32 / 2 then r else r - TWO_32
  }

  /** Positive exactly when the low 32 bits are neither 0 nor have the top bit set. */
  lemma ToIntIs(n: nat)
    ensures var low := n % 0x1_0000_0000; ToInt(n) == if low < 0x8000_0000 then low else low - 0x1_0000_0000
    ensures n < 0x1_0000_0000 ==> n % 0x1_0000_0000 == n
  {
  }

  /** HttpRequestParser::execute: run the parser, then move what it did not take to the front. */
  method Execute(delta: (nat, byte) -> nat, cs: nat, data: array<byte>, len: nat) returns (next: nat, n: nat)
    requires Unfinished(cs) && len <= data.Length
    modifies data
    ensures Progress(next, n) == Parse(delta, cs, old(data[..len]))
    ensures data[..len - n] == old(data[n..len])
  {
    next, n := cs, 0;
    ghost var goal := Parse(delta, cs, data[..len]);
    assert data[..len] == data[0..len];
    while n < len
      invariant n <= len && Unfinished(next) && data[..] == old(data[..])
      invariant goal == (var r := Parse(delta, next, data[n..len]); Progress(r.cs, n + r.taken))
    {
      assert data[n..len][1..] == data[n + 1..len];
      var to := delta(next, data[n]);
      if to == 0 {
        next := 0;
        break;
      }
      next, n := to, n + 1;
      if to >= FINAL {
        break;
      }
    }
    MoveToFront(data, n, len);
  }

  /** memmove of the bytes from n to len. */
  method MoveToFront(data: array<byte>, n: nat, len: nat)
    requires n <= len <= data.Length
    modifies data
    ensures data[..len - n] == old(data[n..len])
  {
    forall i | 0 <= i < len - n {
      data[i] := data[n + i];
    }
  }

  predicate Finished(p: Progress) { p.cs >= FINAL }

  /** What the loop over the header found: the state, what is left in the buffer, and how much of
      the stream has been read. */
  datatype HeaderResult = Failed | Short | Done(cs: nat, offset: nat)

  /** One round of the header loop: a read behind what is left in the buffer, then the parser. */
  method ParseRound(peer: Peer, delta: (nat, byte) -> nat, cs: nat, complains: (nat, seq<byte>) -> bool,
                    data: array<byte>, offset: nat) returns (len: int, next: nat, left: nat, complained: bool)
    requires peer.script != [] && Unfinished(cs) && offset <= data.Length
    modifies peer, data
    ensures peer.script == old(peer.script)[1..] && (len < 0 <==> old(peer.script)[0] < 0)
    ensures len < 0 ==> peer.incoming == old(peer.incoming)
    ensures len >= 0 ==>
              && len <= |old(peer.incoming)| && peer.incoming == old(peer.incoming)[len..] && left <= offset + len <= data.Length
              && var bytes := old(data[..offset]) + old(peer.incoming)[..len];
              && Progress(next, offset + len - left) == Parse(delta, cs, bytes)
              && data[..left] == bytes[offset + len - left..] && complained == complains(cs, bytes)
  {
    next, left, complained := 0, 0, false;
    len := peer.Read(data, offset, data.Length - offset);
    if len >= 0 {
      var bytes := data[..offset + len];
      assert bytes == old(data[..offset]) + old(peer.incoming)[..len];
      var taken;
      next, taken := Execute(delta, cs, data, offset + len);
      complained := complains(cs, bytes);
      left := offset + len - taken;
    }
  }

  /** The header loop of recvRequest. Its buffer is free again before every read, whatever the
      header's length, and its buffer-full test never fires. */
  method RecvHeader(peer: Peer, delta: (nat, byte) -> nat, start: nat,
                    complains: (nat, seq<byte>) -> bool, data: array<byte>)
    returns (r: HeaderResult, ghost got: nat, ghost complained: bool)
    requires Unfinished(start) && 0 < data.Length < TWO_32 / 2
    modifies peer, data
    ensures got <= |old(peer.incoming)| && peer.incoming == old(peer.incoming)[got..]
    ensures old(AllPositive(peer.script)) ==> AllPositive(peer.script)
    ensures r.Done? ==> var p := Parse(delta, start, old(peer.incoming));
              Finished(p) && p.cs == r.cs && p.taken + r.offset == got
              && r.offset <= data.Length && data[..r.offset] == old(peer.incoming)[p.taken..got]
    ensures r.Failed? ==> complained || old(!AllPositive(peer.script)) || Parse(delta, start, old(peer.incoming)).cs == 0
    ensures r.Short? ==> peer.script == []
  {
    ghost var all := peer.incoming;
    got, complained := 0, false;
    var cs: nat := start;
    var offset := 0;
    assert all[..0] == [];
    while true
      invariant offset == 0 && Unfinished(cs)
      invariant got <= |all| && peer.incoming == all[got..]
      invariant Parse(delta, start, all[..got]) == Progress(cs, got)
      invariant old(AllPositive(peer.script)) ==> AllPositive(peer.script)
      decreases |peer.script|
    {
      if peer.script == [] {
        return Short, got, complained;
      }
      var len, next, left, bad := ParseRound(peer, delta, cs, complains, data, offset);
      if len < 0 {
        return Failed, got, complained;
      }
      ghost var chunk := all[got..got + len];
      NextChunk(all, got, len, left);
      OneRound(delta, start, all, got, len, cs);
      got := got + len;
      complained := bad;
      if bad || next == 0 {
        return Failed, got, complained;
      }
      offset := left;
      if offset == data.Length {
        assert false;
      }
      if next >= FINAL {
        return Done(next, offset), got, complained;
      }
      cs := next;
    }
  }

  /** The bytes of one read, and what the parser leaves of them. */
  lemma NextChunk(all: seq<byte>, got: nat, len: nat, left: int)
    requires got + len <= |all|
    ensures [] + all[got..][..len] == all[got..got + len] && all[got..][len..] == all[got + len..]
    ensures 0 <= left <= len ==> all[got..got + len][len - left..] == all[got + len - left..got + len]
  {
  }

  /** What one more round of reading and parsing means for the stream as a whole. */
  lemma OneRound(delta: (nat, byte) -> nat, start: nat, all: seq<byte>, got: nat, len: nat, cs: nat)
    requires Unfinished(start) && Unfinished(cs) && got + len <= |all|
    requires Parse(delta, start, all[..got]) == Progress(cs, got)
    ensures var p := Parse(delta, cs, all[got..got + len]);
            && (p.cs == 0 ==> Parse(delta, start, all).cs == 0)
            && (Unfinished(p.cs) ==> p.taken == len && Parse(delta, start, all[..got + len]) == Progress(p.cs, got + len))
            && (Finished(p) ==> Parse(delta, start, all) == Progress(p.cs, got + p.taken) && p.taken > 0)
  {
    var chunk := all[got..got + len];
    assert all[..got + len] == all[..got] + chunk;
    ParseSplit(delta, start, all[..got], chunk);
    WholeStream(delta, start, all, got + len);
    if Parse(delta, cs, chunk).cs != 0 {
      LeftoverFits(delta, cs, chunk);
    }
  }

  /** What a run without error leaves is never the whole of a non-empty buffer. */
  lemma LeftoverFits(delta: (nat, byte) -> nat, cs: nat, s: seq<byte>)
    requires Unfinished(cs) && Parse(delta, cs, s).cs != 0
    ensures s != [] ==> Parse(delta, cs, s).taken > 0
    ensures Unfinished(Parse(delta, cs, s).cs) ==> Parse(delta, cs, s).taken == |s|
  {
    if Unfinished(Parse(delta, cs, s).cs) {
      UnfinishedTakesAll(delta, cs, s);
    }
  }

  /** A run that has ended on a part of the stream ends the same way on all of it. */
  lemma WholeStream(delta: (nat, byte) -> nat, start: nat, all: seq<byte>, got: nat)
    requires Unfinished(start) && got <= |all|
    ensures !Unfinished(Parse(delta, start, all[..got]).cs) ==>
              Parse(delta, start, all) == Parse(delta, start, all[..got])
  {
    assert all == all[..got] + all[got..];
    ParseSplit(delta, start, all[..got], all[got..]);
  }

  /** The body half of recvRequest: what is left in the buffer first, the rest from the peer. */
  method RecvBody(peer: Peer, data: array<byte>, offset: nat, n: nat) returns (r: Outcome)
    requires offset <= data.Length && n > 0
    modifies peer
    ensures var stream := old(data[..offset] + peer.incoming);
            && (r.Request? ==> n <= |stream| && r.body == Some(stream[..n])
                               && peer.incoming == stream[if n < offset then offset else n..])
            && (r.Closed? ==> old(!AllPositive(peer.script)) || |stream| < n)
            && (r.Pending? ==> peer.script == [])
  {
    var body := new byte[n];
    var len: nat := 0;
    ghost var stream := data[..offset] + peer.incoming;
    if n >= offset {
      forall i | 0 <= i < offset {
        body[i] := data[i];
      }
      len := offset;
    } else {
      forall i | 0 <= i < n {
        body[i] := data[i];
      }
    }
    var left := n - offset;
    if left > 0 {
      assert body[..len] == data[..offset];
      var fixed, got := ReadFixSize(peer, body, len, left);
      match fixed {
        case Complete =>
          assert body[..] == stream[..n] && peer.incoming == stream[n..];
        case Broken(_) => return Closed;
        case Waiting => return Pending;
      }
    } else {
      assert body[..] == stream[..n] && peer.incoming == stream[offset..];
    }
    r := Request(Some(body[..]));
  }

  /** recvRequest, for the content length that the parser has arrived at. However the bytes are split
      over the reads, the header ends where one run over the stream ends, and with a content length
      0 < n < 2^31 the body is exactly the n bytes behind it; bytes of the last read of the header that lie
      behind the request are dropped. The connection is closed only for a reason: a failed or empty read, a
      parse error, or a stream that is too short. The content length itself comes from the fields, and
      those do depend on the split (HttpSplits.SplitExactly). */
  method RecvRequest(peer: Peer, delta: (nat, byte) -> nat, start: nat, complains: (nat, seq<byte>) -> bool,
                     size: nat, contentLength: nat) returns (r: Outcome, ghost got: nat, ghost complained: bool)
    requires Unfinished(start) && 0 < size < TWO_32 / 2
    modifies peer
    ensures r.Request? && 0 < contentLength < 0x8000_0000 ==>
              var all, p := old(peer.incoming), Parse(delta, start, old(peer.incoming));
              p.taken + contentLength <= |all| && r.body == Some(all[p.taken..p.taken + contentLength])
    ensures r.Request? ==> var all, p := old(peer.incoming), Parse(delta, start, old(peer.incoming));
              var low := contentLength % 0x1_0000_0000;
              var n := if low < 0x8000_0000 then low else 0;
              && Finished(p) && p.taken + n <= |all| && p.taken <= got <= |all|
              && r.body == (if n > 0 then Some(all[p.taken..p.taken + n]) else None)
              && peer.incoming == all[if p.taken + n < got then got else p.taken + n..]
    ensures r.Closed? ==> var all, p := old(peer.incoming), Parse(delta, start, old(peer.incoming));
              || complained || old(!AllPositive(peer.script)) || p.cs == 0
              || (var low := contentLength % 0x1_0000_0000; Finished(p) && 0 < low < 0x8000_0000 && |all| < p.taken + low)
    ensures r.Pending? ==> peer.script == []
  {
    var data := new byte[size];
    ghost var all := peer.incoming;
    var header;
    header, got, complained := RecvHeader(peer, delta, start, complains, data);
    match header {
      case Failed => r := Closed;
      case Short => r := Pending;
      case Done(cs, offset) =>
        ghost var end := Parse(delta, start, all).taken;
        assert data[..offset] + all[got..] == all[end..];
        ToIntIs(contentLength);
        var length := ToInt(contentLength);
        if length > 0 {
          r := RecvBody(peer, data, offset, length);
          assert r.Request? ==> all[end..][..length] == all[end..end + length];
        } else {
          r := Request(None);
        }
    }
  }

  // ---------------------------------------------------------------- the length of the body

  const CONTENT_LENGTH: seq<byte> := [99, 111, 110, 116, 101, 110, 116, 45, 108, 101, 110, 103, 116, 104]

  /** getContentLength: the content-length header as a number, however it is read, or 0. */
  function LengthOf(h: seq<Field>, read: seq<byte> -> nat): nat {
    match Get(h, CONTENT_LENGTH) case None => 0 case Some(v) => read(v)
  }

  lemma ContentLengthWord()
    ensures CONTENT_LENGTH == Ascii("content-length")
  {
  }

  /** dump announces a body under another name: whatever body is sent, the length that the receiver
      takes is the one the sender's own map has, and with no content-length header there it is 0, so that the
      request arrives without its body. */
  lemma DumpedLength(h: seq<Field>, websocket: bool, closing: bool, body: seq<byte>, read: seq<byte> -> nat)
    requires Sorted(h)
    ensures LengthOf(Rebuild([], Listed(h, websocket, closing, body)), read) == LengthOf(h, read)
    ensures Get(h, CONTENT_LENGTH) == None ==> LengthOf(Rebuild([], Listed(h, websocket, closing, body)), read) == 0
  {
    var name, length, connection := CONTENT_LENGTH, CONNECT_LENGTH, CONNECTION;
    WordsDiffer(name, length, connection);
    FourthDiffers(name, length);
    FourthDiffers(name, connection);
    NotAdded(h, websocket, closing, body, name);
    LengthIs(h, read, Get(h, name));
    LengthIs(Rebuild([], Listed(h, websocket, closing, body)), read, Get(h, name));
  }

  /** No NUL in the first four letters, and the fourth ones are not the same. */
  predicate Fourth(a: seq<byte>, b: seq<byte>) {
    && |a| > 3 && |b| > 3 && a[0] != 0 && a[1] != 0 && a[2] != 0 && a[3] != 0
    && b[0] != 0 && b[1] != 0 && b[2] != 0 && b[3] != 0 && Lower(a[3]) != Lower(b[3])
  }

  lemma WordsDiffer(a: seq<byte>, b: seq<byte>, c: seq<byte>)
    requires a == CONTENT_LENGTH && b == CONNECT_LENGTH && c == CONNECTION
    ensures Fourth(a, b) && Fourth(a, c)
  {
  }

  /** Without the header the length is 0. */
  lemma LengthIs(h: seq<Field>, read: seq<byte> -> nat, v: Option<seq<byte>>)
    requires v == Get(h, CONTENT_LENGTH)
    ensures LengthOf(h, read) == if v == None then 0 else read(v.value)
  {
  }

  lemma NotAdded(h: seq<Field>, websocket: bool, closing: bool, body: seq<byte>, name: seq<byte>)
    requires Sorted(h) && !SameName(name, CONNECT_LENGTH) && !SameName(name, CONNECTION)
    ensures Get(Rebuild([], Listed(h, websocket, closing, body)), name) == Get(h, name)
  {
    RebuiltMap(h, websocket, closing, body, name);
  }

  lemma {:induction false} FoldAt(s: seq<byte>, i: nat)
    requires i < |s| && forall j :: 0 <= j <= i ==> s[j] != 0
    ensures |Fold(s)| > i && Fold(s)[i] == Lower(s[i])
  {
    if i > 0 {
      FoldAt(s[1..], i - 1);
    }
  }

  /** Two names that differ in their fourth letter are not the same up to case. */
  lemma FourthDiffers(a: seq<byte>, b: seq<byte>)
    requires Fourth(a, b)
    ensures !SameName(a, b)
  {
    FoldAt(a, 3);
    FoldAt(b, 3);
  }

  // ---------------------------------------------------------------- writing

  /** Stream::writeFixSize: the peer takes the bytes in pieces; sent is what it has taken. */
  method WriteFixSize(buffer: seq<byte>, script: seq<int>) returns (r: Fixed, sent: seq<byte>)
    ensures sent <= buffer && (r == Complete <==> sent == buffer)
    ensures r.Broken? ==> r.code <= 0 && !AllPositive(script)
    ensures AllPositive(script) && |script| >= |buffer| ==> r == Complete
  {
    sent := [];
    var offset: nat := 0;
    var left := |buffer|;
    var round := 0;
    while left > 0
      invariant 0 <= left && offset + left == |buffer| && sent == buffer[..offset]
      invariant 0 <= round <= |script| && (AllPositive(script) ==> offset >= round)
      decreases |script| - round
    {
      if round == |script| {
        return Waiting, sent;
      }
      var len := if script[round] <= left then script[round] else left;
      round := round + 1;
      if len <= 0 {
        return Broken(len), sent;
      }
      sent := sent + buffer[offset..offset + len];
      offset := offset + len;
      left := left - len;
    }
    assert sent == buffer;
    r := Complete;
  }
}
