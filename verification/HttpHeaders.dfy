// The header map of a request and the text HttpRequest::dump prints for it.

module HttpHeaders {
  import opened Base

  datatype Field = Field(name: seq<byte>, value: seq<byte>)

  /** The ASCII bytes of "connection", "connect-length", "close" and "keep-alive". */
  const CONNECTION: seq<byte> := [99, 111, 110, 110, 101, 99, 116, 105, 111, 110]
  const CONNECT_LENGTH: seq<byte> := [99, 111, 110, 110, 101, 99, 116, 45, 108, 101, 110, 103, 116, 104]
  const CLOSE: seq<byte> := [99, 108, 111, 115, 101]
  const KEEP_ALIVE: seq<byte> := [107, 101, 101, 112, 45, 97, 108, 105, 118, 101]

  /** The bytes of a text of ASCII characters. */
  function Ascii(s: string): (r: seq<byte>)
    ensures |r| == |s| && forall i :: 0 <= i < |s| ==> r[i] == s[i] as int % 128
  {
    seq(|s|, i requires 0 <= i < |s| => s[i] as int % 128)
  }

  lemma Words()
    ensures CONNECTION == Ascii("connection") && CONNECT_LENGTH == Ascii("connect-length")
    ensures CLOSE == Ascii("close") && KEEP_ALIVE == Ascii("keep-alive") && CRLF == Ascii("\r\n")
  {
  }

  // ---------------------------------------------------------------- the order of names

  function Lower(c: byte): byte { if 65 <= c <= 90 then c + 32 else c }

  /** What strcasecmp compares: the lower-cased bytes up to the first NUL. */
  function Fold(s: seq<byte>): seq<byte> {
    if s == [] || s[0] == 0 then [] else [Lower(s[0])] + Fold(s[1..])
  }

  predicate Precedes(a: seq<byte>, b: seq<byte>) {
    if b == [] then false
    else if a == [] then true
    else if a[0] != b[0] then a[0] < b[0]
    else Precedes(a[1..], b[1..])
  }

  /** CaseInsensitiveLess. */
  predicate Less(lhs: seq<byte>, rhs: seq<byte>) { Precedes(Fold(lhs), Fold(rhs)) }

  predicate SameName(a: seq<byte>, b: seq<byte>) { Fold(a) == Fold(b) }

  /** Two bytes are the same letter, or the same byte. */
  predicate SameLetter(a: byte, b: byte) {
    a == b || (65 <= a <= 90 && b == a + 32) || (65 <= b <= 90 && a == b + 32)
  }

  /** Names without a NUL are the same exactly when they are equal but for the case of letters. */
  lemma {:induction false} SameNameExactly(a: seq<byte>, b: seq<byte>)
    requires (forall i :: 0 <= i < |a| ==> a[i] != 0) && (forall i :: 0 <= i < |b| ==> b[i] != 0)
    ensures SameName(a, b) <==> |a| == |b| && forall i :: 0 <= i < |a| ==> SameLetter(a[i], b[i])
  {
    if a != [] && b != [] {
      SameNameExactly(a[1..], b[1..]);
      assert a == [a[0]] + a[1..] && b == [b[0]] + b[1..];
      assert Fold(a)[0] == Lower(a[0]) && Fold(a)[1..] == Fold(a[1..]);
      assert Fold(b)[0] == Lower(b[0]) && Fold(b)[1..] == Fold(b[1..]);
      assert Lower(a[0]) == Lower(b[0]) <==> SameLetter(a[0], b[0]);
      assert SameName(a, b) <==> Lower(a[0]) == Lower(b[0]) && SameName(a[1..], b[1..]) by {
        assert Fold(a) == [Lower(a[0])] + Fold(a[1..]) && Fold(b) == [Lower(b[0])] + Fold(b[1..]);
      }
    }
  }

  /** a comes first: at the first place where they differ it has ended or has the smaller byte. */
  predicate FirstAt(a: seq<byte>, b: seq<byte>, i: nat) {
    i <= |a| && i < |b| && a[..i] == b[..i] && (i == |a| || a[i] < b[i])
  }

  /** The order of bytes that strcasecmp goes by is the lexicographic one. */
  lemma {:induction false} PrecedesExactly(a: seq<byte>, b: seq<byte>)
    ensures Precedes(a, b) <==> exists i: nat :: FirstAt(a, b, i)
  {
    if a == [] && b != [] {
      assert FirstAt(a, b, 0);
    } else if a != [] && b != [] {
      PrecedesExactly(a[1..], b[1..]);
      if a[0] != b[0] {
        assert a[0] < b[0] ==> FirstAt(a, b, 0);
        NotLater(a, b);
      } else {
        FirstOfRest(a, b);
      }
    }
  }

  /** CaseInsensitiveLess is that order on what strcasecmp compares: lower-cased bytes up to a NUL. */
  lemma LessExactly(a: seq<byte>, b: seq<byte>, x: seq<byte>, y: seq<byte>)
    requires x == Fold(a) && y == Fold(b)
    ensures Less(a, b) <==> exists i: nat :: FirstAt(x, y, i)
  {
    PrecedesExactly(x, y);
  }

  lemma {:induction false} FoldToNul(a: seq<byte>, rest: seq<byte>)
    requires forall i :: 0 <= i < |a| ==> a[i] != 0
    ensures Fold(a + [0] + rest) == Fold(a) && |Fold(a)| == |a|
  {
    if a == [] {
      assert (a + [0] + rest)[0] == 0;
    } else {
      assert (a + [0] + rest)[0] == a[0] && (a + [0] + rest)[1..] == a[1..] + [0] + rest;
      FoldToNul(a[1..], rest);
    }
  }

  lemma NotLater(a: seq<byte>, b: seq<byte>)
    requires a != [] && b != [] && a[0] != b[0]
    ensures forall i: nat :: FirstAt(a, b, i) ==> i == 0
  {
    forall i: nat | 0 < i <= |a| && i < |b| ensures a[..i] != b[..i] {
      assert a[..i][0] == a[0] && b[..i][0] == b[0];
    }
  }

  lemma FirstOfRest(a: seq<byte>, b: seq<byte>)
    requires a != [] && b != [] && a[0] == b[0]
    ensures (exists i: nat :: FirstAt(a, b, i)) <==> exists i: nat :: FirstAt(a[1..], b[1..], i)
  {
    if i: nat :| FirstAt(a, b, i) {
      assert a[1..][..i - 1] == a[..i][1..] && b[1..][..i - 1] == b[..i][1..];
      assert FirstAt(a[1..], b[1..], i - 1);
    }
    if i: nat :| FirstAt(a[1..], b[1..], i) {
      assert a[..i + 1] == [a[0]] + a[1..][..i] && b[..i + 1] == [b[0]] + b[1..][..i];
      assert FirstAt(a, b, i + 1);
    }
  }

  lemma {:induction false} PrecedesOrder(a: seq<byte>, b: seq<byte>, c: seq<byte>)
    ensures !Precedes(a, a)
    ensures Precedes(a, b) && Precedes(b, c) ==> Precedes(a, c)
    ensures !Precedes(a, b) && !Precedes(b, a) <==> a == b
  {
    if a != [] {
      PrecedesOrder(a[1..], if b == [] then [] else b[1..], if c == [] then [] else c[1..]);
      assert b != [] && a[0] == b[0] && a[1..] == b[1..] ==> a == b;
    }
  }

  /** CaseInsensitiveLess is a strict weak order whose equivalence is equality up to case: what
      std::map asks of it. */
  lemma CaseInsensitiveOrder(a: seq<byte>, b: seq<byte>, c: seq<byte>)
    ensures !Less(a, a)
    ensures Less(a, b) && Less(b, c) ==> Less(a, c)
    ensures !Less(a, b) && !Less(b, a) <==> SameName(a, b)
  {
    PrecedesOrder(Fold(a), Fold(b), Fold(c));
  }

  // ---------------------------------------------------------------- the map

  predicate Sorted(h: seq<Field>) {
    forall i, j :: 0 <= i < j < |h| ==> Less(h[i].name, h[j].name)
  }

  function Get(h: seq<Field>, k: seq<byte>): Option<seq<byte>> {
    if h == [] then None else if SameName(h[0].name, k) then Some(h[0].value) else Get(h[1..], k)
  }

  /** m_headers[key] = val: an equal name keeps its spelling and takes the new value. */
  function Set(h: seq<Field>, k: seq<byte>, v: seq<byte>): seq<Field> {
    if h == [] || Less(k, h[0].name) then [Field(k, v)] + h
    else if Less(h[0].name, k) then [h[0]] + Set(h[1..], k, v)
    else [Field(h[0].name, v)] + h[1..]
  }

  lemma {:induction false} SetNames(h: seq<Field>, k: seq<byte>, v: seq<byte>, i: nat)
    requires i < |Set(h, k, v)|
    ensures SameName(Set(h, k, v)[i].name, k) || exists j :: 0 <= j < |h| && Set(h, k, v)[i].name == h[j].name
  {
    CaseInsensitiveOrder(k, k, k);
    if h == [] || Less(k, h[0].name) {
      assert i > 0 ==> Set(h, k, v)[i] == h[i - 1];
    } else {
      CaseInsensitiveOrder(k, h[0].name, k);
      if Less(h[0].name, k) && i > 0 {
        SetNames(h[1..], k, v, i - 1);
        assert Set(h, k, v)[i] == Set(h[1..], k, v)[i - 1];
        if j :| 0 <= j < |h[1..]| && Set(h[1..], k, v)[i - 1].name == h[1..][j].name {
          assert h[1..][j] == h[j + 1];
        }
      } else {
        assert i > 0 ==> Set(h, k, v)[i] == h[i];
      }
    }
  }

  /** A header that is there keeps its spelling; it takes the new value exactly when its name is k up to case. */
  lemma {:induction false} SpellingKept(h: seq<Field>, k: seq<byte>, v: seq<byte>, i: nat)
    requires Sorted(h) && i < |h|
    ensures Field(h[i].name, if SameName(h[i].name, k) then v else h[i].value) in Set(h, k, v)
  {
    var r := Set(h, k, v);
    CaseInsensitiveOrder(k, h[0].name, h[i].name);
    CaseInsensitiveOrder(h[i].name, k, h[i].name);
    if Less(k, h[0].name) {
      assert r == [Field(k, v)] + h && r[i + 1] == h[i];
    } else if Less(h[0].name, k) {
      assert r == [h[0]] + Set(h[1..], k, v);
      if i > 0 { SpellingKept(h[1..], k, v, i - 1); }
    } else {
      assert r == [Field(h[0].name, v)] + h[1..];
      if i > 0 { assert r[i] == h[i]; }
    }
  }

  lemma {:induction false} SetSorted(h: seq<Field>, k: seq<byte>, v: seq<byte>)
    requires Sorted(h)
    ensures Sorted(Set(h, k, v))
  {
    var r := Set(h, k, v);
    if h == [] {
    } else if Less(k, h[0].name) {
      forall j | 0 <= j < |h| ensures Less(k, h[j].name) {
        CaseInsensitiveOrder(k, h[0].name, h[j].name);
      }
    } else if Less(h[0].name, k) {
      SetSorted(h[1..], k, v);
      forall j | 0 < j < |r| ensures Less(h[0].name, r[j].name) {
        SetNames(h[1..], k, v, j - 1);
        CaseInsensitiveOrder(k, r[j].name, k);
      }
    }
  }

  /** The map laws: the key set reads back the value, every other key is untouched. */
  lemma {:induction false} GetSet(h: seq<Field>, k: seq<byte>, v: seq<byte>, q: seq<byte>)
    requires Sorted(h)
    ensures Get(Set(h, k, v), q) == if SameName(q, k) then Some(v) else Get(h, q)
  {
    if h == [] || Less(k, h[0].name) {
      assert Set(h, k, v)[1..] == h;
    } else {
      CaseInsensitiveOrder(k, h[0].name, k);
      if Less(h[0].name, k) {
        assert Set(h, k, v)[1..] == Set(h[1..], k, v);
        GetSet(h[1..], k, v, q);
      } else {
        assert Set(h, k, v)[1..] == h[1..];
      }
    }
  }

  /** What a list of fields builds when each is set in turn. */
  function Rebuild(h: seq<Field>, fs: seq<Field>): seq<Field>
    decreases fs
  {
    if fs == [] then h else Rebuild(Set(h, fs[0].name, fs[0].value), fs[1..])
  }

  /** The last field of the list with the name wins, and the map answers for the others. */
  function LastOf(fs: seq<Field>, q: seq<byte>, otherwise: Option<seq<byte>>): Option<seq<byte>> {
    if fs == [] then otherwise
    else LastOf(fs[1..], q, if SameName(q, fs[0].name) then Some(fs[0].value) else otherwise)
  }

  lemma {:induction false} GetRebuild(h: seq<Field>, fs: seq<Field>, q: seq<byte>)
    requires Sorted(h)
    ensures Sorted(Rebuild(h, fs)) && Get(Rebuild(h, fs), q) == LastOf(fs, q, Get(h, q))
    decreases fs
  {
    if fs != [] {
      SetSorted(h, fs[0].name, fs[0].value);
      GetSet(h, fs[0].name, fs[0].value, q);
      GetRebuild(Set(h, fs[0].name, fs[0].value), fs[1..], q);
    }
  }

  lemma {:induction false} LastOfAppend(xs: seq<Field>, ys: seq<Field>, q: seq<byte>, otherwise: Option<seq<byte>>)
    ensures LastOf(xs + ys, q, otherwise) == LastOf(ys, q, LastOf(xs, q, otherwise))
  {
    if xs == [] {
      assert xs + ys == ys;
    } else {
      assert (xs + ys)[1..] == xs[1..] + ys;
      LastOfAppend(xs[1..], ys, q, if SameName(q, xs[0].name) then Some(xs[0].value) else otherwise);
    }
  }

  // ---------------------------------------------------------------- what dump prints

  const CRLF: seq<byte> := [13, 10]

  function Decimal(n: nat): seq<byte> {
    if n < 10 then [48 + n] else Decimal(n / 10) + [48 + n % 10]
  }

  function Line(f: Field): seq<byte> { f.name + [58, 32] + f.value + CRLF }

  function Lines(fs: seq<Field>): seq<byte> {
    if fs == [] then [] else Line(fs[0]) + Lines(fs[1..])
  }

  function Connection(closing: bool): Field {
    Field(CONNECTION, if closing then CLOSE else KEEP_ALIVE)
  }

  function Length(n: nat): Field { Field(CONNECT_LENGTH, Decimal(n)) }

  /** The headers of the map that are printed: the connection header only for a web socket. */
  function Kept(h: seq<Field>, websocket: bool): (r: seq<Field>)
    ensures forall f :: f in r ==> f in h
  {
    if h == [] then []
    else if !websocket && SameName(h[0].name, CONNECTION) then Kept(h[1..], websocket)
    else [h[0]] + Kept(h[1..], websocket)
  }

  /** The header lines of a request in the order they are printed. */
  function Listed(h: seq<Field>, websocket: bool, closing: bool, body: seq<byte>): seq<Field> {
    (if websocket then [] else [Connection(closing)]) + Kept(h, websocket) + (if body == [] then [] else [Length(|body|)])
  }

  /** Everything dump prints after the request line. */
  function Block(h: seq<Field>, websocket: bool, closing: bool, body: seq<byte>): seq<byte> {
    Lines(Listed(h, websocket, closing, body)) + CRLF + body
  }

  /** The lines that dump adds: the words are spelled out in Words. */
  function ConnectionLine(closing: bool): seq<byte> {
    CONNECTION + [58, 32] + (if closing then CLOSE else KEEP_ALIVE) + CRLF
  }

  function LengthLine(n: nat): seq<byte> { CONNECT_LENGTH + [58, 32] + Decimal(n) + CRLF }

  /** Everything dump prints after the request line: the connection line unless a web socket, the
      kept headers, the length line when there is a body, the empty line and the body. */
  lemma BlockText(h: seq<Field>, websocket: bool, closing: bool, body: seq<byte>)
    ensures Block(h, websocket, closing, body) ==
              (if websocket then [] else ConnectionLine(closing)) + Lines(Kept(h, websocket)) +
              (if body == [] then [] else LengthLine(|body|)) + CRLF + body
  {
    var first := if websocket then [] else [Connection(closing)];
    var last := if body == [] then [] else [Length(|body|)];
    OneLine(Connection(closing));
    OneLine(Length(|body|));
    LinesAppend(first + Kept(h, websocket), last);
    LinesAppend(first, Kept(h, websocket));
  }

  /** One header after another: name, colon, blank, value, line break. */
  lemma LinesText(f: Field, fs: seq<Field>)
    ensures Lines([f] + fs) == f.name + [58, 32] + f.value + [13, 10] + Lines(fs) && Lines([]) == []
  {
    assert ([f] + fs)[1..] == fs;
  }

  /** Exactly the headers that are not another spelling of connection are kept, or all for a web socket. */
  lemma {:induction false} KeptExactly(h: seq<Field>, websocket: bool, f: Field)
    ensures f in Kept(h, websocket) <==> f in h && (websocket || !SameName(f.name, CONNECTION))
  {
    if h != [] {
      KeptExactly(h[1..], websocket, f);
      assert h == [h[0]] + h[1..];
    }
  }

  lemma {:induction false} LinesAppend(xs: seq<Field>, ys: seq<Field>)
    ensures Lines(xs + ys) == Lines(xs) + Lines(ys)
  {
    if xs == [] {
      assert xs + ys == ys;
    } else {
      assert (xs + ys)[1..] == xs[1..] + ys;
      LinesAppend(xs[1..], ys);
    }
  }

  lemma {:induction false} KeptAppend(xs: seq<Field>, ys: seq<Field>, websocket: bool)
    ensures Kept(xs + ys, websocket) == Kept(xs, websocket) + Kept(ys, websocket)
  {
    if xs == [] {
      assert xs + ys == ys;
    } else {
      assert (xs + ys)[1..] == xs[1..] + ys;
      KeptAppend(xs[1..], ys, websocket);
    }
  }

  lemma {:induction false} LastOfKept(h: seq<Field>, websocket: bool, q: seq<byte>)
    requires Sorted(h)
    ensures LastOf(Kept(h, websocket), q, None) ==
              if !websocket && SameName(q, CONNECTION) then None else Get(h, q)
  {
    if h != [] {
      LastOfKept(h[1..], websocket, q);
      if SameName(h[0].name, q) {
        LastOfOthers(h[0].name, h[1..], websocket, q, Some(h[0].value));
      }
    }
  }

  /** Behind a name in a sorted map no equal name follows. */
  lemma {:induction false} LastOfOthers(name: seq<byte>, h: seq<Field>, websocket: bool,
                                        q: seq<byte>, otherwise: Option<seq<byte>>)
    requires Sorted(h) && SameName(name, q) && forall f :: f in h ==> Less(name, f.name)
    ensures LastOf(Kept(h, websocket), q, otherwise) == otherwise
  {
    if h != [] {
      assert h[0] in h;
      CaseInsensitiveOrder(name, h[0].name, name);
      LastOfOthers(name, h[1..], websocket, q, otherwise);
    }
  }

  /** The map a receiver builds from the printed lines is the sender's, with the connection and
      connect-length lines on top; in particular dump never says content-length on its own. */
  lemma RebuiltMap(h: seq<Field>, websocket: bool, closing: bool, body: seq<byte>, q: seq<byte>)
    requires Sorted(h)
    ensures var r := Rebuild([], Listed(h, websocket, closing, body));
            && Sorted(r)
            && Get(r, q) ==
                 if body != [] && SameName(q, CONNECT_LENGTH) then Some(Decimal(|body|))
                 else if !websocket && SameName(q, CONNECTION) then Some(if closing then CLOSE else KEEP_ALIVE)
                 else Get(h, q)
  {
    var first := if websocket then [] else [Connection(closing)];
    var last := if body == [] then [] else [Length(|body|)];
    var kept := Kept(h, websocket);
    GetRebuild([], first + kept + last, q);
    LastOfAppend(first + kept, last, q, None);
    LastOfAppend(first, kept, q, None);
    LastOfKept(h, websocket, q);
    LastOfFrom(kept, q, LastOf(first, q, None));
  }

  /** What the map answers before matters only when no field of the list has the name. */
  lemma {:induction false} LastOfFrom(fs: seq<Field>, q: seq<byte>, otherwise: Option<seq<byte>>)
    ensures LastOf(fs, q, otherwise) == if LastOf(fs, q, None) == None then otherwise else LastOf(fs, q, None)
  {
    if fs != [] {
      LastOfFrom(fs[1..], q, if SameName(q, fs[0].name) then Some(fs[0].value) else otherwise);
      LastOfFrom(fs[1..], q, if SameName(q, fs[0].name) then Some(fs[0].value) else None);
    }
  }

  /** A name that is smaller stays in front of the place. */
  lemma SetPast(h: seq<Field>, i: nat, k: seq<byte>, v: seq<byte>)
    requires i < |h| && Less(h[i].name, k) && !Less(k, h[i].name)
    ensures h[..i] + Set(h[i..], k, v) == h[..i + 1] + Set(h[i + 1..], k, v)
  {
    assert h[i..][1..] == h[i + 1..];
    assert Set(h[i..], k, v) == [h[i]] + Set(h[i + 1..], k, v);
  }

  lemma SetHere(h: seq<Field>, i: nat, k: seq<byte>, v: seq<byte>)
    requires i <= |h| && (i < |h| ==> !Less(h[i].name, k))
    ensures h[..i] + Set(h[i..], k, v) ==
              if i < |h| && !Less(k, h[i].name) then h[..i] + [Field(h[i].name, v)] + h[i + 1..]
              else h[..i] + [Field(k, v)] + h[i..]
  {
    if i < |h| {
      assert h[i..][1..] == h[i + 1..];
    }
  }

  /** What one round of the printing loop adds. */
  lemma DumpedSoFar(os: seq<byte>, h: seq<Field>, i: nat, websocket: bool)
    requires i < |h|
    ensures os + Lines(Kept(h[..i + 1], websocket)) ==
              os + Lines(Kept(h[..i], websocket)) +
              (if !websocket && SameName(h[i].name, CONNECTION) then [] else Line(h[i]))
  {
    assert h[..i + 1] == h[..i] + [h[i]];
    KeptAppend(h[..i], [h[i]], websocket);
    assert Kept([h[i]][1..], websocket) == [];
    LinesAppend(Kept(h[..i], websocket), Kept([h[i]], websocket));
    OneLine(h[i]);
  }

  // ---------------------------------------------------------------- the request object

  class HttpRequest {
    var headers: seq<Field>           // the map, in its order
    var websocket: bool
    var closing: bool
    var body: seq<byte>

    constructor (closing: bool)
      ensures headers == [] && !websocket && this.closing == closing && body == []
    {
      headers, websocket, this.closing, body := [], false, closing, [];
    }

    /** setHeader: the place of the key is looked up, then the value is replaced or the pair
        inserted. */
    method SetHeader(key: seq<byte>, val: seq<byte>)
      requires Sorted(headers)
      modifies this`headers
      ensures Sorted(headers) && headers == Set(old(headers), key, val)
    {
      ghost var was := headers;
      SetSorted(was, key, val);
      var i := 0;
      while i < |headers| && Less(headers[i].name, key)
        invariant 0 <= i <= |was| && headers == was
        invariant Set(was, key, val) == was[..i] + Set(was[i..], key, val)
      {
        CaseInsensitiveOrder(headers[i].name, key, headers[i].name);
        SetPast(was, i, key, val);
        i := i + 1;
      }
      if i < |headers| && !Less(key, headers[i].name) {
        headers := headers[..i] + [Field(headers[i].name, val)] + headers[i + 1..];
      } else {
        headers := headers[..i] + [Field(key, val)] + headers[i..];
      }
      SetHere(was, i, key, val);
    }

    /** The loop of dump over the headers; os is the stream so far. */
    method DumpHeaders(os: seq<byte>) returns (out: seq<byte>)
      ensures out == os + Lines(Kept(headers, websocket))
    {
      out := os;
      var i := 0;
      while i < |headers|
        invariant 0 <= i <= |headers| && out == os + Lines(Kept(headers[..i], websocket))
      {
        DumpedSoFar(os, headers, i, websocket);
        if !websocket && SameName(headers[i].name, CONNECTION) {
          i := i + 1;
          continue;
        }
        out := out + Line(headers[i]);
        i := i + 1;
      }
      assert headers[..i] == headers;
    }

    /** dump, from behind the request line. */
    method Dump() returns (os: seq<byte>)
      ensures os == Block(headers, websocket, closing, body)
    {
      ghost var first := if websocket then [] else [Connection(closing)];
      ghost var last := if body == [] then [] else [Length(|body|)];
      assert Listed(headers, websocket, closing, body) == first + Kept(headers, websocket) + last;
      LinesAppend(first + Kept(headers, websocket), last);
      LinesAppend(first, Kept(headers, websocket));
      OneLine(Connection(closing));
      OneLine(Length(|body|));
      os := [];
      if !websocket {
        os := os + Line(Connection(closing));
      }
      assert os == Lines(first);
      os := DumpHeaders(os);
      if body != [] {
        os := os + Line(Length(|body|)) + CRLF + body;
      } else {
        os := os + CRLF;
        assert os == Lines(first + Kept(headers, websocket)) + CRLF;
      }
    }
  }

  lemma OneLine(f: Field)
    ensures Lines([f]) == Line(f)
  {
    assert Lines([f][1..]) == [];
  }
}
