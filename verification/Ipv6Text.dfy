// IPv6Address::insert: the compressed text form of an address, and reading it back.

module Ipv6Texts {
  import opened Base
  import Http = HttpHeaders
  import Url = UrlCodings

  const COLON: byte := 58
  const OPEN: byte := 91
  const CLOSE: byte := 93

  /** The eight groups of an address, in host order. */
  predicate Groups(gs: seq<nat>) {
    forall i :: 0 <= i < |gs| ==> gs[i] < 0x1_0000
  }

  // ---------------------------------------------------------------- numbers

  /** std::hex: lower case, no leading zeros. */
  function Hex(n: nat): (s: seq<byte>)
    ensures |s| > 0
  {
    var d: byte := if n % 16 < 10 then 48 + n % 16 else 87 + n % 16;
    if n < 16 then [d] else Hex(n / 16) + [d]
  }

  function FromHex(s: seq<byte>): nat {
    if s == [] then 0 else 16 * FromHex(s[..|s| - 1]) + Url.HexValue(s[|s| - 1])
  }

  /** A group: one to four hex digits, section 2.2 of RFC 4291. */
  predicate Piece(s: seq<byte>) {
    1 <= |s| <= 4 && forall i :: 0 <= i < |s| ==> Url.IsHex(s[i])
  }

  lemma {:induction false} HexDigits(n: nat)
    ensures FromHex(Hex(n)) == n && forall i :: 0 <= i < |Hex(n)| ==> Url.IsHex(Hex(n)[i])
  {
    var s := Hex(n);
    if n >= 16 {
      HexDigits(n / 16);
      assert s[..|s| - 1] == Hex(n / 16);
    } else {
      assert s[..|s| - 1] == [];
    }
  }

  /** Hex digits are lower case, and a group has no leading zero. */
  lemma {:induction false} HexText(n: nat)
    ensures forall i :: 0 <= i < |Hex(n)| ==> 48 <= Hex(n)[i] <= 57 || 97 <= Hex(n)[i] <= 102
    ensures |Hex(n)| > 1 ==> Hex(n)[0] != 48
    ensures n > 0 ==> Hex(n) != [48]
  {
    if n >= 16 {
      HexText(n / 16);
      assert Hex(n)[0] == Hex(n / 16)[0];
    }
  }

  lemma HexPiece(n: nat)
    requires n < 0x1_0000
    ensures Piece(Hex(n)) && FromHex(Hex(n)) == n
  {
    HexDigits(n);
    var a := n / 16;
    var b := a / 16;
    assert b / 16 < 16 && |Hex(b / 16)| == 1;
    assert |Hex(b)| <= 2 && |Hex(a)| <= 3;
  }

  function FromDecimal(s: seq<byte>): int {
    if s == [] then 0 else 10 * FromDecimal(s[..|s| - 1]) + s[|s| - 1] - 48
  }

  /** A number is printed in decimal digits without leading zeros. */
  lemma {:induction false} DecimalText(n: nat)
    ensures forall i :: 0 <= i < |Http.Decimal(n)| ==> 48 <= Http.Decimal(n)[i] <= 57
    ensures |Http.Decimal(n)| > 1 ==> Http.Decimal(n)[0] != 48
    ensures n > 0 ==> Http.Decimal(n) != [48]
  {
    if n >= 10 {
      DecimalText(n / 10);
      assert Http.Decimal(n)[0] == Http.Decimal(n / 10)[0];
    }
  }

  /** The text stands in brackets, and the port behind a colon. */
  lemma PrintedFrame(gs: seq<nat>, port: nat)
    ensures Printed(gs, port) == Http.Ascii("[") + Text(gs) + Http.Ascii("]:") + Http.Decimal(port)
  {
    assert Http.Ascii("[") == [OPEN] && Http.Ascii("]:") == [CLOSE, COLON];
  }

  lemma {:induction false} DecimalRead(n: nat)
    ensures FromDecimal(Http.Decimal(n)) == n
  {
    var s := Http.Decimal(n);
    if n >= 10 {
      DecimalRead(n / 10);
      assert s[..|s| - 1] == Http.Decimal(n / 10);
    } else {
      assert s[..|s| - 1] == [];
    }
  }

  // ---------------------------------------------------------------- the printed form

  /** Groups with single colons between them. */
  function Join(gs: seq<nat>): seq<byte> {
    if gs == [] then [] else if |gs| == 1 then Hex(gs[0]) else Hex(gs[0]) + [COLON] + Join(gs[1..])
  }

  /** Where the first zero group is, and where its run ends. */
  function FirstZero(gs: seq<nat>): (a: nat)
    ensures a <= |gs| && (a < |gs| ==> gs[a] == 0) && forall i :: 0 <= i < a ==> gs[i] != 0
  {
    if gs == [] || gs[0] == 0 then 0 else FirstZero(gs[1..]) + 1
  }

  function RunEnd(gs: seq<nat>, a: nat): (b: nat)
    requires a <= |gs|
    ensures a <= b <= |gs| && (b < |gs| ==> gs[b] != 0) && forall i :: a <= i < b ==> gs[i] == 0
    decreases |gs| - a
  {
    if a == |gs| || gs[a] != 0 then a else RunEnd(gs, a + 1)
  }

  /** The first run of zero groups, and no other, is written as a double colon. */
  function Text(gs: seq<nat>): seq<byte> {
    var a := FirstZero(gs);
    if a == |gs| then Join(gs) else Join(gs[..a]) + [COLON, COLON] + Join(gs[RunEnd(gs, a)..])
  }

  function Printed(gs: seq<nat>, port: nat): seq<byte> {
    [OPEN] + Text(gs) + [CLOSE, COLON] + Http.Decimal(port)
  }

  lemma {:induction false} JoinSnoc(gs: seq<nat>, g: nat)
    ensures Join(gs + [g]) == Join(gs) + (if gs == [] then [] else [COLON]) + Hex(g)
  {
    if gs == [] {
      assert gs + [g] == [g];
    } else {
      assert (gs + [g])[1..] == gs[1..] + [g];
      JoinSnoc(gs[1..], g);
      if |gs| > 1 {
        assert Join(gs + [g]) == Hex(gs[0]) + [COLON] + (Join(gs[1..]) + [COLON] + Hex(g));
      }
    }
  }

  /** A run of groups one longer. */
  lemma JoinNext(gs: seq<nat>, from: nat, i: nat)
    requires from <= i < |gs|
    ensures Join(gs[from..i + 1]) == Join(gs[from..i]) + (if from == i then [] else [COLON]) + Hex(gs[i])
  {
    assert gs[from..i + 1] == gs[from..i] + [gs[i]];
    JoinSnoc(gs[from..i], gs[i]);
  }

  /** One more group behind the double colon. */
  lemma AfterGap(head: seq<byte>, gs: seq<nat>, from: nat, i: nat)
    requires from <= i < |gs|
    ensures head + Join(gs[from..i + 1]) == head + Join(gs[from..i]) + (if from == i then [] else [COLON]) + Hex(gs[i])
  {
    JoinNext(gs, from, i);
  }

  /** The loop of insert: zero groups are skipped until a group follows them, which is then
      written behind a double colon; later zeros are written out. */
  method Insert(addr: seq<nat>, port: nat) returns (os: seq<byte>)
    requires |addr| == 8
    ensures os == Printed(addr, port)
  {
    var text := InsertGroups(addr);
    os := [OPEN] + text + [CLOSE, COLON] + Http.Decimal(port);
  }

  method InsertGroups(addr: seq<nat>) returns (os: seq<byte>)
    requires |addr| == 8
    ensures os == Text(addr)
  {
    os := [];
    var usedZeros := false;
    for i := 0 to 8
      invariant SoFar(addr, i, usedZeros, os)
    {
      NextGroup(addr, i, usedZeros, os);
      if addr[i] == 0 && !usedZeros {
        continue;
      }
      if i > 0 && addr[i - 1] == 0 && !usedZeros {
        os := os + [COLON];
        usedZeros := true;
      }
      if i > 0 {
        os := os + [COLON];
      }
      os := os + Hex(addr[i]);
    }
    AllGroups(addr, usedZeros, os);
    if !usedZeros && addr[7] == 0 {
      os := os + [COLON, COLON];
    }
  }

  /** What has been written when group i is next. */
  predicate SoFar(addr: seq<nat>, i: nat, usedZeros: bool, os: seq<byte>) {
    var a := FirstZero(addr);
    var b := RunEnd(addr, a);
    && i <= |addr|
    && if usedZeros then a < b < i && os == Join(addr[..a]) + [COLON, COLON] + Join(addr[b..i])
       else if i <= a then os == Join(addr[..i])
       else i <= b && os == Join(addr[..a])
  }

  lemma NextGroup(addr: seq<nat>, i: nat, usedZeros: bool, os: seq<byte>)
    requires i < |addr| && SoFar(addr, i, usedZeros, os)
    ensures if addr[i] == 0 && !usedZeros then SoFar(addr, i + 1, usedZeros, os)
            else
              var closes := i > 0 && addr[i - 1] == 0 && !usedZeros;
              SoFar(addr, i + 1, usedZeros || closes,
                    (if closes then os + [COLON] else os) + (if i > 0 then [COLON] else []) + Hex(addr[i]))
  {
    var a := FirstZero(addr);
    if usedZeros {
      AfterGap(Join(addr[..a]) + [COLON, COLON], addr, RunEnd(addr, a), i);
    } else if addr[i] != 0 && i > a {
      GapCloses(addr, i, a, os);
    } else if addr[i] != 0 {
      JoinNext(addr, 0, i);
    }
  }

  /** The first group behind the first run of zeros. */
  lemma GapCloses(addr: seq<nat>, i: nat, a: nat, os: seq<byte>)
    requires i < |addr| && a == FirstZero(addr) && a < i && addr[i] != 0 && SoFar(addr, i, false, os)
    ensures addr[i - 1] == 0 && SoFar(addr, i + 1, true, os + [COLON] + [COLON] + Hex(addr[i]))
  {
    JoinNext(addr, i, i);
    assert addr[i..i] == [];
    assert os + [COLON] + [COLON] + Hex(addr[i]) == os + [COLON, COLON] + Hex(addr[i]);
  }

  lemma AllGroups(addr: seq<nat>, usedZeros: bool, os: seq<byte>)
    requires |addr| > 0 && SoFar(addr, |addr|, usedZeros, os)
    ensures Text(addr) == if !usedZeros && addr[|addr| - 1] == 0 then os + [COLON, COLON] else os
  {
    var b := RunEnd(addr, FirstZero(addr));
    assert addr[..|addr|] == addr && addr[b..|addr|] == addr[b..];
  }

  // ---------------------------------------------------------------- reading it back

  function ColonAt(s: seq<byte>): (i: nat)
    ensures i <= |s| && (i < |s| ==> s[i] == COLON) && forall j :: 0 <= j < i ==> s[j] != COLON
  {
    if s == [] || s[0] == COLON then 0 else ColonAt(s[1..]) + 1
  }

  /** Hex groups between single colons. */
  function ReadList(s: seq<byte>): Option<seq<nat>>
    decreases |s|
  {
    var i := ColonAt(s);
    if !Piece(s[..i]) then None
    else if i == |s| then Some([FromHex(s)])
    else match ReadList(s[i + 1..])
      case Some(rest) => Some([FromHex(s[..i])] + rest)
      case None => None
  }

  /** One side of a double colon, possibly empty. */
  function ReadSide(s: seq<byte>): Option<seq<nat>> {
    if s == [] then Some([]) else ReadList(s)
  }

  /** Where the first double colon is. */
  function GapAt(s: seq<byte>): (i: nat)
    ensures i <= |s| && (i < |s| ==> i + 1 < |s| && s[i] == COLON && s[i + 1] == COLON)
  {
    if |s| < 2 then |s| else if s[0] == COLON && s[1] == COLON then 0 else GapAt(s[1..]) + 1
  }

  function Zeros(n: nat): (gs: seq<nat>)
    ensures |gs| == n && forall i :: 0 <= i < n ==> gs[i] == 0
  {
    if n == 0 then [] else [0] + Zeros(n - 1)
  }

  /** Zeros where the double colon is, up to eight groups. */
  function Filled(left: seq<nat>, right: seq<nat>): seq<nat>
    requires |left| + |right| < 8
  {
    left + Zeros(8 - |left| - |right|) + right
  }

  /** The text form of section 2.2 of RFC 4291: eight groups, or fewer with one double colon that
      stands for one or more groups of zeros. */
  function Expand(s: seq<byte>): Option<seq<nat>> {
    var i := GapAt(s);
    if i == |s| then
      var gs := ReadList(s);
      if gs.Some? && |gs.value| == 8 then gs else None
    else
      var left, right := ReadSide(s[..i]), ReadSide(s[i + 2..]);
      if left.Some? && right.Some? && |left.value| + |right.value| < 8 then
        Some(Filled(left.value, right.value))
      else None
  }

  lemma ColonBehind(x: seq<byte>, y: seq<byte>)
    requires forall i :: 0 <= i < |x| ==> x[i] != COLON
    ensures ColonAt(x) == |x| && ColonAt(x + [COLON] + y) == |x|
  {
    var s := x + [COLON] + y;
    assert s[|x|] == COLON;
    assert forall i :: 0 <= i < |x| ==> s[i] == x[i];
  }

  lemma {:induction false} ReadJoin(gs: seq<nat>)
    requires gs != [] && Groups(gs)
    ensures ReadList(Join(gs)) == Some(gs)
  {
    var h := Hex(gs[0]);
    HexPiece(gs[0]);
    if |gs| == 1 {
      ColonBehind(h, []);
      assert h[..|h|] == h && gs == [gs[0]];
    } else {
      var rest := Join(gs[1..]);
      ColonBehind(h, rest);
      ReadJoin(gs[1..]);
      var s := h + [COLON] + rest;
      assert s[..|h|] == h && s[|h| + 1..] == rest;
      assert gs == [gs[0]] + gs[1..];
    }
  }

  lemma ReadJoinSide(gs: seq<nat>)
    requires Groups(gs)
    ensures ReadSide(Join(gs)) == Some(gs)
  {
    if gs != [] {
      ReadJoin(gs);
    }
  }

  /** No two colons side by side. */
  predicate SingleColons(s: seq<byte>) {
    forall i :: 0 < i < |s| ==> s[i - 1] != COLON || s[i] != COLON
  }

  /** Joined groups begin and end with a digit and have single colons only. */
  lemma {:induction false} JoinShape(gs: seq<nat>)
    requires Groups(gs) && gs != []
    ensures var s := Join(gs); s != [] && s[0] != COLON && s[|s| - 1] != COLON && SingleColons(s)
  {
    var h := Hex(gs[0]);
    HexPiece(gs[0]);
    if |gs| > 1 {
      JoinShape(gs[1..]);
      var s, rest := Join(gs), Join(gs[1..]);
      forall i | 0 < i < |s| ensures s[i - 1] != COLON || s[i] != COLON {
        if i > |h| + 1 {
          assert s[i] == rest[i - |h| - 1] && s[i - 1] == rest[i - |h| - 2];
        }
      }
    }
  }

  lemma {:induction false} GapBehind(x: seq<byte>, y: seq<byte>)
    requires SingleColons(x) && (x != [] ==> x[|x| - 1] != COLON)
    ensures GapAt(x + [COLON, COLON] + y) == |x|
  {
    var s := x + [COLON, COLON] + y;
    if x != [] {
      assert s[1..] == x[1..] + [COLON, COLON] + y;
      assert |x| > 1 ==> x[0] != COLON || x[1] != COLON;
      forall i | 0 < i < |x[1..]| ensures x[1..][i - 1] != COLON || x[1..][i] != COLON {
        assert x[1..][i - 1] == x[i] && x[1..][i] == x[i + 1];
      }
      GapBehind(x[1..], y);
    }
  }

  lemma {:induction false} NoGap(s: seq<byte>)
    requires SingleColons(s)
    ensures GapAt(s) == |s|
  {
    if |s| >= 2 {
      assert s[0] != COLON || s[1] != COLON;
      forall i | 0 < i < |s[1..]| ensures s[1..][i - 1] != COLON || s[1..][i] != COLON {
        assert s[1..][i - 1] == s[i] && s[1..][i] == s[i + 1];
      }
      NoGap(s[1..]);
    }
  }

  lemma ExpandGap(left: seq<nat>, right: seq<nat>)
    requires Groups(left) && Groups(right) && |left| + |right| < 8
    ensures Expand(Join(left) + [COLON, COLON] + Join(right)) == Some(Filled(left, right))
  {
    var x, y := Join(left), Join(right);
    var s := x + [COLON, COLON] + y;
    if left != [] {
      JoinShape(left);
    }
    GapBehind(x, y);
    assert s[..|x|] == x && s[|x| + 2..] == y;
    ReadJoinSide(left);
    ReadJoinSide(right);
    ExpandSides(s, |x|, left, right);
  }

  lemma ExpandSides(s: seq<byte>, i: nat, left: seq<nat>, right: seq<nat>)
    requires i + 2 <= |s| && GapAt(s) == i && |left| + |right| < 8
    requires ReadSide(s[..i]) == Some(left) && ReadSide(s[i + 2..]) == Some(right)
    ensures Expand(s) == Some(Filled(left, right))
  {
  }

  /** The printed form of any address, expanded, is the address. */
  lemma ExpandText(gs: seq<nat>)
    requires |gs| == 8 && Groups(gs)
    ensures Expand(Text(gs)) == Some(gs)
  {
    var a := FirstZero(gs);
    if a == 8 {
      JoinShape(gs);
      NoGap(Join(gs));
      ReadJoin(gs);
    } else {
      var b := RunEnd(gs, a);
      assert gs[a] == 0;
      ExpandGap(gs[..a], gs[b..]);
      FilledBack(gs, a, b);
    }
  }

  lemma FilledBack(gs: seq<nat>, a: nat, b: nat)
    requires |gs| == 8 && a < b <= 8 && forall i :: a <= i < b ==> gs[i] == 0
    ensures Filled(gs[..a], gs[b..]) == gs
  {
    assert Zeros(b - a) == gs[a..b];
    assert gs[..a] + gs[a..b] + gs[b..] == gs;
  }

  /** There is at most one double colon in it, and never three in a row. */
  lemma OneGap(gs: seq<nat>, i: nat, j: nat)
    requires |gs| == 8 && Groups(gs) && i < j && j + 1 < |Text(gs)|
    ensures !(Text(gs)[i] == Text(gs)[i + 1] == Text(gs)[j] == Text(gs)[j + 1] == COLON)
  {
    var a := FirstZero(gs);
    var b := if a == 8 then 8 else RunEnd(gs, a);
    var x, y := Join(gs[..a]), Join(gs[b..]);
    assert gs[..8] == gs;
    if a > 0 {
      JoinShape(gs[..a]);
    }
    if b < 8 {
      JoinShape(gs[b..]);
    }
    if a < 8 {
      var s := Text(gs);
      DoubleColonAt(x, y, i);
      DoubleColonAt(x, y, j);
    }
  }

  lemma DoubleColonAt(x: seq<byte>, y: seq<byte>, i: nat)
    requires SingleColons(x) && SingleColons(y) && (x != [] ==> x[|x| - 1] != COLON) && (y != [] ==> y[0] != COLON)
    requires i + 1 < |x| + 2 + |y|
    ensures var s := x + [COLON, COLON] + y; s[i] == s[i + 1] == COLON ==> i == |x|
  {
    var s := x + [COLON, COLON] + y;
    if i + 1 < |x| {
      assert s[i] == x[i] && s[i + 1] == x[i + 1];
    } else if i + 1 == |x| {
      assert s[i] == x[i];
    } else if i == |x| + 1 {
      assert s[i + 1] == y[0];
    } else if i > |x| + 1 {
      assert s[i] == y[i - |x| - 2] && s[i + 1] == y[i - |x| - 1];
    }
  }

  /** So printing is injective, the port included. */
  lemma PrintedInjective(gs: seq<nat>, port: nat, hs: seq<nat>, other: nat)
    requires |gs| == |hs| == 8 && Groups(gs) && Groups(hs) && Printed(gs, port) == Printed(hs, other)
    ensures gs == hs && port == other
  {
    TextHasNoBracket(gs);
    TextHasNoBracket(hs);
    var p, q := [COLON] + Http.Decimal(port), [COLON] + Http.Decimal(other);
    assert Printed(gs, port)[1..] == Text(gs) + [CLOSE] + p;
    assert Printed(hs, other)[1..] == Text(hs) + [CLOSE] + q;
    CutAtBracket(Text(gs), Text(hs), p, q);
    assert p[1..] == q[1..];
    ExpandText(gs);
    ExpandText(hs);
    DecimalRead(port);
    DecimalRead(other);
  }

  lemma {:induction false} CutAtBracket(x: seq<byte>, y: seq<byte>, p: seq<byte>, q: seq<byte>)
    requires CLOSE !in x && CLOSE !in y && x + [CLOSE] + p == y + [CLOSE] + q
    ensures x == y && p == q
    decreases |x|
  {
    var s, t := x + [CLOSE] + p, y + [CLOSE] + q;
    assert s[0] == if x == [] then CLOSE else x[0];
    assert t[0] == if y == [] then CLOSE else y[0];
    assert s[1..] == if x == [] then p else x[1..] + [CLOSE] + p;
    assert t[1..] == if y == [] then q else y[1..] + [CLOSE] + q;
    if x != [] && y != [] {
      CutAtBracket(x[1..], y[1..], p, q);
      assert x == [x[0]] + x[1..] && y == [y[0]] + y[1..];
    }
  }

  lemma {:induction false} JoinHasNoBracket(gs: seq<nat>)
    requires Groups(gs)
    ensures CLOSE !in Join(gs)
  {
    if gs != [] {
      HexPiece(gs[0]);
      JoinHasNoBracket(gs[1..]);
    }
  }

  lemma TextHasNoBracket(gs: seq<nat>)
    requires Groups(gs)
    ensures CLOSE !in Text(gs)
  {
    var a := FirstZero(gs);
    JoinHasNoBracket(gs);
    JoinHasNoBracket(gs[..a]);
    JoinHasNoBracket(gs[RunEnd(gs, a)..]);
  }
}
