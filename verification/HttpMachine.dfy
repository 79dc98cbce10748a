// The header part of the request parser: states 13 to 18 and 348 of the generated machine.

module HttpMachines {
  import opened Base
  import opened HttpHeaders

  // ---------------------------------------------------------------- the machine

  /** The machine over one buffer; fields are the pairs handed to on_request_http_field that it
      did not drop for an empty name. */
  datatype Machine = Machine(cs: nat, p: nat, mark: nat, fieldStart: nat, fieldLen: nat, bodyStart: nat,
                             stopped: bool, fields: seq<Field>)

  const ERROR := 0
  const FINAL := 348

  predicate HeaderState(cs: nat) { 13 <= cs <= 18 || cs == FINAL }

  /** The tests on a byte of a name, in the form of the generated code; char is signed. */
  predicate NameByte(c: byte) {
    var s := if c < 128 then c else c - 256;
    if s == 33 || s == 124 || s == 126 then true
    else if s < 42 then
      if s < 10 then 1 <= s <= 8 else if s > 31 then 35 <= s <= 39 else true
    else if s > 43 then
      if s < 48 then 45 <= s <= 46
      else if s > 57 then (if s > 90 then 94 <= s <= 122 else s >= 65)
      else true
    else true
  }

  /** The pointers stay in the buffer, and a field under way lies behind them. */
  predicate Ok(m: Machine, data: seq<byte>) {
    && m.p <= |data| && m.mark <= m.p && m.fieldStart <= m.p
    && (m.cs == 15 || m.cs == 16 ==> m.fieldStart + m.fieldLen <= m.p)
    && (data != [] ==> m.mark < |data| && m.fieldStart < |data|) && m.fieldLen <= |data|
    && (HeaderState(m.cs) || m.stopped)
  }

  function Fail(m: Machine): Machine { m.(cs := ERROR, stopped := true) }

  function Finish(m: Machine): Machine {
    m.(cs := FINAL, p := m.p + 1, bodyStart := m.p + 1, stopped := true)
  }

  function Goto(m: Machine, cs: nat): Machine { m.(cs := cs, p := m.p + 1) }

  /** The field action, then on to cs. */
  function Emit(m: Machine, data: seq<byte>, cs: nat): Machine
    requires Ok(m, data) && m.p < |data| && m.fieldStart + m.fieldLen <= m.p
  {
    var f := Field(data[m.fieldStart..m.fieldStart + m.fieldLen], data[m.mark..m.p]);
    Goto(m.(fields := if m.fieldLen == 0 then m.fields else m.fields + [f]), cs)
  }

  /** A byte of a name, or the colon that ends it. */
  function InName(m: Machine, c: byte): Machine
    requires m.fieldStart <= m.p
  {
    if c == 58 then Goto(m.(fieldLen := m.p - m.fieldStart), 15)
    else if NameByte(c) then Goto(m, 14)
    else Fail(m)
  }

  /** One byte. */
  function Step(m: Machine, data: seq<byte>): (r: Machine)
    requires Ok(m, data) && !m.stopped && m.p < |data|
    ensures Ok(r, data) && (r.p == m.p + 1 || (r.p == m.p && r.stopped))
  {
    var c := data[m.p];
    if m.cs == 13 then
      var marked := m.(fieldStart := m.p);
      if c == 10 then Finish(marked)
      else if c == 13 then Goto(marked, 18)
      else if NameByte(c) then Goto(marked, 14)
      else Fail(m)
    else if m.cs == 15 then
      var marked := m.(mark := m.p);
      if c == 0 || c == 127 then Fail(m)
      else if c == 9 || c == 32 then Goto(marked, 15)
      else if c == 10 then Emit(marked, data, 13)
      else if c == 13 then Emit(marked, data, 17)
      else Goto(marked, 16)
    else if m.cs == 16 then
      if c == 0 || c == 127 then Fail(m)
      else if c == 10 then Emit(m, data, 13)
      else if c == 13 then Emit(m, data, 17)
      else Goto(m, 16)
    else if m.cs == 17 then
      if c == 10 then Goto(m, 13) else Fail(m)
    else if m.cs == 18 && c == 10 then Finish(m)
    else InName(m, c)
  }

  /** Which bytes the machine refuses in which state. */
  lemma Refused(m: Machine, data: seq<byte>)
    requires Ok(m, data) && !m.stopped && m.p < |data| && 13 <= m.cs <= 18
    ensures var c := data[m.p];
            Step(m, data).cs == ERROR <==>
              if m.cs == 13 then c != 10 && c != 13 && !NameByte(c)
              else if m.cs == 15 || m.cs == 16 then c == 0 || c == 127
              else if m.cs == 17 then c != 10
              else c != 58 && !NameByte(c) && !(m.cs == 18 && c == 10)
  {
  }

  /** A bare line feed does what CR LF does: it ends a value, and it ends the header at the start of a line. */
  lemma LineFeed(m: Machine, head: seq<byte>)
    requires Ok(m, head + [10]) && !m.stopped && m.p == |head| && m.cs in {13, 15, 16}
    ensures var one, two := head + [10], head + [13, 10];
            && Ok(m, two) && !Step(m, two).stopped && Step(m, one).cs == (if m.cs == 13 then FINAL else 13)
            && Step(Step(m, two), two) ==
                 Step(m, one).(p := m.p + 2, bodyStart := if m.cs == 13 then m.p + 2 else m.bodyStart)
  {
    var one, two := head + [10], head + [13, 10];
    var from := if m.cs == 15 then m.p else m.mark;
    if m.cs != 13 {
      assert one[m.fieldStart..m.fieldStart + m.fieldLen] == two[m.fieldStart..m.fieldStart + m.fieldLen];
      assert one[from..m.p] == two[from..m.p];
    }
  }

  /** All bytes up to the end of the buffer, the end of the header or an error. */
  function Run(m: Machine, data: seq<byte>): (r: Machine)
    requires Ok(m, data)
    ensures Ok(r, data) && (r.stopped || r.p == |data|)
    decreases |data| - m.p, if m.stopped then 0 else 1
  {
    if m.stopped || m.p == |data| then m else Run(Step(m, data), data)
  }

  // ---------------------------------------------------------------- what comes through

  /** A token: section 3.2.6 of RFC 7230. */
  predicate TokenByte(c: byte) {
    || 48 <= c <= 57 || 65 <= c <= 90 || 97 <= c <= 122
    || c in [33, 35, 36, 37, 38, 39, 42, 43, 45, 46, 94, 95, 96, 124, 126]
  }

  predicate Token(s: seq<byte>) {
    s != [] && forall i :: 0 <= i < |s| ==> TokenByte(s[i])
  }

  /** Among the visible and the high bytes the machine takes exactly the token bytes; below
      space it takes more than the standard, all but NUL and tab. */
  lemma NameBytes(c: byte)
    ensures c >= 32 ==> (NameByte(c) <==> TokenByte(c))
    ensures c < 32 ==> (NameByte(c) <==> c != 0 && c != 9)
  {
  }

  predicate Clean(s: seq<byte>) {
    forall i :: 0 <= i < |s| ==> s[i] !in [0, 10, 13, 127]
  }

  predicate Blank(c: byte) { c == 9 || c == 32 }

  /** The value without its leading blanks. */
  function Trim(s: seq<byte>): (r: seq<byte>)
    ensures |r| <= |s|
  {
    if s != [] && Blank(s[0]) then Trim(s[1..]) else s
  }

  lemma {:induction false} TrimFacts(s: seq<byte>)
    ensures Trim(s) == s[|s| - |Trim(s)|..] && (Trim(s) != [] ==> !Blank(Trim(s)[0]))
    ensures forall i :: 0 <= i < |s| - |Trim(s)| ==> Blank(s[i])
  {
    if s != [] && Blank(s[0]) {
      TrimFacts(s[1..]);
    }
  }

  lemma TrimSpace(s: seq<byte>)
    ensures Trim([32] + s) == Trim(s)
  {
    assert ([32] + s)[1..] == s;
  }

  predicate Printable(f: Field) { Token(f.name) && Clean(f.value) }

  function Trimmed(fs: seq<Field>): seq<Field> {
    if fs == [] then [] else [Field(fs[0].name, Trim(fs[0].value))] + Trimmed(fs[1..])
  }

  /** Token bytes from one place up to another. */
  predicate Tokens(data: seq<byte>, from: nat, to: nat) {
    to <= |data| && forall i :: from <= i < to ==> TokenByte(data[i])
  }

  lemma {:induction false} RunName(m: Machine, data: seq<byte>, n: nat, r: Machine)
    requires Ok(m, data) && m.cs == 14 && !m.stopped && m.p + n <= |data| && Tokens(data, m.p, m.p + n)
    requires r == m.(p := m.p + n)
    ensures Ok(r, data) && Run(m, data) == Run(r, data)
    decreases n
  {
    if n > 0 {
      NextNameByte(m, data);
      RunName(m.(p := m.p + 1), data, n - 1, r);
    }
  }

  /** One more byte of a name. */
  lemma NextNameByte(m: Machine, data: seq<byte>)
    requires Ok(m, data) && m.cs == 14 && !m.stopped && m.p < |data| && TokenByte(data[m.p])
    ensures Ok(m.(p := m.p + 1), data) && Run(m, data) == Run(m.(p := m.p + 1), data)
  {
    NameBytes(data[m.p]);
    assert Step(m, data) == m.(p := m.p + 1);
  }

  lemma {:induction false} RunBlanks(m: Machine, data: seq<byte>, n: nat, r: Machine)
    requires Ok(m, data) && m.cs == 15 && !m.stopped && m.p + n <= |data|
    requires forall i :: m.p <= i < m.p + n ==> Blank(data[i])
    requires r == m.(p := m.p + n, mark := if n == 0 then m.mark else m.p + n - 1)
    ensures Ok(r, data) && Run(m, data) == Run(r, data)
    decreases n
  {
    if n > 0 {
      BlankByte(m, data);
      RunBlanks(m.(p := m.p + 1, mark := m.p), data, n - 1, r);
    }
  }

  /** One more blank before a value. */
  lemma BlankByte(m: Machine, data: seq<byte>)
    requires Ok(m, data) && m.cs == 15 && !m.stopped && m.p < |data| && Blank(data[m.p])
    ensures Ok(m.(p := m.p + 1, mark := m.p), data) && Run(m, data) == Run(m.(p := m.p + 1, mark := m.p), data)
  {
    assert Step(m, data) == m.(p := m.p + 1, mark := m.p);
  }

  lemma {:induction false} RunValue(m: Machine, data: seq<byte>, n: nat, r: Machine)
    requires Ok(m, data) && m.cs == 16 && !m.stopped && m.p + n <= |data|
    requires forall i :: m.p <= i < m.p + n ==> data[i] !in [0, 10, 13, 127]
    requires r == m.(p := m.p + n)
    ensures Ok(r, data) && Run(m, data) == Run(r, data)
    decreases n
  {
    if n > 0 {
      ValueByte(m, data);
      RunValue(m.(p := m.p + 1), data, n - 1, r);
    }
  }

  /** One more byte of a value. */
  lemma ValueByte(m: Machine, data: seq<byte>)
    requires Ok(m, data) && m.cs == 16 && !m.stopped && m.p < |data| && data[m.p] !in [0, 10, 13, 127]
    ensures Ok(m.(p := m.p + 1), data) && Run(m, data) == Run(m.(p := m.p + 1), data)
  {
    assert Step(m, data) == m.(p := m.p + 1);
  }

  /** The first byte of a name. */
  lemma StartName(m: Machine, data: seq<byte>)
    requires Ok(m, data) && m.cs == 13 && !m.stopped && m.p < |data| && TokenByte(data[m.p])
    ensures Ok(m.(cs := 14, p := m.p + 1, fieldStart := m.p), data)
    ensures Run(m, data) == Run(m.(cs := 14, p := m.p + 1, fieldStart := m.p), data)
  {
    NameBytes(data[m.p]);
    assert Step(m, data) == m.(cs := 14, p := m.p + 1, fieldStart := m.p);
  }

  /** The colon behind a name. */
  lemma Colon(m: Machine, data: seq<byte>) returns (r: Machine)
    requires Ok(m, data) && m.cs == 14 && !m.stopped && m.p < |data| && data[m.p] == 58
    ensures Ok(r, data) && Run(m, data) == Run(r, data)
    ensures r == m.(cs := 15, p := m.p + 1, fieldLen := m.p - m.fieldStart)
  {
    r := Step(m, data);
  }

  /** The rest of a name and its colon. */
  lemma NameAndColon(m: Machine, data: seq<byte>, n: nat, q: nat) returns (r: Machine)
    requires Ok(m, data) && m.cs == 14 && !m.stopped && q == m.p + n + 1 && q <= |data| && data[q - 1] == 58
    requires forall i :: m.p <= i < m.p + n ==> TokenByte(data[i])
    ensures Ok(r, data) && Run(m, data) == Run(r, data)
    ensures r == m.(cs := 15, p := q, fieldLen := q - 1 - m.fieldStart)
  {
    RunName(m, data, n, m.(p := q - 1));
    r := Colon(m.(p := q - 1), data);
  }

  /** A name and its colon. */
  lemma RunToColon(m: Machine, data: seq<byte>, name: seq<byte>, q: nat) returns (r: Machine)
    requires q == m.p + |name| + 1 && Ok(m, data) && m.cs == 13 && !m.stopped && Token(name) && At(data, m.p, name + [58])
    ensures Ok(r, data) && Run(m, data) == Run(r, data)
    ensures r == m.(cs := 15, p := q, fieldStart := m.p, fieldLen := |name|) && Named(r, data, name)
  {
    NameAt(data, m.p, name, q);
    StartName(m, data);
    var m1 := m.(cs := 14, p := m.p + 1, fieldStart := m.p);
    r := NameAndColon(m1, data, |name| - 1, q);
  }

  /** A name and its colon in the buffer. */
  lemma NameAt(data: seq<byte>, p: nat, name: seq<byte>, q: nat)
    requires q == p + |name| + 1 && Token(name) && At(data, p, name + [58])
    ensures q <= |data| && data[q - 1] == 58 && data[p..p + |name|] == name
    ensures forall i :: p <= i < p + |name| ==> TokenByte(data[i])
  {
    AtBoth(data, p, name, [58]);
    forall i | p <= i < p + |name| ensures TokenByte(data[i]) {
      assert data[i] == data[p..p + |name|][i - p];
    }
    assert data[p + |name|] == data[p + |name|..p + |name| + 1][0];
  }

  /** What the field action would hand over as the name. */
  predicate Named(m: Machine, data: seq<byte>, name: seq<byte>) {
    m.fieldStart + m.fieldLen <= |data| && data[m.fieldStart..m.fieldStart + m.fieldLen] == name
  }

  /** The line break behind a value emits the field. */
  lemma RunLineBreak(m: Machine, data: seq<byte>, f: Field, from: nat) returns (r: Machine)
    requires Ok(m, data) && (m.cs == 15 || m.cs == 16) && !m.stopped && m.fieldLen > 0
    requires m.p + 2 <= |data| && data[m.p] == 13 && data[m.p + 1] == 10
    requires from == (if m.cs == 15 then m.p else m.mark) && Named(m, data, f.name) && data[from..m.p] == f.value
    ensures Ok(r, data) && Run(m, data) == Run(r, data)
    ensures r == m.(cs := 13, p := m.p + 2, mark := from, fields := m.fields + [f])
  {
    var m1 := Step(m, data);
    assert m1.cs == 17 && !m1.stopped;
    r := Step(m1, data);
  }

  /** The first byte of a value that is not a blank. */
  lemma ValueStarts(m: Machine, data: seq<byte>)
    requires Ok(m, data) && m.cs == 15 && !m.stopped && m.p < |data|
    requires data[m.p] !in [0, 10, 13, 127] && !Blank(data[m.p])
    ensures Ok(m.(cs := 16, p := m.p + 1, mark := m.p), data)
    ensures Run(m, data) == Run(m.(cs := 16, p := m.p + 1, mark := m.p), data)
  {
    assert Step(m, data) == m.(cs := 16, p := m.p + 1, mark := m.p);
  }

  /** Blanks and then the rest of a value. */
  lemma RunBlanksThenValue(m: Machine, data: seq<byte>, lead: nat, n: nat) returns (r: Machine)
    requires Ok(m, data) && m.cs == 15 && !m.stopped && m.p + lead + n <= |data|
    requires forall i :: m.p <= i < m.p + lead ==> Blank(data[i])
    requires forall i :: m.p + lead <= i < m.p + lead + n ==> data[i] !in [0, 10, 13, 127]
    requires n > 0 ==> !Blank(data[m.p + lead])
    ensures Ok(r, data) && Run(m, data) == Run(r, data)
    ensures r == if n > 0 then m.(cs := 16, p := m.p + lead + n, mark := m.p + lead)
                 else m.(p := m.p + lead, mark := if lead == 0 then m.mark else m.p + lead - 1)
  {
    r := m.(p := m.p + lead, mark := if lead == 0 then m.mark else m.p + lead - 1);
    RunBlanks(m, data, lead, r);
    if n > 0 { r := WholeValue(r, data, n); }
  }

  /** A value from its first byte on. */
  lemma WholeValue(m: Machine, data: seq<byte>, n: nat) returns (r: Machine)
    requires Ok(m, data) && m.cs == 15 && !m.stopped && n > 0 && m.p + n <= |data| && !Blank(data[m.p])
    requires forall i :: m.p <= i < m.p + n ==> data[i] !in [0, 10, 13, 127]
    ensures Ok(r, data) && Run(m, data) == Run(r, data) && r == m.(cs := 16, p := m.p + n, mark := m.p)
  {
    ValueStarts(m, data);
    var m1 := m.(cs := 16, p := m.p + 1, mark := m.p);
    r := m1.(p := m.p + n);
    RunValue(m1, data, n - 1, r);
  }

  /** A value in the buffer: its blanks, the rest, and the line break. */
  lemma ValueAt(data: seq<byte>, p: nat, value: seq<byte>, start: nat, end: nat)
    requires Clean(value) && At(data, p, value) && At(data, p + |value|, CRLF)
    requires end == p + |value| && start == end - |Trim(value)|
    ensures forall i :: p <= i < start ==> Blank(data[i])
    ensures forall i :: start <= i < end ==> data[i] !in [0, 10, 13, 127]
    ensures start < end ==> !Blank(data[start])
    ensures data[start..end] == Trim(value)
    ensures end + 2 <= |data| && data[end] == 13 && data[end + 1] == 10
  {
    TrimFacts(value);
    forall i | p <= i < end ensures data[i] == value[i - p] {
      assert data[i] == data[p..p + |value|][i - p];
    }
    assert data[end] == data[end..end + 2][0] == 13 && data[end + 1] == data[end..end + 2][1] == 10;
  }

  /** A value up to its line break. */
  lemma RunToBreak(m: Machine, data: seq<byte>, value: seq<byte>, start: nat, end: nat) returns (r: Machine)
    requires Ok(m, data) && m.cs == 15 && !m.stopped && Clean(value)
    requires At(data, m.p, value) && At(data, end, CRLF) && end == m.p + |value| && start == end - |Trim(value)|
    ensures Ok(r, data) && Run(m, data) == Run(r, data) && r.p == end && !r.stopped
    ensures (r.cs == 15 || r.cs == 16) && start == (if r.cs == 15 then r.p else r.mark) && data[start..end] == Trim(value)
    ensures r.fieldStart == m.fieldStart && r.fieldLen == m.fieldLen && r.fields == m.fields
    ensures end + 2 <= |data| && data[end] == 13 && data[end + 1] == 10
  {
    ValueAt(data, m.p, value, start, end);
    r := RunBlanksThenValue(m, data, start - m.p, end - start);
  }

  /** A value, from behind the colon to the end of its line. */
  lemma RunToLineEnd(m: Machine, data: seq<byte>, f: Field, q: nat) returns (r: Machine)
    requires q == m.p && Ok(m, data) && m.cs == 15 && !m.stopped && m.fieldLen > 0
    requires Named(m, data, f.name) && Clean(f.value)
    requires At(data, q, f.value) && At(data, q + |f.value|, CRLF)
    ensures Ok(r, data) && Run(m, data) == Run(r, data)
    ensures r.cs == 13 && !r.stopped && r.p == q + |f.value| + 2
    ensures r.fields == m.fields + [Field(f.name, Trim(f.value))]
  {
    var end: nat := q + |f.value|;
    var start: nat := end - |Trim(f.value)|;
    var m1 := RunToBreak(m, data, f.value, start, end);
    r := RunLineBreak(m1, data, Field(f.name, Trim(f.value)), start);
  }

  lemma LineParts(data: seq<byte>, p: nat, f: Field, q: nat, end: nat)
    requires At(data, p, Line(f)) && q == p + |f.name| + 1 && end == q + 1 + |f.value|
    ensures At(data, p, f.name + [58]) && At(data, p, f.name)
    ensures At(data, q, [32] + f.value) && At(data, end, CRLF)
  {
    var head, v := f.name + [58], [32] + f.value;
    assert Line(f) == head + (v + CRLF);
    AtBoth(data, p, head, v + CRLF);
    AtBoth(data, p, f.name, [58]);
    AtBoth(data, q, v, CRLF);
  }

  /** One printed line gives one field, its value without leading blanks. */
  lemma RunLine(m: Machine, data: seq<byte>, f: Field) returns (r: Machine)
    requires Ok(m, data) && m.cs == 13 && !m.stopped && Printable(f) && At(data, m.p, Line(f))
    ensures Ok(r, data) && Run(m, data) == Run(r, data)
    ensures r.cs == 13 && !r.stopped && r.p == m.p + |Line(f)|
    ensures r.fields == m.fields + [Field(f.name, Trim(f.value))]
  {
    var g := Field(f.name, [32] + f.value);
    var q := m.p + |f.name| + 1;
    LineParts(data, m.p, f, q, q + |g.value|);
    var m1 := RunToColon(m, data, f.name, q);
    TrimSpace(f.value);
    assert Clean(g.value);
    r := RunToLineEnd(m1, data, g, q);
  }

  lemma TrimmedStep(done: seq<Field>, fs: seq<Field>)
    requires fs != []
    ensures done + [Field(fs[0].name, Trim(fs[0].value))] + Trimmed(fs[1..]) == done + Trimmed(fs)
  {
  }

  /** Printed lines give their fields, in order. */
  lemma {:induction false} RunLines(m: Machine, data: seq<byte>, fs: seq<Field>, end: nat) returns (r: Machine)
    requires Ok(m, data) && m.cs == 13 && !m.stopped && At(data, m.p, Lines(fs)) && end == m.p + |Lines(fs)|
    requires forall f :: f in fs ==> Printable(f)
    ensures Ok(r, data) && Run(m, data) == Run(r, data)
    ensures r.cs == 13 && !r.stopped && r.p == end && r.fields == m.fields + Trimmed(fs)
    decreases fs
  {
    if fs == [] {
      r := m;
    } else {
      AtBoth(data, m.p, Line(fs[0]), Lines(fs[1..]));
      var next := RunLine(m, data, fs[0]);
      r := RunLines(next, data, fs[1..], end);
      TrimmedStep(m.fields, fs);
    }
  }

  /** A printed block of header lines is taken whole: the fields come out in order, the machine
      stops in its final state just behind the blank line, and there the body starts. */
  lemma RunBlock(m: Machine, data: seq<byte>, fs: seq<Field>)
    requires Ok(m, data) && m.cs == 13 && !m.stopped && At(data, m.p, Lines(fs) + CRLF)
    requires forall f :: f in fs ==> Printable(f)
    ensures var r := Run(m, data);
            && r.cs == FINAL && r.stopped && r.fields == m.fields + Trimmed(fs)
            && r.p == r.bodyStart == m.p + |Lines(fs)| + 2
  {
    AtBoth(data, m.p, Lines(fs), CRLF);
    var r := RunLines(m, data, fs, m.p + |Lines(fs)|);
    assert data[r.p] == data[r.p..r.p + 2][0] == 13 && data[r.p + 1] == data[r.p..r.p + 2][1] == 10;
    var m1 := Step(r, data);
    assert Run(r, data) == Run(m1, data) == Run(Step(m1, data), data);
  }

  // ---------------------------------------------------------------- printing and parsing

  lemma {:induction false} TrimmedSame(fs: seq<Field>)
    ensures |Trimmed(fs)| == |fs|
    ensures Trimmed(fs) == fs <==> Unblanked(fs)
  {
    if fs != [] {
      TrimmedSame(fs[1..]);
      UnblankedStep(fs);
      assert Trimmed(fs)[1..] == Trimmed(fs[1..]);
      assert Trimmed(fs) == fs <==> Trimmed(fs)[0] == fs[0] && Trimmed(fs[1..]) == fs[1..] by {
        assert fs == [fs[0]] + fs[1..];
      }
      TrimFacts(fs[0].value);
    }
  }

  predicate Unblanked(h: seq<Field>) {
    forall i :: 0 <= i < |h| ==> h[i].value == [] || !Blank(h[i].value[0])
  }

  lemma UnblankedStep(fs: seq<Field>)
    requires fs != []
    ensures Unblanked(fs) <==> (fs[0].value == [] || !Blank(fs[0].value[0])) && Unblanked(fs[1..])
  {
    if Unblanked(fs[1..]) {
      forall i | 0 < i < |fs| ensures fs[i].value == [] || !Blank(fs[i].value[0]) {
        assert fs[i] == fs[1..][i - 1];
      }
    }
  }

  lemma UnblankedAppend(xs: seq<Field>, ys: seq<Field>)
    ensures Unblanked(xs + ys) <==> Unblanked(xs) && Unblanked(ys)
  {
    if Unblanked(xs + ys) {
      forall i | 0 <= i < |xs| ensures xs[i].value == [] || !Blank(xs[i].value[0]) {
        assert (xs + ys)[i] == xs[i];
      }
      forall i | 0 <= i < |ys| ensures ys[i].value == [] || !Blank(ys[i].value[0]) {
        assert (xs + ys)[|xs| + i] == ys[i];
      }
    }
  }

  lemma {:induction false} DecimalPlain(n: nat)
    ensures Clean(Decimal(n)) && Decimal(n) != [] && !Blank(Decimal(n)[0])
  {
    if n >= 10 {
      DecimalPlain(n / 10);
    }
  }

  /** The lines dump adds are as well formed as the ones it prints from the map. */
  lemma AddedLines(closing: bool, n: nat)
    ensures Printable(Connection(closing)) && Unblanked([Connection(closing)])
    ensures Printable(Length(n)) && Unblanked([Length(n)])
  {
    DecimalPlain(n);
  }

  lemma ListedWellFormed(h: seq<Field>, websocket: bool, closing: bool, body: seq<byte>)
    requires forall f :: f in h ==> Printable(f)
    ensures forall f :: f in Listed(h, websocket, closing, body) ==> Printable(f)
    ensures Unblanked(Listed(h, websocket, closing, body)) <==> Unblanked(Kept(h, websocket))
  {
    var first := if websocket then [] else [Connection(closing)];
    var last := if body == [] then [] else [Length(|body|)];
    AddedLines(closing, |body|);
    UnblankedAppend(first + Kept(h, websocket), last);
    UnblankedAppend(first, Kept(h, websocket));
  }

  /** The header round trip. Whatever stands around it in the buffer, the block that dump prints
      for a request is taken whole: the machine stops in its final state at the body, and hands
      over every printed name with its value less leading blanks, in order. The pairs are the
      printed ones exactly when no value starts with a blank. */
  lemma HeaderRoundTrip(m: Machine, data: seq<byte>, h: seq<Field>, websocket: bool, closing: bool, body: seq<byte>)
    requires Ok(m, data) && m.cs == 13 && !m.stopped && At(data, m.p, Block(h, websocket, closing, body))
    requires forall f :: f in h ==> Printable(f)
    ensures var r, fs := Run(m, data), Listed(h, websocket, closing, body);
            && r.cs == FINAL && r.fields == m.fields + Trimmed(fs) && r.p == r.bodyStart
            && At(data, r.bodyStart, body)
            && (Trimmed(fs) == fs <==> Unblanked(Kept(h, websocket)))
  {
    var fs := Listed(h, websocket, closing, body);
    ListedWellFormed(h, websocket, closing, body);
    TrimmedSame(fs);
    BodyBehindBlock(m, data, fs, body);
  }

  lemma BodyBehindBlock(m: Machine, data: seq<byte>, fs: seq<Field>, body: seq<byte>)
    requires Ok(m, data) && m.cs == 13 && !m.stopped && At(data, m.p, Lines(fs) + CRLF + body)
    requires forall f :: f in fs ==> Printable(f)
    ensures var r := Run(m, data);
            && r.cs == FINAL && r.fields == m.fields + Trimmed(fs) && r.p == r.bodyStart && At(data, r.bodyStart, body)
  {
    AtBoth(data, m.p, Lines(fs) + CRLF, body);
    RunBlock(m, data, fs);
  }

  lemma FieldsAreListed(m: Machine, data: seq<byte>, h: seq<Field>, websocket: bool, closing: bool, body: seq<byte>)
    requires Ok(m, data) && m.cs == 13 && !m.stopped && m.fields == [] && At(data, m.p, Block(h, websocket, closing, body))
    requires (forall f :: f in h ==> Printable(f)) && Unblanked(h)
    ensures Run(m, data).fields == Listed(h, websocket, closing, body)
  {
    var kept := Kept(h, websocket);
    forall i | 0 <= i < |kept| ensures kept[i].value == [] || !Blank(kept[i].value[0]) {
      assert kept[i] in h;
    }
    HeaderRoundTrip(m, data, h, websocket, closing, body);
  }

  /** Sending a request and parsing it rebuilds the header map: every header that was set, and
      the connection and connect-length lines that dump adds. */
  lemma RequestRoundTrip(m: Machine, data: seq<byte>, h: seq<Field>, websocket: bool, closing: bool,
                         body: seq<byte>, q: seq<byte>)
    requires Ok(m, data) && m.cs == 13 && !m.stopped && m.fields == [] && At(data, m.p, Block(h, websocket, closing, body))
    requires Sorted(h) && (forall f :: f in h ==> Printable(f)) && Unblanked(h)
    ensures var r := Rebuild([], Run(m, data).fields);
            && Sorted(r)
            && Get(r, q) ==
                 if body != [] && SameName(q, CONNECT_LENGTH) then Some(Decimal(|body|))
                 else if !websocket && SameName(q, CONNECTION) then Some(if closing then CLOSE else KEEP_ALIVE)
                 else Get(h, q)
  {
    FieldsAreListed(m, data, h, websocket, closing, body);
    RebuiltMap(h, websocket, closing, body, q);
  }

  // ---------------------------------------------------------------- the parser object

  class HeaderParser {
    var cs: nat
    var mark: nat
    var fieldStart: nat
    var fieldLen: nat
    var bodyStart: nat
    var nread: nat
    const request: HttpRequest
    ghost var emitted: seq<Field>     // what went to setHeader in this call

    constructor (cs: nat, request: HttpRequest)
      requires HeaderState(cs)
      ensures this.cs == cs && this.request == request && bodyStart == 0
    {
      this.cs, this.request := cs, request;
      mark, fieldStart, fieldLen, bodyStart, nread, emitted := 0, 0, 0, 0, 0, [];
    }

    /** The machine this object is, with the pointer at p. */
    ghost function View(p: nat, out: bool): Machine
      reads this
    {
      Machine(cs, p, mark, fieldStart, fieldLen, bodyStart, out, emitted)
    }

    /** on_request_http_field: a pair with an empty name is dropped. */
    method OnField(name: seq<byte>, value: seq<byte>)
      requires Sorted(request.headers)
      modifies this`emitted, request`headers
      ensures Sorted(request.headers)
      ensures emitted == if name == [] then old(emitted) else old(emitted) + [Field(name, value)]
      ensures request.headers == if name == [] then old(request.headers) else Set(old(request.headers), name, value)
    {
      if |name| == 0 {
        return;
      }
      request.SetHeader(name, value);
      emitted := emitted + [Field(name, value)];
    }

    /** States 15 and 16, in the value. */
    method InValue(data: seq<byte>, at: nat) returns (p: nat, out: bool)
      requires at < |data| && Ok(View(at, false), data) && (cs == 15 || cs == 16) && Sorted(request.headers)
      modifies this`cs, this`mark, this`emitted, request`headers
      ensures View(p, out) == Step(old(View(at, false)), data) && Sorted(request.headers)
      ensures old(emitted) <= emitted
      ensures request.headers == Rebuild(old(request.headers), emitted[|old(emitted)|..])
    {
      p, out := at, false;
      var c := data[p];
      assert emitted[|emitted|..] == [];
      if c == 0 || c == 127 {
        cs, out := ERROR, true;
        return;
      }
      if cs == 15 {
        mark := p;
      }
      if c == 10 || c == 13 {
        OnField(data[fieldStart..fieldStart + fieldLen], data[mark..p]);
        cs := if c == 10 then 13 else 17;
      } else if cs == 15 && c != 9 && c != 32 {
        cs := 16;
      }
      p := p + 1;
    }

    /** The other states: the start of a line, a name, and the line breaks. */
    method OutsideValue(data: seq<byte>, at: nat) returns (p: nat, out: bool)
      requires at < |data| && Ok(View(at, false), data) && cs != 15 && cs != 16
      modifies this`cs, this`fieldStart, this`fieldLen, this`bodyStart
      ensures View(p, out) == Step(old(View(at, false)), data)
    {
      p, out := at, false;
      var c := data[p];
      if cs == 13 {
        if c == 10 {
          fieldStart := p;
          bodyStart := p + 1;
          p, cs, out := p + 1, FINAL, true;
        } else if c == 13 {
          fieldStart := p;
          cs, p := 18, p + 1;
        } else if NameByte(c) {
          fieldStart := p;
          cs, p := 14, p + 1;
        } else {
          cs, out := ERROR, true;
        }
      } else if cs == 17 {
        if c == 10 {
          cs, p := 13, p + 1;
        } else {
          cs, out := ERROR, true;
        }
      } else if cs == 18 && c == 10 {
        bodyStart := p + 1;
        p, cs, out := p + 1, FINAL, true;
      } else if c == 58 {
        fieldLen := p - fieldStart;
        cs, p := 15, p + 1;
      } else if NameByte(c) {
        cs, p := 14, p + 1;
      } else {
        cs, out := ERROR, true;
      }
    }

    /** One byte, in any state. */
    method OneByte(data: seq<byte>, at: nat) returns (p: nat, out: bool)
      requires at < |data| && Ok(View(at, false), data) && Sorted(request.headers)
      modifies this`cs, this`mark, this`fieldStart, this`fieldLen, this`bodyStart, this`emitted, request`headers
      ensures View(p, out) == Step(old(View(at, false)), data) && Sorted(request.headers)
      ensures old(emitted) <= emitted
      ensures request.headers == Rebuild(old(request.headers), emitted[|old(emitted)|..])
    {
      if cs == 15 || cs == 16 {
        p, out := InValue(data, at);
      } else {
        p, out := OutsideValue(data, at);
      }
    }

    /** http_parser_execute from a header state: the marks are reset, the bytes are run through
        the machine, and the header map takes every field in turn. */
    method Execute(data: seq<byte>) returns (n: nat)
      requires HeaderState(cs) && Sorted(request.headers)
      modifies this, request`headers
      ensures data == [] ==> n == 0 && cs == old(cs) && request.headers == old(request.headers)
      ensures data != [] ==> var r := Run(Machine(old(cs), 0, 0, 0, 0, old(bodyStart), false, []), data);
                && View(n, r.stopped) == r && n == nread
                && request.headers == Rebuild(old(request.headers), r.fields)
                && mark < |data| && fieldStart < |data| && fieldLen <= |data| && nread <= |data|
      ensures Sorted(request.headers)
    {
      if |data| == 0 {
        return 0;
      }
      nread, mark, fieldLen, fieldStart := 0, 0, 0, 0;
      emitted := [];
      ghost var goal := Run(View(0, false), data);
      var p, out := 0, false;
      while p < |data| && !out
        invariant Ok(View(p, out), data) && Run(View(p, out), data) == goal
        invariant Sorted(request.headers) && request.headers == Rebuild(old(request.headers), emitted)
        decreases |data| - p, !out
      {
        ghost var before := emitted;
        p, out := OneByte(data, p);
        RebuildAppend(old(request.headers), before, emitted[|before|..]);
        assert emitted == before + emitted[|before|..];
      }
      nread := p;
      n := nread;
    }
  }

  lemma {:induction false} RebuildAppend(h: seq<Field>, xs: seq<Field>, ys: seq<Field>)
    ensures Rebuild(h, xs + ys) == Rebuild(Rebuild(h, xs), ys)
    decreases xs
  {
    if xs == [] {
      assert xs + ys == ys;
    } else {
      assert (xs + ys)[1..] == xs[1..] + ys;
      RebuildAppend(Set(h, xs[0].name, xs[0].value), xs[1..], ys);
    }
  }
}
