// Splitting a header between two calls of the parser. Each call resets the marks, so a line that
// is under way at the split may come out differently.

module HttpSplits {
  import opened Base
  import opened HttpHeaders
  import opened HttpMachines
  import HttpSessions

  // ---------------------------------------------------------------- the control of the machine

  /** Where one byte takes the machine, whatever its pointers are. */
  function Delta(cs: nat, c: byte): nat {
    if 13 <= cs <= 18 then Step(Machine(cs, 0, 0, 0, 0, 0, false, []), [c]).cs else ERROR
  }

  lemma StepControl(m: Machine, data: seq<byte>)
    requires Ok(m, data) && !m.stopped && m.p < |data| && 13 <= m.cs <= 18
    ensures var r, to := Step(m, data), Delta(m.cs, data[m.p]);
            && r.cs == to && r.stopped == (to == 0 || to >= 348) && r.p == (if to == 0 then m.p else m.p + 1)
            && (to == 0 || 13 <= to <= 18 || to == 348)
  {
    assert [data[m.p]][0] == data[m.p];
  }

  /** The control that the receiving loop is stated over, run on this machine's transitions, is the
      machine's own: it ends in the same state, having taken as many bytes. */
  lemma {:induction false} RunIsParse(m: Machine, data: seq<byte>)
    requires Ok(m, data) && !m.stopped && 13 <= m.cs <= 18
    ensures var q := HttpSessions.Parse(Delta, m.cs, data[m.p..]);
            Run(m, data).cs == q.cs && Run(m, data).p == m.p + q.taken
    decreases |data| - m.p
  {
    if m.p < |data| {
      var r := Step(m, data);
      StepControl(m, data);
      assert data[m.p..][1..] == data[m.p + 1..];
      if !r.stopped {
        RunIsParse(r, data);
      } else {
        assert Run(m, data) == r;
      }
    }
  }

  /** The machine at the start of a call: the marks are reset, the state is where the last call
      ended. */
  function Started(cs: nat, bodyStart: nat): Machine { Machine(cs, 0, 0, 0, 0, bodyStart, false, []) }

  /** The line under way at state cs is ended by s: its field action is reached before an error, the
      end of the header or the end of s. */
  predicate Completes(cs: nat, s: seq<byte>)
    decreases s
  {
    s != [] &&
    var c := s[0];
    if cs == 15 || cs == 16 then
      c != 0 && c != 127 &&
      (c == 10 || c == 13 || Completes(if cs == 15 && Blank(c) then 15 else 16, s[1..]))
    else if cs == 18 && c == 10 then false
    else if c == 58 then Completes(15, s[1..])
    else NameByte(c) && Completes(14, s[1..])
  }

  // ---------------------------------------------------------------- one call

  lemma StepWider(m: Machine, x: seq<byte>, y: seq<byte>)
    requires Ok(m, x) && !m.stopped && m.p < |x|
    ensures Ok(m, x + y) && Step(m, x + y) == Step(m, x)
  {
    assert (x + y)[m.p] == x[m.p];
    if m.fieldStart + m.fieldLen <= m.p {
      assert (x + y)[m.fieldStart..m.fieldStart + m.fieldLen] == x[m.fieldStart..m.fieldStart + m.fieldLen];
    }
    assert (x + y)[m.mark..m.p] == x[m.mark..m.p];
    assert (x + y)[m.p..m.p] == x[m.p..m.p];
  }

  /** One call on x and y runs through the state in which a call on x alone stops for want of bytes. */
  lemma {:induction false} RunThrough(m: Machine, x: seq<byte>, y: seq<byte>)
    requires Ok(m, x) && x != [] && !Run(m, x).stopped
    ensures Ok(m, x + y) && Ok(Run(m, x), x + y) && Run(m, x + y) == Run(Run(m, x), x + y)
    decreases |x| - m.p
  {
    if m.p < |x| && !m.stopped {
      StepWider(m, x, y);
      if Step(m, x).p > m.p {
        RunThrough(Step(m, x), x, y);
      }
    }
  }

  /** A call that has taken a byte and not stopped is not in the final state. */
  lemma {:induction false} NotFinal(m: Machine, x: seq<byte>)
    requires Ok(m, x) && !Run(m, x).stopped && (m.p < |x| || 13 <= m.cs <= 18)
    ensures 13 <= Run(m, x).cs <= 18
    decreases |x| - m.p
  {
    if m.p < |x| {
      NotFinal(Step(m, x), x);
    }
  }

  // ---------------------------------------------------------------- two machines, side by side

  /** a runs over x + y, b over y alone; both are at the same byte in the same state, and what the
      line under way has to hand over is the same. */
  predicate Alike(a: Machine, b: Machine, k: nat) {
    && a.cs == b.cs && a.p == b.p + k && a.stopped == b.stopped
    && (a.stopped || match a.cs
        case 14 => a.fieldStart == b.fieldStart + k
        case 18 => a.fieldStart == b.fieldStart + k
        case 348 => a.fieldStart == b.fieldStart + k
        case 15 => SameField(a, b, k)
        case 16 => SameField(a, b, k) && (a.fieldLen == 0 || a.mark == b.mark + k)
        case _ => true)
  }

  predicate SameField(a: Machine, b: Machine, k: nat) {
    a.fieldLen == b.fieldLen && (a.fieldLen == 0 || a.fieldStart == b.fieldStart + k)
  }

  /** What a run adds to the fields. */
  function Added(m: Machine, r: Machine): seq<Field>
    requires |m.fields| <= |r.fields|
  {
    r.fields[|m.fields|..]
  }

  lemma {:induction false} OnlyAdds(m: Machine, data: seq<byte>)
    requires Ok(m, data)
    ensures m.fields <= Run(m, data).fields
    decreases |data| - m.p, !m.stopped
  {
    if !m.stopped && m.p < |data| {
      OnlyAdds(Step(m, data), data);
    }
  }

  lemma AddedThrough(m: Machine, m': Machine, r: Machine)
    requires m.fields <= m'.fields <= r.fields
    ensures Added(m, r) == Added(m, m') + Added(m', r)
  {
  }

  lemma DifferStill(u: seq<Field>, v: seq<Field>, d: seq<Field>)
    ensures u + d == v + d <==> u == v
  {
    if u + d == v + d {
      assert |u| == |v|;
      assert u == (u + d)[..|u|] && v == (v + d)[..|v|];
    }
  }

  /** The same fields come out of the same bytes. */
  lemma SameSlices(x: seq<byte>, y: seq<byte>, from: nat, to: nat)
    requires from <= to <= |y|
    ensures (x + y)[from + |x|..to + |x|] == y[from..to]
  {
  }

  /** What the line break behind a value hands over. */
  function Ended(m: Machine, data: seq<byte>): seq<Field>
    requires Ok(m, data) && (m.cs == 15 || m.cs == 16)
  {
    var from := if m.cs == 15 then m.p else m.mark;
    if m.fieldLen == 0 then [] else [Field(data[m.fieldStart..m.fieldStart + m.fieldLen], data[from..m.p])]
  }

  lemma EndOfLine(m: Machine, data: seq<byte>)
    requires Ok(m, data) && !m.stopped && m.p < |data| && (m.cs == 15 || m.cs == 16) && data[m.p] in {10, 13}
    ensures Step(m, data).fields == m.fields + Ended(m, data) && Added(m, Step(m, data)) == Ended(m, data)
    ensures m.fieldLen > 0 ==> |Ended(m, data)[0].name| == m.fieldLen
  {
  }

  lemma SameEnd(a: Machine, b: Machine, x: seq<byte>, y: seq<byte>)
    requires Ok(a, x + y) && Ok(b, y) && Alike(a, b, |x|) && !b.stopped && (b.cs == 15 || b.cs == 16)
    ensures Ended(a, x + y) == Ended(b, y)
  {
    if b.fieldLen > 0 {
      SameSlices(x, y, b.fieldStart, b.fieldStart + b.fieldLen);
      SameSlices(x, y, if b.cs == 15 then b.p else b.mark, b.p);
    }
  }

  /** The line break behind a value. */
  lemma AlikeEmit(a: Machine, b: Machine, x: seq<byte>, y: seq<byte>)
    requires Ok(a, x + y) && Ok(b, y) && Alike(a, b, |x|) && !b.stopped && b.p < |y|
    requires (b.cs == 15 || b.cs == 16) && y[b.p] in {10, 13}
    ensures var a', b' := Step(a, x + y), Step(b, y);
            && Alike(a', b', |x|) && a.fields <= a'.fields && b.fields <= b'.fields && Added(a, a') == Added(b, b')
  {
    assert (x + y)[a.p] == y[b.p];
    SameEnd(a, b, x, y);
    EndOfLine(a, x + y);
    EndOfLine(b, y);
  }

  /** Any other byte hands nothing over. */
  lemma AlikeQuiet(a: Machine, b: Machine, x: seq<byte>, y: seq<byte>)
    requires Ok(a, x + y) && Ok(b, y) && Alike(a, b, |x|) && !b.stopped && b.p < |y|
    requires !((b.cs == 15 || b.cs == 16) && y[b.p] in {10, 13})
    ensures var a', b' := Step(a, x + y), Step(b, y);
            Alike(a', b', |x|) && a'.fields == a.fields && b'.fields == b.fields
  {
    assert (x + y)[a.p] == y[b.p];
  }

  lemma AlikeStep(a: Machine, b: Machine, x: seq<byte>, y: seq<byte>)
    requires Ok(a, x + y) && Ok(b, y) && Alike(a, b, |x|) && !b.stopped && b.p < |y|
    ensures var a', b' := Step(a, x + y), Step(b, y);
            && Alike(a', b', |x|) && a.fields <= a'.fields && b.fields <= b'.fields && Added(a, a') == Added(b, b')
  {
    if (b.cs == 15 || b.cs == 16) && y[b.p] in {10, 13} { AlikeEmit(a, b, x, y); } else { AlikeQuiet(a, b, x, y); }
  }

  lemma {:induction false} AlikeRun(a: Machine, b: Machine, x: seq<byte>, y: seq<byte>)
    requires Ok(a, x + y) && Ok(b, y) && Alike(a, b, |x|)
    ensures a.fields <= Run(a, x + y).fields && b.fields <= Run(b, y).fields
    ensures Added(a, Run(a, x + y)) == Added(b, Run(b, y))
    decreases |y| - b.p, !b.stopped
  {
    OnlyAdds(a, x + y);
    OnlyAdds(b, y);
    if !b.stopped && b.p < |y| {
      AlikeStep(a, b, x, y);
      AlikeRun(Step(a, x + y), Step(b, y), x, y);
    }
  }

  /** The line under way began in x, and b knows less of its name. */
  predicate Stale(a: Machine, b: Machine, k: nat) {
    && a.cs == b.cs && a.p == b.p + k && !a.stopped && !b.stopped
    && match a.cs
       case 14 => a.fieldStart < k && b.fieldStart == 0
       case 18 => a.fieldStart < k && b.fieldStart == 0
       case 15 => a.fieldLen > b.fieldLen
       case 16 => a.fieldLen > b.fieldLen
       case _ => false
  }

  /** One byte of such a line: it goes on, or ends with different fields, or with none at all. */
  lemma StaleStep(a: Machine, b: Machine, x: seq<byte>, y: seq<byte>)
    requires Ok(a, x + y) && Ok(b, y) && Stale(a, b, |x|) && b.p < |y|
    ensures var a', b' := Step(a, x + y), Step(b, y); var s := y[b.p..];
            && a.fields <= a'.fields && b.fields <= b'.fields
            && (if Stale(a', b', |x|) then
                  Added(a, a') == Added(b, b') == [] && (Completes(b.cs, s) <==> Completes(b'.cs, s[1..]))
                else
                  && Alike(a', b', |x|)
                  && (if Completes(b.cs, s) then |Added(a, a')| == 1 && |Added(b, b')| <= 1 && Added(a, a') != Added(b, b')
                      else Added(a, a') == Added(b, b') == [] && a'.stopped))
  {
    var c := y[b.p];
    assert (x + y)[a.p] == c;
    if (b.cs == 15 || b.cs == 16) && (c == 10 || c == 13) {
      EndOfLine(a, x + y);
      EndOfLine(b, y);
    }
  }

  lemma {:induction false} StaleRun(a: Machine, b: Machine, x: seq<byte>, y: seq<byte>)
    requires Ok(a, x + y) && Ok(b, y) && Stale(a, b, |x|)
    ensures a.fields <= Run(a, x + y).fields && b.fields <= Run(b, y).fields
    ensures Added(a, Run(a, x + y)) == Added(b, Run(b, y)) <==> !Completes(b.cs, y[b.p..])
    decreases |y| - b.p
  {
    OnlyAdds(a, x + y);
    OnlyAdds(b, y);
    if b.p < |y| {
      var a', b' := Step(a, x + y), Step(b, y);
      StaleStep(a, b, x, y);
      assert y[b.p..][1..] == y[b.p + 1..];
      if Stale(a', b', |x|) {
        StaleRun(a', b', x, y);
      } else {
        AlikeRun(a', b', x, y);
        DifferStill(Added(a, a'), Added(b, b'), Added(b', Run(b, y)));
      }
      AddedThrough(a, a', Run(a, x + y));
      AddedThrough(b, b', Run(b, y));
    }
  }

  // ---------------------------------------------------------------- the theorem

  /** The line under way at the end of x starts anew on y with the marks reset. */
  lemma AtTheSplit(r: Machine, x: seq<byte>, y: seq<byte>, bodyStart: nat)
    requires Ok(r, x) && x != [] && !r.stopped && r.p == |x| && 13 <= r.cs <= 18
    ensures Ok(Started(r.cs, bodyStart), y)
    ensures if r.cs == 13 || r.cs == 17 || ((r.cs == 15 || r.cs == 16) && r.fieldLen == 0)
            then Alike(r, Started(r.cs, bodyStart), |x|) else Stale(r, Started(r.cs, bodyStart), |x|)
  {
  }

  /** A header whose bytes come in two calls, x and then y, x being non-empty and unfinished, hands
      over the same fields as in one call exactly when the first call ends at the start of a line or
      between its CR and LF, or in the value of a line without a name, or when y does not end the line
      that is under way. */
  lemma SplitExactly(cs: nat, bodyStart: nat, x: seq<byte>, y: seq<byte>)
    requires HeaderState(cs) && x != [] && !Run(Started(cs, bodyStart), x).stopped
    ensures var one := Run(Started(cs, bodyStart), x + y);
            var first := Run(Started(cs, bodyStart), x);
            && Ok(Started(first.cs, first.bodyStart), y)
            && var second := Run(Started(first.cs, first.bodyStart), y);
            (one.fields == first.fields + second.fields <==>
              first.cs == 13 || first.cs == 17 || ((first.cs == 15 || first.cs == 16) && first.fieldLen == 0)
              || !Completes(first.cs, y))
  {
    var m := Started(cs, bodyStart);
    var r := Run(m, x);
    var b := Started(r.cs, r.bodyStart);
    RunThrough(m, x, y);
    NotFinal(m, x);
    AtTheSplit(r, x, y, r.bodyStart);
    assert y[0..] == y;
    if Alike(r, b, |x|) { AlikeRun(r, b, x, y); } else { StaleRun(r, b, x, y); }
    Joined(r.fields, Run(r, x + y).fields, Run(b, y).fields);
  }

  lemma Joined(first: seq<Field>, one: seq<Field>, second: seq<Field>)
    requires first <= one
    ensures one == first + second <==> one[|first|..] == second
  {
    assert one == first + one[|first|..];
    if one == first + second {
      assert (first + second)[|first|..] == second;
    }
  }

  // ---------------------------------------------------------------- the failing split

  /** From inside a name to its colon: what will be handed over as the name starts at the mark. */
  lemma RunTail(m: Machine, data: seq<byte>, tail: seq<byte>, q: nat) returns (r: Machine)
    requires Ok(m, data) && m.cs == 14 && !m.stopped && q == m.p + |tail| + 1 && Token(tail) && At(data, m.p, tail + [58])
    ensures q <= |data| && m.fieldStart < q && Ok(r, data) && Run(m, data) == Run(r, data)
    ensures r == m.(cs := 15, p := q, fieldLen := q - 1 - m.fieldStart)
  {
    NameAt(data, m.p, tail, q);
    r := NameAndColon(m, data, |tail|, q);
  }

  lemma RestParts(data: seq<byte>, p: nat, tail: seq<byte>, value: seq<byte>, q: nat, end: nat)
    requires At(data, p, tail + [58] + (value + CRLF + CRLF)) && q == p + |tail| + 1 && end == q + |value|
    ensures At(data, p, tail + [58]) && At(data, q, value) && At(data, end, CRLF) && At(data, end + 2, CRLF)
  {
    AtParts(data, p, q, tail + [58] + (value + CRLF + CRLF), tail + [58], value + CRLF + CRLF);
    AtParts(data, q, end + 2, value + CRLF + CRLF, value + CRLF, CRLF);
    AtParts(data, q, end, value + CRLF, value, CRLF);
  }

  /** From inside a name to the end of a header with this one line. */
  lemma NameToEnd(m: Machine, data: seq<byte>, tail: seq<byte>, value: seq<byte>, q: nat, end: nat, name: seq<byte>)
    requires Ok(m, data) && m.cs == 14 && !m.stopped && q == m.p + |tail| + 1 && Token(tail) && Clean(value)
    requires At(data, m.p, tail + [58]) && At(data, q, value) && At(data, end, CRLF) && At(data, end + 2, CRLF)
    requires end == q + |value| && m.fieldStart < q && name == data[m.fieldStart..q - 1]
    ensures Run(m, data).fields == m.fields + [Field(name, Trim(value))]
  {
    var r := RunTail(m, data, tail, q);
    ValueToEnd(r, data, Field(name, value), q, end);
  }

  lemma ValueToEnd(m: Machine, data: seq<byte>, f: Field, q: nat, end: nat)
    requires Ok(m, data) && m.cs == 15 && !m.stopped && m.p == q && m.fieldLen > 0 && Named(m, data, f.name) && Clean(f.value)
    requires At(data, q, f.value) && end == q + |f.value| && At(data, end, CRLF) && At(data, end + 2, CRLF)
    ensures Run(m, data).fields == m.fields + [Field(f.name, Trim(f.value))]
  {
    var last := RunToLineEnd(m, data, f, q);
    BlankLine(last, data);
  }

  lemma BlankLine(m: Machine, data: seq<byte>)
    requires Ok(m, data) && m.cs == 13 && !m.stopped && At(data, m.p, CRLF)
    ensures Run(m, data).fields == m.fields
  {
    assert data[m.p] == data[m.p..m.p + 2][0] == 13 && data[m.p + 1] == data[m.p..m.p + 2][1] == 10;
    var m1 := Step(m, data);
    assert Run(m, data) == Run(m1, data) == Run(Step(m1, data), data);
  }

  lemma RunHead(m: Machine, head: seq<byte>, data: seq<byte>)
    requires Ok(m, data) && m.cs == 13 && !m.stopped && m.p == m.fieldStart == 0
    requires Token(head) && |head| <= |data| && data[..|head|] == head
    ensures Ok(m.(cs := 14, p := |head|), data) && Run(m, data) == Run(m.(cs := 14, p := |head|), data)
  {
    forall i | 0 <= i < |head| ensures TokenByte(data[i]) { assert data[i] == data[..|head|][i]; }
    StartName(m, data);
    RunName(m.(cs := 14, p := 1), data, |head| - 1, m.(cs := 14, p := |head|));
  }

  lemma WholeName(head: seq<byte>, tail: seq<byte>, value: seq<byte>, rest: seq<byte>)
    requires Token(head) && Token(tail) && Clean(value) && rest == tail + [58] + (value + CRLF + CRLF)
    ensures Run(Started(13, 0), head + rest).fields == [Field(head + tail, Trim(value))]
  {
    var data, m := head + rest, Started(13, 0).(cs := 14, p := |head|);
    assert data[..|head|] == head && data[|head|..|head| + |rest|] == rest;
    assert data[0..|head| + |tail|] == head + tail;
    RunHead(Started(13, 0), head, data);
    var q := |head| + |tail| + 1;
    RestParts(data, |head|, tail, value, q, q + |value|);
    NameToEnd(m, data, tail, value, q, q + |value|, head + tail);
  }

  lemma TailOnly(tail: seq<byte>, value: seq<byte>, rest: seq<byte>)
    requires Token(tail) && Clean(value) && rest == tail + [58] + (value + CRLF + CRLF)
    ensures Run(Started(14, 0), rest).fields == [Field(tail, Trim(value))]
  {
    assert rest[0..|rest|] == rest && rest[0..|tail|] == tail;
    var q := |tail| + 1;
    RestParts(rest, 0, tail, value, q, q + |value|);
    NameToEnd(Started(14, 0), rest, tail, value, q, q + |value|, tail);
  }

  /** A split in the middle of a name: one call hands over the whole name, two calls only its tail. */
  lemma TailHandedOver(head: seq<byte>, tail: seq<byte>, value: seq<byte>)
    requires Token(head) && Token(tail) && Clean(value)
    ensures var rest := tail + [58] + (value + CRLF + CRLF);
            && Run(Started(13, 0), head) == Started(13, 0).(cs := 14, p := |head|)
            && Run(Started(13, 0), head + rest).fields == [Field(head + tail, Trim(value))]
            && Run(Started(14, 0), rest).fields == [Field(tail, Trim(value))]
  {
    var rest := tail + [58] + (value + CRLF + CRLF);
    assert head[..|head|] == head;
    RunHead(Started(13, 0), head, head);
    WholeName(head, tail, value, rest);
    TailOnly(tail, value, rest);
  }
}
