// StringUtil::UrlEncode and StringUtil::UrlDecode.

module UrlCodings {
  import opened Base

  const SPACE: byte := 32
  const PLUS: byte := 43
  const PERCENT: byte := 37

  /** The table of bytes left as they are: letters, digits, '-', '.', '_', '~' and also '='. */
  predicate Unreserved(c: byte) {
    48 <= c <= 57 || 65 <= c <= 90 || 97 <= c <= 122 || c == 45 || c == 46 || c == 61 || c == 95 || c == 126
  }

  /** "0123456789ABCDEF"[n]. */
  function HexDigit(n: nat): byte
    requires n < 16
  {
    if n < 10 then 48 + n else 55 + n
  }

  predicate IsHex(c: byte) { 48 <= c <= 57 || 65 <= c <= 70 || 97 <= c <= 102 }

  /** The table of hex digit values, 0 for everything else. */
  function HexValue(c: byte): (n: nat)
    ensures n < 16
  {
    if 48 <= c <= 57 then c - 48 else if 65 <= c <= 70 then c - 55 else if 97 <= c <= 102 then c - 87 else 0
  }

  // ---------------------------------------------------------------- the plain definitions

  function EncodeByte(c: byte, plus: bool): seq<byte> {
    if Unreserved(c) then [c]
    else if c == SPACE && plus then [PLUS]
    else [PERCENT, HexDigit(c / 16), HexDigit(c % 16)]
  }

  function Encode(s: seq<byte>, plus: bool): seq<byte> {
    if s == [] then [] else EncodeByte(s[0], plus) + Encode(s[1..], plus)
  }

  predicate Escape(s: seq<byte>) { |s| > 2 && s[0] == PERCENT && IsHex(s[1]) && IsHex(s[2]) }

  function Decode(s: seq<byte>, plus: bool): seq<byte> {
    if s == [] then []
    else if s[0] == PLUS && plus then [SPACE] + Decode(s[1..], plus)
    else if Escape(s) then [HexValue(s[1]) * 16 + HexValue(s[2])] + Decode(s[3..], plus)
    else [s[0]] + Decode(s[1..], plus)
  }

  // ---------------------------------------------------------------- the tables, as text

  const DIGITS := "0123456789ABCDEF"
  const SMALL_DIGITS := "0123456789abcdef"

  /** Which bytes change and into what: letters, digits and the five marks stay, a space may become a
      plus, every other byte becomes a percent sign and its two digits in upper case. */
  lemma EncodeTable(c: byte, plus: bool)
    ensures var e := EncodeByte(c, plus);
            if 48 <= c <= 57 || 65 <= c <= 90 || 97 <= c <= 122 || c in [45, 46, 61, 95, 126] then e == [c]
            else if c == 32 && plus then e == [43]
            else |e| == 3 && e[0] == 37 && e[1] == DIGITS[c / 16] as int && e[2] == DIGITS[c % 16] as int
  {
  }

  /** The hex digits are those two rows, and their values are their places. */
  lemma DigitTable(c: byte, i: nat)
    ensures i < 16 ==> (c == DIGITS[i] as int || c == SMALL_DIGITS[i] as int ==> IsHex(c) && HexValue(c) == i)
    ensures IsHex(c) ==> c == DIGITS[HexValue(c)] as int || c == SMALL_DIGITS[HexValue(c)] as int
  {
  }

  /** What the decoder takes for an escape: a percent sign and two hex digits of either case. */
  lemma DecodeTable(s: seq<byte>, plus: bool)
    requires s != []
    ensures if s[0] == 43 && plus then Decode(s, plus) == [32] + Decode(s[1..], plus)
            else if s[0] == 37 && |s| > 2 && IsHex(s[1]) && IsHex(s[2]) then
              Decode(s, plus) == [16 * HexValue(s[1]) + HexValue(s[2])] + Decode(s[3..], plus)
            else Decode(s, plus) == [s[0]] + Decode(s[1..], plus)
  {
  }

  // ---------------------------------------------------------------- the round trip

  /** What comes back: the same bytes, but a space that was sent as a plus stays a plus when the
      decoder does not take pluses for spaces. */
  function Echo(s: seq<byte>, plusOut: bool, plusIn: bool): (r: seq<byte>)
    ensures |r| == |s|
  {
    if s == [] then []
    else [if s[0] == SPACE && plusOut && !plusIn then PLUS else s[0]] + Echo(s[1..], plusOut, plusIn)
  }

  lemma {:induction false} DecodeEncode(s: seq<byte>, plusOut: bool, plusIn: bool)
    ensures Decode(Encode(s, plusOut), plusIn) == Echo(s, plusOut, plusIn)
  {
    if s != [] {
      var head, tail := EncodeByte(s[0], plusOut), Encode(s[1..], plusOut);
      DecodeEncode(s[1..], plusOut, plusIn);
      var all := head + tail;
      assert all[|head|..] == tail;
      if |head| == 3 {
        assert all[0] == PERCENT && all[1] == HexDigit(s[0] / 16) && all[2] == HexDigit(s[0] % 16);
        assert Escape(all) && HexValue(all[1]) * 16 + HexValue(all[2]) == s[0];
      }
    }
  }

  lemma {:induction false} EchoSame(s: seq<byte>, plusOut: bool, plusIn: bool)
    ensures Echo(s, plusOut, plusIn) == s <==> !plusOut || plusIn || SPACE !in s
  {
    if s != [] {
      EchoSame(s[1..], plusOut, plusIn);
      var e := Echo(s, plusOut, plusIn);
      assert s == [s[0]] + s[1..];
      assert e[1..] == Echo(s[1..], plusOut, plusIn);
      assert e == s <==> e[0] == s[0] && e[1..] == s[1..] by {
        assert e == [e[0]] + e[1..];
      }
    }
  }

  /** Decoding undoes encoding for every byte string, except that spaces written as pluses need
      a decoder that reads them back as spaces. */
  lemma {:induction false} UrlRoundTrip(s: seq<byte>, plusOut: bool, plusIn: bool)
    ensures Decode(Encode(s, plusOut), plusIn) == s <==> !plusOut || plusIn || SPACE !in s
  {
    DecodeEncode(s, plusOut, plusIn);
    EchoSame(s, plusOut, plusIn);
  }

  /** What an encoder may emit: sections 2.1 and 2.3 of RFC 3986, plus '=' and '+'. */
  predicate Emitted(c: byte) { Unreserved(c) || c == PERCENT || c == PLUS }

  /** Every byte emitted is harmless in a URL, every percent sign starts an escape, and a plus
      appears only for a space. */
  lemma {:induction false} EncodedAlphabet(s: seq<byte>, plus: bool, i: nat)
    requires i < |Encode(s, plus)|
    ensures Emitted(Encode(s, plus)[i])
    ensures Encode(s, plus)[i] == PERCENT ==> Escape(Encode(s, plus)[i..])
    ensures Encode(s, plus)[i] == PLUS ==> plus && SPACE in s
  {
    var head, tail := EncodeByte(s[0], plus), Encode(s[1..], plus);
    if i < |head| {
      assert Encode(s, plus)[i] == head[i];
    } else {
      EncodedAlphabet(s[1..], plus, i - |head|);
      assert Encode(s, plus)[i..] == tail[i - |head|..];
    }
  }

  // ---------------------------------------------------------------- the loops

  lemma {:induction false} EncodeAppend(s: seq<byte>, t: seq<byte>, plus: bool)
    ensures Encode(s + t, plus) == Encode(s, plus) + Encode(t, plus)
  {
    if s == [] {
      assert s + t == t;
    } else {
      assert (s + t)[1..] == s[1..] + t;
      EncodeAppend(s[1..], t, plus);
    }
  }

  lemma EncodeNext(s: seq<byte>, c: nat, plus: bool)
    requires c < |s|
    ensures Encode(s[..c + 1], plus) == Encode(s[..c], plus) + EncodeByte(s[c], plus)
  {
    assert s[..c + 1] == s[..c] + [s[c]];
    EncodeAppend(s[..c], [s[c]], plus);
    assert Encode([s[c]][1..], plus) == [];
  }

  /** UrlEncode: nothing is copied until the first byte that changes. */
  method UrlEncode(str: seq<byte>, plus: bool) returns (r: seq<byte>)
    ensures r == Encode(str, plus)
  {
    var ss: Option<seq<byte>> := None;
    var c := 0;
    while c < |str|
      invariant 0 <= c <= |str|
      invariant Encode(str[..c], plus) == if ss.Some? then ss.value else str[..c]
    {
      EncodeNext(str, c, plus);
      if !Unreserved(str[c]) {
        if ss == None {
          ss := Some(str[..c]);
        }
        if str[c] == SPACE && plus {
          ss := Some(ss.value + [PLUS]);
        } else {
          ss := Some(ss.value + [PERCENT, HexDigit(str[c] / 16), HexDigit(str[c] % 16)]);
        }
      } else if ss.Some? {
        ss := Some(ss.value + [str[c]]);
      }
      c := c + 1;
    }
    assert str[..c] == str;
    r := if ss == None then str else ss.value;
  }

  /** The byte decoded at the front, and how many bytes it was written as. */
  function FirstByte(s: seq<byte>, plus: bool): (r: (byte, nat))
    requires s != []
    ensures r.1 <= |s|
  {
    if s[0] == PLUS && plus then (SPACE, 1)
    else if Escape(s) then (HexValue(s[1]) * 16 + HexValue(s[2]), 3)
    else (s[0], 1)
  }

  lemma DecodeNext(acc: seq<byte>, s: seq<byte>, c: nat, plus: bool)
    requires c < |s|
    ensures var (b, width) := FirstByte(s[c..], plus);
            acc + Decode(s[c..], plus) == acc + [b] + Decode(s[c + width..], plus)
  {
    var t := s[c..];
    assert t[1..] == s[c + 1..];
    assert |t| > 2 ==> t[3..] == s[c + 3..];
  }

  /** UrlDecode: a plus or a complete escape changes, everything else stays. */
  method UrlDecode(str: seq<byte>, plus: bool) returns (r: seq<byte>)
    ensures r == Decode(str, plus)
  {
    var ss: Option<seq<byte>> := None;
    ghost var acc := [];
    var c := 0;
    assert str[0..] == str && acc + Decode(str, plus) == Decode(str, plus);
    while c < |str|
      invariant 0 <= c <= |str| && acc == (if ss.Some? then ss.value else str[..c])
      invariant Decode(str, plus) == acc + Decode(str[c..], plus)
      decreases |str| - c
    {
      DecodeNext(acc, str, c, plus);
      ghost var first := FirstByte(str[c..], plus);
      if str[c] == PLUS && plus {
        if ss == None {
          ss := Some(str[..c]);
        }
        ss := Some(ss.value + [SPACE]);
      } else if str[c] == PERCENT && c + 2 < |str| && IsHex(str[c + 1]) && IsHex(str[c + 2]) {
        if ss == None {
          ss := Some(str[..c]);
        }
        ss := Some(ss.value + [HexValue(str[c + 1]) * 16 + HexValue(str[c + 2])]);
        c := c + 2;
      } else if ss.Some? {
        ss := Some(ss.value + [str[c]]);
      }
      c := c + 1;
      acc := acc + [first.0];
    }
    r := if ss == None then str else ss.value;
    assert str[..c] == str;
  }
}
