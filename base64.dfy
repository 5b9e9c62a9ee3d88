/** The base64 encoding of section 4 of RFC 4648 (standard alphabet, `=` padding),
    as Node's `Buffer` writes it with `toString('base64')`. */
module Base64 {
  import opened Outcomes
  import opened Utf8

  type sextet = x: int | 0 <= x < 64

  /** The alphabet of Table 1 of RFC 4648. */
  function Symbol(v: sextet): char {
    if v < 26 then ('A' as int + v) as char
    else if v < 52 then ('a' as int + (v - 26)) as char
    else if v < 62 then ('0' as int + (v - 52)) as char
    else if v == 62 then '+'
    else '/'
  }

  /** The value of an alphabet symbol; `None` for any other character, padding included. */
  function SymbolValue(c: char): (r: Option<sextet>)
    ensures r.Some? ==> Symbol(r.value) == c
  {
    if 'A' <= c <= 'Z' then Some(c as int - 'A' as int)
    else if 'a' <= c <= 'z' then Some(c as int - 'a' as int + 26)
    else if '0' <= c <= '9' then Some(c as int - '0' as int + 52)
    else if c == '+' then Some(62)
    else if c == '/' then Some(63)
    else None
  }

  lemma SymbolValueOfSymbol(v: sextet)
    ensures SymbolValue(Symbol(v)) == Some(v)
    ensures Symbol(v) != '='
  {
  }

  /** Three bytes as four symbols. */
  function EncodeGroup(b0: byte, b1: byte, b2: byte): string {
    [Symbol(b0 / 4), Symbol((b0 % 4) * 16 + b1 / 16), Symbol((b1 % 16) * 4 + b2 / 64), Symbol(b2 % 64)]
  }

  /** The base64 text of `bs`: one quantum of four symbols per three bytes, the last
      quantum padded with `=` when one or two bytes remain. */
  function Encode(bs: seq<byte>): (s: string)
  {
    if |bs| == 0 then ""
    else if |bs| == 1 then [Symbol(bs[0] / 4), Symbol((bs[0] % 4) * 16), '=', '=']
    else if |bs| == 2 then
      [Symbol(bs[0] / 4), Symbol((bs[0] % 4) * 16 + bs[1] / 16), Symbol((bs[1] % 16) * 4), '=']
    else EncodeGroup(bs[0], bs[1], bs[2]) + Encode(bs[3..])
  }

  /** The bytes of one four-symbol quantum; padding is accepted only in the last one. */
  function DecodeQuantum(q: string, last: bool): (r: Option<seq<byte>>)
    requires |q| == 4
    ensures r.Some? ==> 1 <= |r.value| <= 3
  {
    var v0, v1, v2, v3 := SymbolValue(q[0]), SymbolValue(q[1]), SymbolValue(q[2]), SymbolValue(q[3]);
    if v0.None? || v1.None? then None
    else
      var first: byte := v0.value * 4 + v1.value / 16;
      if last && q[2] == '=' && q[3] == '=' then Some([first])
      else if v2.None? then None
      else
        var second: byte := (v1.value % 16) * 16 + v2.value / 4;
        if last && q[3] == '=' then Some([first, second])
        else if v3.None? then None
        else Some([first, second, (v2.value % 4) * 64 + v3.value])
  }

  /** The bytes that base64 text `s` stands for, or `None` when it is not well formed. */
  function Decode(s: string): (r: Option<seq<byte>>)
  {
    if |s| == 0 then Some([])
    else if |s| < 4 then None
    else if |s| == 4 then DecodeQuantum(s, true)
    else
      match DecodeQuantum(s[..4], false)
      case None => None
      case Some(head) =>
        match Decode(s[4..])
        case None => None
        case Some(tail) => Some(head + tail)
  }

  lemma DecodeGroup(b0: byte, b1: byte, b2: byte, last: bool)
    ensures DecodeQuantum(EncodeGroup(b0, b1, b2), last) == Some([b0, b1, b2])
  {
    var v0, v1, v2, v3 := b0 / 4, (b0 % 4) * 16 + b1 / 16, (b1 % 16) * 4 + b2 / 64, b2 % 64;
    SymbolValueOfSymbol(v0);
    SymbolValueOfSymbol(v1);
    SymbolValueOfSymbol(v2);
    SymbolValueOfSymbol(v3);
    assert v1 / 16 == b0 % 4 && v1 % 16 == b1 / 16;
    assert v2 / 4 == b1 % 16 && v2 % 4 == b2 / 64;
  }

  lemma DecodeEncodeOne(bs: seq<byte>)
    requires |bs| == 1
    ensures Decode(Encode(bs)) == Some(bs)
  {
    var b0 := bs[0];
    SymbolValueOfSymbol(b0 / 4);
    SymbolValueOfSymbol((b0 % 4) * 16);
    assert Encode(bs) == [Symbol(b0 / 4), Symbol((b0 % 4) * 16), '=', '='];
    assert bs == [b0];
  }

  lemma DecodeEncodePair(b0: byte, b1: byte)
    ensures Decode(Encode([b0, b1])) == Some([b0, b1])
  {
    var v1 := (b0 % 4) * 16 + b1 / 16;
    var v2 := (b1 % 16) * 4;
    SymbolValueOfSymbol(b0 / 4);
    SymbolValueOfSymbol(v1);
    SymbolValueOfSymbol(v2);
    assert v1 / 16 == b0 % 4 && v1 % 16 == b1 / 16 && v2 / 4 == b1 % 16;
    assert Encode([b0, b1]) == [Symbol(b0 / 4), Symbol(v1), Symbol(v2), '='];
  }

  lemma DecodeEncodeTwo(bs: seq<byte>)
    requires |bs| == 2
    ensures Decode(Encode(bs)) == Some(bs)
  {
    DecodeEncodePair(bs[0], bs[1]);
    assert bs == [bs[0], bs[1]];
  }

  lemma DecodeEncodeThree(bs: seq<byte>)
    requires |bs| == 3
    ensures Decode(Encode(bs)) == Some(bs)
  {
    DecodeGroup(bs[0], bs[1], bs[2], true);
    assert Encode(bs) == EncodeGroup(bs[0], bs[1], bs[2]);
    assert bs == [bs[0], bs[1], bs[2]];
  }

  /** A leading quantum without padding decodes independently of what follows it. */
  lemma DecodeLeadingQuantum(q: string, t: string, h: seq<byte>, x: seq<byte>)
    requires |q| == 4 && |t| >= 4 && DecodeQuantum(q, false) == Some(h) && Decode(t) == Some(x)
    ensures Decode(q + t) == Some(h + x)
  {
    assert (q + t)[..4] == q && (q + t)[4..] == t;
  }

  lemma EncodeLong(b0: byte, b1: byte, b2: byte, rest: seq<byte>)
    requires rest != []
    ensures Encode([b0, b1, b2] + rest) == EncodeGroup(b0, b1, b2) + Encode(rest)
    ensures |Encode(rest)| >= 4
  {
    var bs := [b0, b1, b2] + rest;
    assert bs[3..] == rest;
  }

  lemma DecodeEncodeLong(b0: byte, b1: byte, b2: byte, rest: seq<byte>)
    requires rest != [] && Decode(Encode(rest)) == Some(rest)
    ensures Decode(Encode([b0, b1, b2] + rest)) == Some([b0, b1, b2] + rest)
  {
    EncodeLong(b0, b1, b2, rest);
    DecodeGroup(b0, b1, b2, false);
    DecodeLeadingQuantum(EncodeGroup(b0, b1, b2), Encode(rest), [b0, b1, b2], rest);
  }

  /** Decoding what `Encode` wrote gives back the bytes. */
  lemma {:induction false} DecodeEncode(bs: seq<byte>)
    ensures Decode(Encode(bs)) == Some(bs)
    decreases |bs|
  {
    if |bs| == 1 {
      DecodeEncodeOne(bs);
    } else if |bs| == 2 {
      DecodeEncodeTwo(bs);
    } else if |bs| == 3 {
      DecodeEncodeThree(bs);
    } else if |bs| > 3 {
      var rest := bs[3..];
      assert bs == [bs[0], bs[1], bs[2]] + rest;
      DecodeEncode(rest);
      DecodeEncodeLong(bs[0], bs[1], bs[2], rest);
    }
  }
}
