/** `buffer.toString('base64')`: the standard alphabet with `=` padding of
    section 4 of RFC 4648, used by the create handler's data-URI fallback. */
module Base64 {

  newtype byte = x: int | 0 <= x < 256

  /** The characters an encoding may contain. */
  predicate IsEncodingChar(c: char) {
    ('A' <= c <= 'Z') || ('a' <= c <= 'z') || ('0' <= c <= '9') || c == '+' || c == '/' || c == '='
  }

  /** The character for a six-bit value: `A`-`Z`, `a`-`z`, `0`-`9`, `+`, `/`. */
  function Sextet(v: int): (c: char)
    requires 0 <= v < 64
    ensures IsEncodingChar(c) && c != '=' 
  {
    if v < 26 then ('A' as int + v) as char
    else if v < 52 then ('a' as int + v - 26) as char
    else if v < 62 then ('0' as int + v - 52) as char
    else if v == 62 then '+' else '/'
  }

  /** The four characters for a group of one to three bytes, padded with `=`. */
  function EncodeGroup(bytes: seq<byte>): (r: string)
    requires 1 <= |bytes| <= 3
    ensures |r| == 4
    ensures forall i :: 0 <= i < 4 ==> IsEncodingChar(r[i])
    ensures r[3] == '=' <==> |bytes| < 3
    ensures r[2] == '=' <==> |bytes| == 1
  {
    var b0 := bytes[0] as int;
    var b1 := if |bytes| > 1 then bytes[1] as int else 0;
    var b2 := if |bytes| > 2 then bytes[2] as int else 0;
    [Sextet(b0 / 4), Sextet((b0 % 4) * 16 + b1 / 16),
     if |bytes| > 1 then Sextet((b1 % 16) * 4 + b2 / 64) else '=',
     if |bytes| > 2 then Sextet(b2 % 64) else '=']
  }

  /** Each group of three bytes becomes four characters; a final group of one or two
      bytes becomes two or three characters followed by `=` padding. */
  function Encode(bytes: seq<byte>): (r: string)
    ensures |r| == 4 * ((|bytes| + 2) / 3)
    ensures forall i :: 0 <= i < |r| ==> IsEncodingChar(r[i])
    decreases |bytes|
  {
    if |bytes| == 0 then ""
    else if |bytes| <= 3 then EncodeGroup(bytes)
    else
      var head, rest := EncodeGroup(bytes[..3]), Encode(bytes[3..]);
      var n := |bytes| - 3;
      assert (n + 3 + 2) / 3 == (n + 2) / 3 + 1;
      assert |head + rest| == 4 + |rest|;
      assert forall i :: 0 <= i < |head + rest| ==> (head + rest)[i] == if i < 4 then head[i] else rest[i - 4];
      head + rest
  }
}
