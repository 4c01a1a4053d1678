/** The base64 encoding of section 4 of RFC 4648 (with `=` padding), as
    `Buffer.toString("base64")` produces it for an image preview. */
module Base64 {
  import opened Outcomes

  /** A character of the alphabet of section 4 of RFC 4648, `A`-`Z`,
      `a`-`z`, `0`-`9`, `+`, `/`. */
  predicate InAlphabet(c: char) {
    ('A' <= c <= 'Z') || ('a' <= c <= 'z') || ('0' <= c <= '9') || c == '+' || c == '/'
  }

  /** A character the encoding can produce. */
  predicate IsBase64Char(c: char) {
    InAlphabet(c) || c == '='
  }

  /** The character for a six-bit group: values 0 to 63 in alphabet order. */
  function Digit(v: int): (c: char)
    requires 0 <= v < 64
    ensures InAlphabet(c)
  {
    if v < 26 then ('A' as int + v) as char
    else if v < 52 then ('a' as int + v - 26) as char
    else if v < 62 then ('0' as int + v - 52) as char
    else if v == 62 then '+'
    else '/'
  }

  /** The four characters for one group of one, two or three bytes. */
  function Quad(b0: byte, b1: Option<byte>, b2: Option<byte>): (r: string)
    requires b1.None? ==> b2.None?
    ensures |r| == 4
    ensures forall i :: 0 <= i < 4 ==> IsBase64Char(r[i])
  {
    var x0 := b0 as int;
    var x1 := if b1.Some? then b1.value as int else 0;
    var x2 := if b2.Some? then b2.value as int else 0;
    assert x0 / 4 < 64 && (x0 % 4) * 16 + x1 / 16 < 64;
    assert (x1 % 16) * 4 + x2 / 64 < 64 && x2 % 64 < 64;
    [Digit(x0 / 4), Digit((x0 % 4) * 16 + x1 / 16),
     if b1.Some? then Digit((x1 % 16) * 4 + x2 / 64) else '=',
     if b2.Some? then Digit(x2 % 64) else '=']
  }

  /** Every three bytes become four characters; a final group of one or two
      bytes is padded with `=` to four characters. */
  function Encode(data: Bytes): (r: string)
    ensures |r| == 4 * ((|data| + 2) / 3)
    decreases |data|
  {
    if |data| == 0 then ""
    else if |data| == 1 then Quad(data[0], None, None)
    else if |data| == 2 then Quad(data[0], Some(data[1]), None)
    else
      var head, tail := Quad(data[0], Some(data[1]), Some(data[2])), Encode(data[3..]);
      var r := head + tail;
      assert (|data| + 2) / 3 == (|data| - 3 + 2) / 3 + 1;
      r
  }

  /** The encoding uses only the alphabet and the padding character. */
  lemma {:induction false} EncodeAlphabet(data: Bytes)
    ensures forall i :: 0 <= i < |Encode(data)| ==> IsBase64Char(Encode(data)[i])
    decreases |data|
  {
    if |data| >= 3 {
      EncodeAlphabet(data[3..]);
      var head := Quad(data[0], Some(data[1]), Some(data[2]));
      var r := Encode(data);
      assert r == head + Encode(data[3..]);
      assert forall i :: 4 <= i < |r| ==> r[i] == Encode(data[3..])[i - 4];
    }
  }
}
