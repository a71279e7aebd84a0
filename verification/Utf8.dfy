/** UTF-8, as section 3 of RFC 3629 has it. */
module Utf8 {
  import opened Records

  type Byte = b: int | 0 <= b < 256

  /** The low six bits of n, as a continuation byte. */
  function Tail(n: nat): Byte {
    0x80 + n % 0x40
  }

  function EncodeChar(c: char): seq<Byte> {
    var n := c as int;
    if n < 0x80 then [n]
    else if n < 0x800 then [0xC0 + n / 0x40, Tail(n)]
    else if n < 0x10000 then [0xE0 + n / 0x1000, Tail(n / 0x40), Tail(n)]
    else [0xF0 + n / 0x40000, Tail(n / 0x1000), Tail(n / 0x40), Tail(n)]
  }

  /** `s.encode("utf-8")`. */
  function Encode(s: string): seq<Byte> {
    if s == "" then [] else EncodeChar(s[0]) + Encode(s[1..])
  }

  /** How many bytes the encoding takes that starts with b. */
  function Width(b: Byte): nat {
    if b < 0x80 then 1 else if b < 0xC0 then 0 else if b < 0xE0 then 2 else if b < 0xF0 then 3 else 4
  }

  /** The bits of n, and then those of one continuation byte. */
  function Extend(n: int, b: int): int {
    n * 0x40 + b - 0x80
  }

  function Number(bytes: seq<Byte>): int
    requires bytes != [] && |bytes| == Width(bytes[0])
  {
    var first: int := bytes[0];
    if |bytes| == 1 then first
    else if |bytes| == 2 then Extend(first - 0xC0, bytes[1])
    else if |bytes| == 3 then Extend(Extend(first - 0xE0, bytes[1]), bytes[2])
    else Extend(Extend(Extend(first - 0xF0, bytes[1]), bytes[2]), bytes[3])
  }

  function Scalar(n: int): Option<char> {
    if 0 <= n < 0xD800 || 0xE000 <= n < 0x110000 then Some(n as char) else None
  }

  function Decode(bytes: seq<Byte>): Option<string> {
    if bytes == [] then
      Some("")
    else
      var w := Width(bytes[0]);
      if w == 0 || w > |bytes| then None
      else
        var head, tail := Scalar(Number(bytes[..w])), Decode(bytes[w..]);
        if head.None? || tail.None? then None else Some([head.value] + tail.value)
  }

  /** The encoding of a character says how long it is, and which character it is of. */
  lemma CharIsEncoded(c: char)
    ensures var bytes := EncodeChar(c);
            bytes != [] && |bytes| == Width(bytes[0]) && Scalar(Number(bytes)) == Some(c)
  {
    var n := c as int;
    Split(n);
    Split(n / 0x40);
    Split(n / 0x1000);
  }

  lemma Split(n: nat)
    ensures Extend(n / 0x40, Tail(n)) == n
    ensures n / 0x40 / 0x40 == n / 0x1000 && n / 0x1000 / 0x40 == n / 0x40000
  {
  }

  /** Whatever is encoded decodes to itself. */
  lemma {:induction false} DecodeEncoded(s: string)
    ensures Decode(Encode(s)) == Some(s)
  {
    if s != "" {
      hide EncodeChar, Width, Number, Scalar;
      var bytes, rest := EncodeChar(s[0]), Encode(s[1..]);
      CharIsEncoded(s[0]);
      DecodeEncoded(s[1..]);
      assert Encode(s)[..|bytes|] == bytes && Encode(s)[|bytes|..] == rest;
      assert [s[0]] + s[1..] == s;
    }
  }
}
