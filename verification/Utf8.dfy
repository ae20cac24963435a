/** Strings as UTF-8 bytes. Decoding accepts exactly the canonical encodings. */
module Utf8 {
  import opened Types

  /** A continuation byte. */
  function Tail(n: nat): byte {
    0x80 + n % 0x40
  }

  /** The lead byte carries the bits above the last one, two or three groups of six. */
  function EncodeChar(c: char): (b: seq<byte>)
    ensures 1 <= |b| <= 4
  {
    var n := c as nat;
    var n1 := n / 0x40;
    var n2 := n1 / 0x40;
    if n < 0x80 then [n]
    else if n < 0x800 then [0xC0 + n1, Tail(n)]
    else if n < 0x1_0000 then [0xE0 + n2, Tail(n1), Tail(n)]
    else [0xF0 + n2 / 0x40, Tail(n2), Tail(n1), Tail(n)]
  }

  /** The length of a sequence with this leading byte. */
  function Width(lead: byte): nat {
    if lead < 0xC0 then 1 else if lead < 0xE0 then 2 else if lead < 0xF0 then 3 else 4
  }

  /** Six more bits. */
  function More(high: nat, tail: byte): nat {
    high * 0x40 + tail % 0x40
  }

  /** The code point of a sequence, before any check. */
  function CodePoint(b: seq<byte>): nat
    requires b != [] && Width(b[0]) <= |b|
  {
    var lead: int := b[0];
    if lead < 0xC0 then lead
    else if lead < 0xE0 then More(lead - 0xC0, b[1])
    else if lead < 0xF0 then More(More(lead - 0xE0, b[1]), b[2])
    else More(More(More(lead - 0xF0, b[1]), b[2]), b[3])
  }

  predicate IsScalar(n: nat) {
    n < 0xD800 || 0xE000 <= n < 0x11_0000
  }

  /** The character at the front, with its width, if it is there in its only valid form. */
  function DecodeChar(b: seq<byte>): Option<(char, nat)> {
    if b == [] || |b| < Width(b[0]) then None
    else
      var n, w := CodePoint(b), Width(b[0]);
      if !IsScalar(n) || EncodeChar(n as char) != b[..w] then None else Some((n as char, w))
  }

  lemma MoreTail(n: nat)
    ensures More(n / 0x40, Tail(n)) == n
  {
    assert n == n / 0x40 * 0x40 + n % 0x40;
  }

  lemma CodePointOfEncoding(c: char, rest: seq<byte>)
    ensures Width(EncodeChar(c)[0]) == |EncodeChar(c)|
    ensures CodePoint(EncodeChar(c) + rest) == c as nat
  {
    var n := c as nat;
    MoreTail(n);
    MoreTail(n / 0x40);
    MoreTail(n / 0x40 / 0x40);
    assert n < 0x11_0000;
  }

  /** One character of each width, as section 3 of RFC 3629 writes it. */
  lemma SampleChars()
    ensures EncodeChar('$') == [0x24] && EncodeChar('\U{E9}') == [0xC3, 0xA9]
    ensures EncodeChar('\U{20AC}') == [0xE2, 0x82, 0xAC] && EncodeChar('\U{1F600}') == [0xF0, 0x9F, 0x98, 0x80]
  {
  }

  // --- strings, for any encoding of characters ----------------------------------------------

  type Encoder = char -> seq<byte>

  type Decoder = seq<byte> -> Option<(char, nat)>

  function EncodeAll(enc: Encoder, s: string): seq<byte> {
    if s == "" then [] else enc(s[0]) + EncodeAll(enc, s[1..])
  }

  function DecodeAll(dec: Decoder, b: seq<byte>): Option<string> {
    if b == [] then Some("")
    else if dec(b).None? || dec(b).value.1 == 0 || dec(b).value.1 > |b| then None
    else
      var (c, w) := dec(b).value;
      var rest :- DecodeAll(dec, b[w..]);
      Some([c] + rest)
  }

  function Encode(s: string): seq<byte> {
    EncodeAll(EncodeChar, s)
  }

  function Decode(b: seq<byte>): Option<string> {
    DecodeAll(DecodeChar, b)
  }

  /** The decoder finds an encoded character whatever follows, and accepts nothing else. */
  ghost predicate Inverse(enc: Encoder, dec: Decoder) {
    && (forall c, rest :: enc(c) != [] && dec(enc(c) + rest) == Some((c, |enc(c)|)))
    && (forall b | dec(b).Some? :: dec(b).value.1 <= |b| && enc(dec(b).value.0) == b[..dec(b).value.1])
  }

  lemma CharsInverse()
    ensures Inverse(EncodeChar, DecodeChar)
  {
    forall c, rest ensures EncodeChar(c) != [] && DecodeChar(EncodeChar(c) + rest) == Some((c, |EncodeChar(c)|)) {
      CodePointOfEncoding(c, rest);
      assert (EncodeChar(c) + rest)[..|EncodeChar(c)|] == EncodeChar(c);
    }
  }

  lemma {:induction false} DecodesAll(enc: Encoder, dec: Decoder, s: string)
    requires Inverse(enc, dec)
    ensures DecodeAll(dec, EncodeAll(enc, s)) == Some(s)
  {
    if s != "" {
      var b, rest := enc(s[0]), EncodeAll(enc, s[1..]);
      DecodesAll(enc, dec, s[1..]);
      assert dec(b + rest) == Some((s[0], |b|)) && (b + rest)[|b|..] == rest;
      assert s == [s[0]] + s[1..];
    }
  }

  lemma {:induction false} EncodesAll(enc: Encoder, dec: Decoder, b: seq<byte>)
    requires Inverse(enc, dec) && DecodeAll(dec, b).Some?
    ensures EncodeAll(enc, DecodeAll(dec, b).value) == b
  {
    if b != [] {
      var (c, w) := dec(b).value;
      EncodesAll(enc, dec, b[w..]);
      var s := DecodeAll(dec, b).value;
      assert s[1..] == DecodeAll(dec, b[w..]).value && b == b[..w] + b[w..];
    }
  }

  lemma DecodeEncode(s: string)
    ensures Decode(Encode(s)) == Some(s)
  {
    CharsInverse();
    DecodesAll(EncodeChar, DecodeChar, s);
  }

  /** Only encodings are accepted: what decodes is the encoding of what it decodes to. */
  lemma EncodeDecode(b: seq<byte>)
    requires Decode(b).Some?
    ensures Encode(Decode(b).value) == b
  {
    CharsInverse();
    EncodesAll(EncodeChar, DecodeChar, b);
  }
}
