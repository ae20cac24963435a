/** The on-disk value encoding: little-endian integers and length-prefixed strings and
    packets. A decoder takes bytes from the front and returns what is left. */
module Codec {
  import opened Types
  import Utf8

  type Decoder<!T> = Bytes -> Option<(T, Bytes)>

  /** The MQTT packet library: the byte form of a PUBLISH and its inverse. */
  datatype PacketCodec = PacketCodec(write: Publish -> Option<Bytes>, read: Bytes -> Option<Publish>)

  /** A PUBLISH as its packet shows it: at QoS 0 there is no packet id. */
  function OnWire(p: Publish): Publish {
    if p.qos == AtMostOnce then p.(pkid := 0) else p
  }

  /** What is expected of the packet library: it reads back what it wrote. */
  ghost predicate Sound(codec: PacketCodec) {
    forall p | codec.write(p).Some? ::
      |codec.write(p).value| < 0x1_0000_0000 && codec.read(codec.write(p).value) == Some(OnWire(p))
  }

  // --- writers ---------------------------------------------------------------------

  /** The low and the high byte of a 16-bit number. */
  function Halves(v: u16): (p: (byte, byte))
    ensures v == p.0 + p.1 * 0x100
  {
    assert v == v % 0x100 + v / 0x100 * 0x100;
    var low: byte, high: byte :| v == low + high * 0x100;
    (low, high)
  }

  /** The low and the high half of a 32-bit number. */
  function Words(v: u32): (p: (u16, u16))
    ensures v == p.0 + p.1 * 0x1_0000
  {
    assert v == v % 0x1_0000 + v / 0x1_0000 * 0x1_0000;
    var low: u16, high: u16 :| v == low + high * 0x1_0000;
    (low, high)
  }

  function PutU16(v: u16): Bytes {
    [Halves(v).0, Halves(v).1]
  }

  function PutU32(v: u32): Bytes {
    PutU16(Words(v).0) + PutU16(Words(v).1)
  }

  /** A length or identifier cut to 16 or 32 bits: what is left after taking off the modulus. */
  function Low16(n: nat): (v: u16)
    ensures v <= n && (v == n <==> n < 0x1_0000)
  {
    if n < 0x1_0000 then n else Low16(n - 0x1_0000)
  }

  function Low32(n: nat): (v: u32)
    ensures v <= n && (v == n <==> n < 0x1_0000_0000)
  {
    if n < 0x1_0000_0000 then n else Low32(n - 0x1_0000_0000)
  }

  lemma {:induction false} Low16IsRemainder(n: nat)
    ensures Low16(n) == n % 0x1_0000
  {
    if n >= 0x1_0000 { Low16IsRemainder(n - 0x1_0000); }
  }

  lemma {:induction false} Low32IsRemainder(n: nat)
    ensures Low32(n) == n % 0x1_0000_0000
  {
    if n >= 0x1_0000_0000 { Low32IsRemainder(n - 0x1_0000_0000); }
  }

  /** Bytes behind their 16-bit length. */
  function Put16(b: Bytes): Bytes {
    PutU16(Low16(|b|)) + b
  }

  /** Bytes behind their 32-bit length. */
  function Put32(b: Bytes): Bytes {
    PutU32(Low32(|b|)) + b
  }

  function PutStr(s: string): Bytes {
    Put16(Utf8.Encode(s))
  }

  function PutOptStr(s: Option<string>): Bytes {
    match s
    case Some(x) => [1] + PutStr(x)
    case None => [0]
  }

  function PutOptU32(v: Option<u32>): Bytes {
    match v
    case Some(x) => [1] + PutU32(x)
    case None => [0]
  }

  /** A PUBLISH as it is stored: above QoS 0 it needs a packet id, so a missing one becomes 1. */
  function Placeheld(p: Publish): Publish {
    if p.qos != AtMostOnce && p.pkid == 0 then p.(pkid := 1) else p
  }

  /** What storing and reading makes of a PUBLISH. */
  function AsStored(p: Publish): Publish {
    OnWire(Placeheld(p))
  }

  function PutPublish(codec: PacketCodec, p: Publish): Option<Bytes> {
    var b :- codec.write(Placeheld(p));
    Some(Put32(b))
  }

  // --- readers ---------------------------------------------------------------------

  function Take(d: Bytes, n: nat): Option<(Bytes, Bytes)> {
    if n <= |d| then Some((d[..n], d[n..])) else None
  }

  function GetU8(d: Bytes): Option<(byte, Bytes)> {
    if d == [] then None else Some((d[0], d[1..]))
  }

  /** The number a little-endian string of bytes stands for. */
  function Number(b: Bytes): (n: nat)
    ensures n < Pow256(|b|)
  {
    if b == [] then 0 else b[0] + 256 * Number(b[1..])
  }

  lemma Widths()
    ensures Pow256(2) == 0x1_0000 && Pow256(4) == 0x1_0000_0000
  {
    assert Pow256(2) == 256 * (256 * Pow256(0));
    assert Pow256(4) == 256 * (256 * Pow256(2));
  }

  function Number16(b: Bytes): u16
    requires |b| == 2
  {
    Widths();
    Number(b)
  }

  function Number32(b: Bytes): u32
    requires |b| == 4
  {
    Widths();
    Number(b)
  }

  function GetU16(d: Bytes): Option<(u16, Bytes)> {
    if |d| < 2 then None else Some((Number16(d[..2]), d[2..]))
  }

  function GetU32(d: Bytes): Option<(u32, Bytes)> {
    if |d| < 4 then None else Some((Number32(d[..4]), d[4..]))
  }

  function Get16(d: Bytes): Option<(Bytes, Bytes)> {
    var (n, d1) :- GetU16(d);
    Take(d1, n)
  }

  function Get32(d: Bytes): Option<(Bytes, Bytes)> {
    var (n, d1) :- GetU32(d);
    Take(d1, n)
  }

  function GetStr(d: Bytes): Option<(string, Bytes)> {
    var (b, d1) :- Get16(d);
    var s :- Utf8.Decode(b);
    Some((s, d1))
  }

  function GetOptStr(d: Bytes): Option<(Option<string>, Bytes)> {
    var (tag, d1) :- GetU8(d);
    if tag == 1 then
      var (s, d2) :- GetStr(d1);
      Some((Some(s), d2))
    else Some((None, d1))
  }

  function GetOptU32(d: Bytes): Option<(Option<u32>, Bytes)> {
    var (tag, d1) :- GetU8(d);
    if tag == 1 then
      var (v, d2) :- GetU32(d1);
      Some((Some(v), d2))
    else Some((None, d1))
  }

  function GetPublish(codec: PacketCodec, d: Bytes): Option<(Publish, Bytes)> {
    var (b, d1) :- Get32(d);
    var p :- codec.read(b);
    Some((p, d1))
  }

  function GetMany<T>(get: Decoder<T>, n: nat, d: Bytes): Option<(seq<T>, Bytes)> {
    if n == 0 then Some(([], d))
    else
      var (x, d1) :- get(d);
      var (xs, d2) :- GetMany(get, n - 1, d1);
      Some(([x] + xs, d2))
  }

  /** A count followed by that many values. */
  function GetList<T>(get: Decoder<T>, d: Bytes): Option<(seq<T>, Bytes)> {
    var (n, d1) :- GetU32(d);
    GetMany(get, n, d1)
  }

  function PutMany<T>(put: T -> Option<Bytes>, xs: seq<T>): Option<Bytes> {
    if xs == [] then Some([])
    else
      var b :- put(xs[0]);
      var bs :- PutMany(put, xs[1..]);
      Some(b + bs)
  }

  function PutList<T>(put: T -> Option<Bytes>, xs: seq<T>): Option<Bytes> {
    var b :- PutMany(put, xs);
    Some(PutU32(Low32(|xs|)) + b)
  }

  // --- what a decoder owes: it undoes its writer, and more input changes nothing ---------

  /** Decoding `b` followed by anything yields `x` and leaves exactly what followed. */
  ghost predicate Reads<T(!new)>(get: Decoder<T>, b: Bytes, x: T) {
    forall rest :: get(b + rest) == Some((x, rest))
  }

  /** A success does not depend on the bytes after it. */
  ghost predicate Stable<T(!new)>(get: Decoder<T>) {
    forall d, more | get(d).Some? :: get(d + more) == Some((get(d).value.0, get(d).value.1 + more))
  }

  lemma SplitFront(a: Bytes, b: Bytes)
    ensures (a + b)[..|a|] == a && (a + b)[|a|..] == b
  {
  }

  lemma Assoc(a: Bytes, b: Bytes, c: Bytes)
    ensures a + b + c == a + (b + c)
  {
  }

  lemma DropMore(d: Bytes, more: Bytes, n: nat)
    requires n <= |d|
    ensures (d + more)[n..] == d[n..] + more && (d + more)[..n] == d[..n]
  {
  }

  lemma NumberOfTwo(b: Bytes)
    requires |b| == 2
    ensures var high: nat := b[1]; Number(b) == b[0] + 256 * high
  {
    assert b[1..][1..] == [];
    assert Number(b[1..]) == b[1] + 256 * Number([]);
  }

  lemma NumberOfFour(a: Bytes, b: Bytes)
    requires |a| == |b| == 2
    ensures Number(a + b) == Number(a) + 0x1_0000 * Number(b)
  {
    var c := a + b;
    NumberOfTwo(a);
    assert c[1..][1..] == b;
    assert Number(c[1..]) == a[1] + 256 * Number(b);
  }

  lemma U16Number(v: u16)
    ensures Number(PutU16(v)) == v
  {
    NumberOfTwo(PutU16(v));
  }

  lemma U32Number(v: u32)
    ensures Number(PutU32(v)) == v
  {
    U16Number(Words(v).0);
    U16Number(Words(v).1);
    NumberOfFour(PutU16(Words(v).0), PutU16(Words(v).1));
  }

  lemma U16Reads(v: u16, rest: Bytes)
    ensures GetU16(PutU16(v) + rest) == Some((v, rest))
  {
    U16Number(v);
    SplitFront(PutU16(v), rest);
  }

  lemma U32Reads(v: u32, rest: Bytes)
    ensures GetU32(PutU32(v) + rest) == Some((v, rest))
  {
    U32Number(v);
    SplitFront(PutU32(v), rest);
  }

  /** What the length prefix gives back: the bytes, if their length fits, else a front part of them. */
  lemma Prefix16(b: Bytes, rest: Bytes)
    ensures Get16(Put16(b) + rest) == Some((b[..Low16(|b|)], b[Low16(|b|)..] + rest))
  {
    var n := Low16(|b|);
    Assoc(PutU16(n), b, rest);
    U16Reads(n, b + rest);
    DropMore(b, rest, n);
  }

  lemma Prefix32(b: Bytes, rest: Bytes)
    requires |b| < 0x1_0000_0000
    ensures Get32(Put32(b) + rest) == Some((b, rest))
  {
    Assoc(PutU32(|b|), b, rest);
    U32Reads(|b|, b + rest);
    SplitFront(b, rest);
  }

  lemma StrPrefix(s: string, rest: Bytes)
    ensures var b := Utf8.Encode(s); Get16(PutStr(s) + rest) == Some((b[..Low16(|b|)], b[Low16(|b|)..] + rest))
  {
    Prefix16(Utf8.Encode(s), rest);
  }

  lemma FitsReads(s: string, rest: Bytes)
    requires Fits(s)
    ensures GetStr(PutStr(s) + rest) == Some((s, rest))
  {
    var b := Utf8.Encode(s);
    StrPrefix(s, rest);
    Utf8.DecodeEncode(s);
    assert b[..|b|] == b && b[|b|..] + rest == rest;
  }

  /** A string comes back, and exactly its bytes are consumed, exactly when its UTF-8 form fits the
      16-bit length. */
  lemma StrReads(s: string)
    ensures Reads(GetStr, PutStr(s), s) <==> Fits(s)
  {
    if Fits(s) {
      forall rest ensures GetStr(PutStr(s) + rest) == Some((s, rest)) { FitsReads(s, rest); }
    } else {
      StrPrefix(s, []);
      assert GetStr(PutStr(s) + []) != Some((s, []));
    }
  }

  predicate Fits(s: string) {
    |Utf8.Encode(s)| < 0x1_0000
  }

  lemma OptStrReads(s: Option<string>, rest: Bytes)
    requires s.Some? ==> Fits(s.value)
    ensures GetOptStr(PutOptStr(s) + rest) == Some((s, rest))
  {
    if s.Some? {
      FitsReads(s.value, rest);
      assert (PutOptStr(s) + rest)[1..] == PutStr(s.value) + rest;
    }
  }

  lemma OptU32Reads(v: Option<u32>, rest: Bytes)
    ensures GetOptU32(PutOptU32(v) + rest) == Some((v, rest))
  {
    if v.Some? {
      U32Reads(v.value, rest);
      assert (PutOptU32(v) + rest)[1..] == PutU32(v.value) + rest;
    }
  }

  lemma PublishReads(codec: PacketCodec, p: Publish, rest: Bytes)
    requires Sound(codec) && PutPublish(codec, p).Some?
    ensures GetPublish(codec, PutPublish(codec, p).value + rest) == Some((AsStored(p), rest))
  {
    Prefix32(codec.write(Placeheld(p)).value, rest);
  }

  lemma {:induction false} ManyReads<T, U(!new)>(put: T -> Option<Bytes>, get: Decoder<U>, xs: seq<T>, ys: seq<U>, rest: Bytes)
    requires |xs| == |ys| && PutMany(put, xs).Some?
    requires forall i | 0 <= i < |xs| && put(xs[i]).Some? :: Reads(get, put(xs[i]).value, ys[i])
    ensures GetMany(get, |xs|, PutMany(put, xs).value + rest) == Some((ys, rest))
  {
    if xs == [] {
      assert [] + rest == rest;
    } else {
      var b, bs := put(xs[0]).value, PutMany(put, xs[1..]).value;
      assert Reads(get, b, ys[0]);
      forall i | 0 <= i < |xs[1..]| && put(xs[1..][i]).Some? ensures Reads(get, put(xs[1..][i]).value, ys[1..][i]) {
        assert put(xs[i + 1]).Some?;
      }
      ManyReads(put, get, xs[1..], ys[1..], rest);
      assert PutMany(put, xs).value + rest == b + (bs + rest);
      assert get(b + (bs + rest)) == Some((ys[0], bs + rest));
      assert ys == [ys[0]] + ys[1..];
    }
  }

  lemma ListReads<T, U(!new)>(put: T -> Option<Bytes>, get: Decoder<U>, xs: seq<T>, ys: seq<U>, rest: Bytes)
    requires |xs| == |ys| < 0x1_0000_0000 && PutList(put, xs).Some?
    requires forall i | 0 <= i < |xs| && put(xs[i]).Some? :: Reads(get, put(xs[i]).value, ys[i])
    ensures GetList(get, PutList(put, xs).value + rest) == Some((ys, rest))
  {
    var b := PutMany(put, xs).value;
    assert PutList(put, xs).value + rest == PutU32(|xs|) + (b + rest);
    U32Reads(|xs|, b + rest);
    ManyReads(put, get, xs, ys, rest);
  }

  lemma FixedStable()
    ensures Stable(GetU8) && Stable(GetU16) && Stable(GetU32)
  {
    forall d: Bytes, more: Bytes, n: nat | n <= |d| ensures (d + more)[n..] == d[n..] + more && (d + more)[..n] == d[..n] {
      DropMore(d, more, n);
    }
  }

  lemma TakeStable(d: Bytes, n: nat, more: Bytes)
    requires Take(d, n).Some?
    ensures Take(d + more, n) == Some((Take(d, n).value.0, Take(d, n).value.1 + more))
  {
    DropMore(d, more, n);
  }

  lemma PrefixStable()
    ensures Stable(Get16) && Stable(Get32)
  {
    FixedStable();
    forall d, more | Get16(d).Some? ensures Get16(d + more) == Some((Get16(d).value.0, Get16(d).value.1 + more)) {
      TakeStable(GetU16(d).value.1, GetU16(d).value.0, more);
    }
    forall d, more | Get32(d).Some? ensures Get32(d + more) == Some((Get32(d).value.0, Get32(d).value.1 + more)) {
      TakeStable(GetU32(d).value.1, GetU32(d).value.0, more);
    }
  }

  lemma StrStable()
    ensures Stable(GetStr)
  {
    PrefixStable();
  }

  lemma OptStable()
    ensures Stable(GetOptStr) && Stable(GetOptU32)
  {
    FixedStable();
    StrStable();
  }

  function PublishDecoder(codec: PacketCodec): Decoder<Publish> {
    d => GetPublish(codec, d)
  }

  lemma PublishStable(codec: PacketCodec)
    ensures Stable(PublishDecoder(codec))
  {
    PrefixStable();
  }

  lemma {:induction false} ManyStable<T(!new)>(get: Decoder<T>, n: nat, d: Bytes, more: Bytes)
    requires Stable(get) && GetMany(get, n, d).Some?
    ensures GetMany(get, n, d + more) == Some((GetMany(get, n, d).value.0, GetMany(get, n, d).value.1 + more))
  {
    if n > 0 { ManyStable(get, n - 1, get(d).value.1, more); }
  }

  lemma ListStable<T(!new)>(get: Decoder<T>, d: Bytes, more: Bytes)
    requires Stable(get) && GetList(get, d).Some?
    ensures GetList(get, d + more) == Some((GetList(get, d).value.0, GetList(get, d).value.1 + more))
  {
    FixedStable();
    var (n, d1) := GetU32(d).value;
    assert GetU32(d + more) == Some((n, d1 + more));
    ManyStable(get, n, d1, more);
  }

  /** A decoder that undoes its writer and is stable fails on every cut of what was written. */
  lemma CutFails<T(!new)>(get: Decoder<T>, b: Bytes, x: T, k: nat)
    requires Stable(get) && Reads(get, b, x) && k < |b|
    ensures get(b[..k]).None?
  {
    assert b[..k] + b[k..] == b == b + [];
    assert get(b + []) == Some((x, []));
    var tail := b[k..];
    if get(b[..k]).Some? { assert false; }
  }

  /** Decoding never leaves more than it was given. */
  ghost predicate Shrinks<T(!new)>(get: Decoder<T>) {
    forall d | get(d).Some? :: |get(d).value.1| <= |d|
  }

  lemma {:induction false} ManyShrinks<T(!new)>(get: Decoder<T>, n: nat, d: Bytes)
    requires Shrinks(get) && GetMany(get, n, d).Some?
    ensures |GetMany(get, n, d).value.1| <= |d|
  {
    if n > 0 { ManyShrinks(get, n - 1, get(d).value.1); }
  }

  lemma ListShrinks<T(!new)>(get: Decoder<T>, d: Bytes)
    requires Shrinks(get) && GetList(get, d).Some?
    ensures |GetList(get, d).value.1| <= |d|
  {
    ManyShrinks(get, GetU32(d).value.0, GetU32(d).value.1);
  }
}
