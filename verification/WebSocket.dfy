/** The WebSocket frame decoder: client frames in, the MQTT byte stream out. */
module WebSocket {
  import opened Types

  // --- masking ---------------------------------------------------------------------------

  function Pow2(n: nat): nat {
    if n == 0 then 1 else 2 * Pow2(n - 1)
  }

  /** Exclusive or of the low `n` bits. */
  function XorBits(a: nat, b: nat, n: nat): (x: nat)
    ensures x < Pow2(n)
  {
    if n == 0 then 0 else (if a % 2 == b % 2 then 0 else 1) + 2 * XorBits(a / 2, b / 2, n - 1)
  }

  lemma {:induction false} XorTwice(a: nat, b: nat, n: nat)
    requires a < Pow2(n)
    ensures XorBits(XorBits(a, b, n), b, n) == a
  {
    if n > 0 {
      XorTwice(a / 2, b / 2, n - 1);
      LowBit(if a % 2 == b % 2 then 0 else 1, XorBits(a / 2, b / 2, n - 1));
    }
  }

  lemma LowBit(bit: nat, rest: nat)
    requires bit < 2
    ensures (bit + 2 * rest) % 2 == bit && (bit + 2 * rest) / 2 == rest
  {
  }

  lemma Octets()
    ensures Pow2(8) == 256
  {
    assert Pow2(4) == 16;
    assert Pow2(8) == 2 * (2 * (2 * (2 * Pow2(4))));
  }

  function Xor(a: byte, b: byte): byte {
    Octets();
    XorBits(a, b, 8)
  }

  lemma XorUndoes(a: byte, b: byte)
    ensures Xor(Xor(a, b), b) == a
  {
    Octets();
    XorTwice(a, b, 8);
  }

  /** The `k`th bit from the right. */
  predicate Bit(n: nat, k: nat) {
    if k == 0 then n % 2 == 1 else Bit(n / 2, k - 1)
  }

  lemma {:induction false} XorBitByBit(a: nat, b: nat, n: nat, k: nat)
    requires k < n
    ensures Bit(XorBits(a, b, n), k) <==> Bit(a, k) != Bit(b, k)
  {
    LowBit(if a % 2 == b % 2 then 0 else 1, XorBits(a / 2, b / 2, n - 1));
    if k > 0 { XorBitByBit(a / 2, b / 2, n - 1, k - 1); }
  }

  /** A bit is set exactly if it is set in one of the two. */
  lemma XorIsExclusive(a: byte, b: byte, k: nat)
    requires k < 8
    ensures Bit(Xor(a, b), k) <==> Bit(a, k) != Bit(b, k)
  {
    XorBitByBit(a, b, 8, k);
  }

  /** Every byte combined with the mask byte of its position. */
  function Masked(data: Bytes, mask: Bytes): (r: Bytes)
    requires |mask| == 4
    ensures |r| == |data| && forall i | 0 <= i < |data| :: r[i] == Xor(data[i], mask[i % 4])
  {
    seq(|data|, i requires 0 <= i < |data| => Xor(data[i], mask[i % 4]))
  }

  lemma MaskUndoes(data: Bytes, mask: Bytes)
    requires |mask| == 4
    ensures Masked(Masked(data, mask), mask) == data
  {
    forall i | 0 <= i < |data| ensures Masked(Masked(data, mask), mask)[i] == data[i] { XorUndoes(data[i], mask[i % 4]); }
  }

  // --- lengths ----------------------------------------------------------------------------

  function FromBe(b: Bytes): nat {
    if b == [] then 0 else FromBe(b[..|b| - 1]) * 256 + b[|b| - 1]
  }

  function ToBe(n: nat, k: nat): (b: Bytes)
    ensures |b| == k
  {
    if k == 0 then [] else ToBe(n / 256, k - 1) + [n % 256]
  }

  lemma {:induction false} BeRoundTrip(n: nat, k: nat)
    requires n < Pow256(k)
    ensures FromBe(ToBe(n, k)) == n
  {
    if k > 0 {
      Shifted(n, Pow256(k - 1));
      BeRoundTrip(n / 256, k - 1);
      var b := ToBe(n, k);
      assert b[..k - 1] == ToBe(n / 256, k - 1) && b[k - 1] == n % 256;
    }
  }

  /** The first byte counts most. */
  lemma {:induction false} FirstIsHighest(b: Bytes)
    requires b != []
    ensures FromBe(b) == b[0] * Pow256(|b| - 1) + FromBe(b[1..])
  {
    if |b| > 1 {
      var k := |b| - 1;
      FirstIsHighest(b[..k]);
      assert b[..k][1..] == b[1..][..k - 1];
      Carried(b[0], Pow256(k - 1), FromBe(b[1..][..k - 1]), b[k]);
    } else {
      assert FromBe(b[..0]) == 0;
    }
  }

  lemma Carried(high: nat, p: nat, mid: nat, low: nat)
    ensures (high * p + mid) * 256 + low == high * (256 * p) + (mid * 256 + low)
  {
  }

  lemma Shifted(n: nat, p: nat)
    requires n < 256 * p
    ensures n / 256 < p && n / 256 * 256 + n % 256 == n
  {
  }

  // --- one frame ---------------------------------------------------------------------------

  datatype Parsed = Partial | Bad | Whole(opcode: byte, payload: Bytes, total: nat)

  /** The header's length field: the payload length and where it ends, once enough bytes are there. */
  function Length(buf: Bytes): Option<(nat, nat)>
    requires |buf| >= 2
  {
    var len := buf[1] % 128;
    if len == 126 then if |buf| < 4 then None else Some((FromBe(buf[2..4]), 4))
    else if len == 127 then if |buf| < 10 then None else Some((FromBe(buf[2..10]), 10))
    else Some((len, 2))
  }

  function Parse(buf: Bytes, maxFrame: nat): Parsed {
    if |buf| < 2 || Length(buf).None? then Partial
    else
      var opcode := buf[0] % 16;
      var (len, offset) := Length(buf).value;
      if len > maxFrame then Bad
      else if opcode >= 8 && (buf[0] < 128 || len > 125) then Bad
      else if buf[1] < 128 then Bad
      else if |buf| < offset + 4 + len then Partial
      else Whole(opcode, Masked(buf[offset + 4..offset + 4 + len], buf[offset..offset + 4]), offset + 4 + len)
  }

  lemma LengthStable(buf: Bytes, more: Bytes)
    requires |buf| >= 2 && Length(buf).Some?
    ensures Length(buf + more) == Length(buf) && Length(buf).value.1 <= |buf| && Length(buf).value.1 >= 2
  {
    var all := buf + more;
    if |buf| >= 4 { assert all[2..4] == buf[2..4]; }
    if |buf| >= 10 { assert all[2..10] == buf[2..10]; }
  }

  /** Once a frame is whole, or bad, more input does not change that. */
  lemma ParseStable(buf: Bytes, more: Bytes, maxFrame: nat)
    ensures !Parse(buf, maxFrame).Partial? ==> Parse(buf + more, maxFrame) == Parse(buf, maxFrame)
    ensures Parse(buf, maxFrame).Whole? ==> 0 < Parse(buf, maxFrame).total <= |buf|
  {
    if |buf| >= 2 && Length(buf).Some? {
      LengthStable(buf, more);
      var (len, offset) := Length(buf).value;
      if |buf| >= offset + 4 + len {
        var all := buf + more;
        assert all[offset + 4..offset + 4 + len] == buf[offset + 4..offset + 4 + len];
        assert all[offset..offset + 4] == buf[offset..offset + 4];
      }
    }
  }

  /** The three ways to write a length. */
  datatype Form = Short | Medium | Long

  predicate FormFits(form: Form, len: nat) {
    match form
    case Short => len < 126
    case Medium => len < 0x1_0000
    case Long => len < 0x1_0000_0000_0000_0000
  }

  function PutLength(form: Form, len: nat): Bytes
    requires FormFits(form, len)
  {
    match form
    case Short => [128 + len]
    case Medium => [128 + 126] + ToBe(len, 2)
    case Long => [128 + 127] + ToBe(len, 8)
  }

  /** A client's frame, masked; `first` holds the FIN bit, three reserved bits and the opcode. */
  function ClientFrame(first: byte, form: Form, mask: Bytes, payload: Bytes): Bytes
    requires |mask| == 4 && FormFits(form, |payload|)
  {
    [first] + PutLength(form, |payload|) + mask + Masked(payload, mask)
  }

  /** What section 5.5 of RFC 6455 asks of a control frame, and the configured limit of any. */
  predicate Acceptable(first: byte, len: nat, maxFrame: nat) {
    len <= maxFrame && (first % 16 >= 8 ==> first >= 128 && len <= 125)
  }

  lemma PowersOf256()
    ensures Pow256(2) == 0x1_0000 && Pow256(8) == 0x1_0000_0000_0000_0000
  {
    assert Pow256(4) == 0x1_0000_0000;
    assert Pow256(8) == 256 * (256 * (256 * (256 * Pow256(4))));
  }

  lemma LengthReads(first: byte, form: Form, len: nat, rest: Bytes)
    requires FormFits(form, len)
    ensures var buf := [first] + PutLength(form, len) + rest;
            Length(buf) == Some((len, 1 + |PutLength(form, len)|)) && buf[1] >= 128
  {
    var buf := [first] + PutLength(form, len) + rest;
    PowersOf256();
    match form
    case Short =>
    case Medium =>
      assert buf[2..4] == ToBe(len, 2);
      BeRoundTrip(len, 2);
    case Long =>
      assert buf[2..10] == ToBe(len, 8);
      BeRoundTrip(len, 8);
  }

  /** A masked frame in any length form, followed by anything, parses to its payload and consumes
      exactly its own bytes. */
  lemma FrameRoundTrip(first: byte, form: Form, mask: Bytes, payload: Bytes, rest: Bytes, maxFrame: nat)
    requires |mask| == 4 && FormFits(form, |payload|) && Acceptable(first, |payload|, maxFrame)
    ensures var frame := ClientFrame(first, form, mask, payload);
            Parse(frame + rest, maxFrame) == Whole(first % 16, payload, |frame|)
  {
    var head, data := [first] + PutLength(form, |payload|), Masked(payload, mask);
    var buf := ClientFrame(first, form, mask, payload) + rest;
    FourParts(head, mask, data, rest);
    LengthReads(first, form, |payload|, mask + (data + rest));
    MaskUndoes(payload, mask);
    ParseWhole(buf, |payload|, |head|, maxFrame);
  }

  lemma {:induction false} BeUnique(b: Bytes)
    ensures ToBe(FromBe(b), |b|) == b && FromBe(b) < Pow256(|b|)
  {
    if b != [] {
      var k := |b| - 1;
      BeUnique(b[..k]);
      LowByte(FromBe(b[..k]), b[k]);
      assert b == b[..k] + [b[k]];
    }
  }

  lemma LowByte(high: nat, low: byte)
    ensures (high * 256 + low) / 256 == high && (high * 256 + low) % 256 == low
  {
  }

  lemma LengthWritten(buf: Bytes) returns (form: Form)
    requires |buf| >= 2 && buf[1] >= 128 && Length(buf).Some?
    ensures FormFits(form, Length(buf).value.0) && PutLength(form, Length(buf).value.0) == buf[1..Length(buf).value.1]
  {
    PowersOf256();
    var len := buf[1] - 128;
    if len == 126 {
      form := Medium;
      BeUnique(buf[2..4]);
      assert buf[1..4] == [buf[1]] + buf[2..4];
    } else if len == 127 {
      form := Long;
      BeUnique(buf[2..10]);
      assert buf[1..10] == [buf[1]] + buf[2..10];
    } else {
      form := Short;
    }
  }

  /** Nothing else is accepted: a frame that parses is some client's acceptable frame with that payload. */
  lemma AcceptsOnlyFrames(buf: Bytes, maxFrame: nat) returns (form: Form, mask: Bytes)
    requires Parse(buf, maxFrame).Whole?
    ensures var p := Parse(buf, maxFrame);
            && p.total <= |buf| && p.opcode == buf[0] % 16 && |mask| == 4 && FormFits(form, |p.payload|)
            && Acceptable(buf[0], |p.payload|, maxFrame)
            && buf[..p.total] == ClientFrame(buf[0], form, mask, p.payload)
  {
    var p := Parse(buf, maxFrame);
    var (len, offset) := Length(buf).value;
    form := LengthWritten(buf);
    mask := buf[offset..offset + 4];
    var data := buf[offset + 4..offset + 4 + len];
    MaskUndoes(data, mask);
    assert buf[..p.total] == [buf[0]] + buf[1..offset] + mask + data;
  }

  lemma FourParts(a: Bytes, b: Bytes, c: Bytes, d: Bytes)
    ensures a + b + c + d == a + (b + (c + d))
    ensures var buf := a + (b + (c + d)); buf[|a|..|a| + |b|] == b && buf[|a| + |b|..|a| + |b| + |c|] == c
  {
  }

  lemma ParseWhole(buf: Bytes, len: nat, offset: nat, maxFrame: nat)
    requires |buf| >= 2 && Length(buf) == Some((len, offset)) && |buf| >= offset + 4 + len
    requires len <= maxFrame && buf[1] >= 128 && (buf[0] % 16 >= 8 ==> buf[0] >= 128 && len <= 125)
    ensures Parse(buf, maxFrame)
         == Whole(buf[0] % 16, Masked(buf[offset + 4..offset + 4 + len], buf[offset..offset + 4]), offset + 4 + len)
  {
  }

  // --- the stream -----------------------------------------------------------------------------

  datatype Reply = Pong(payload: Bytes) | CloseEcho

  datatype End = Waiting(rest: Bytes) | Closed | Failed

  /** What a run of input yields: application bytes, replies owed to the peer, and how it stands. */
  datatype Decoded = Decoded(app: Bytes, replies: seq<Reply>, end: End)

  function Ahead(app: Bytes, replies: seq<Reply>, d: Decoded): Decoded {
    Decoded(app + d.app, replies + d.replies, d.end)
  }

  type Parser = Bytes -> Parsed

  function FrameParser(maxFrame: nat): Parser {
    buf => Parse(buf, maxFrame)
  }

  /** A verdict on a buffer stands whatever follows, and a frame lies within its buffer. */
  ghost predicate Steady(parse: Parser) {
    && (forall buf, more | !parse(buf).Partial? :: parse(buf + more) == parse(buf))
    && (forall buf | parse(buf).Whole? :: 0 < parse(buf).total <= |buf|)
  }

  lemma FrameParserSteady(maxFrame: nat)
    ensures Steady(FrameParser(maxFrame))
  {
    forall buf, more ensures !Parse(buf, maxFrame).Partial? ==> Parse(buf + more, maxFrame) == Parse(buf, maxFrame) {
      ParseStable(buf, more, maxFrame);
    }
    forall buf | Parse(buf, maxFrame).Whole? ensures 0 < Parse(buf, maxFrame).total <= |buf| {
      ParseStable(buf, [], maxFrame);
    }
  }

  ghost function Decode(raw: Bytes, parse: Parser): Decoded
    requires Steady(parse)
    decreases |raw|
  {
    match parse(raw)
    case Partial => Decoded([], [], Waiting(raw))
    case Bad => Decoded([], [], Failed)
    case Whole(opcode, payload, total) =>
      if opcode <= 2 then Ahead(payload, [], Decode(raw[total..], parse))
      else if opcode == 8 then Decoded([], [CloseEcho], Closed)
      else if opcode == 9 then Ahead([], [Pong(payload)], Decode(raw[total..], parse))
      else if opcode == 10 then Decode(raw[total..], parse)
      else Decoded([], [], Failed)
  }

  /** A client's frame, in any length form, under any mask. */
  datatype Frame = Frame(first: byte, form: Form, mask: Bytes, payload: Bytes)

  predicate Sendable(f: Frame, maxFrame: nat) {
    |f.mask| == 4 && FormFits(f.form, |f.payload|) && Acceptable(f.first, |f.payload|, maxFrame)
  }

  function FrameBytes(f: Frame): Bytes
    requires |f.mask| == 4 && FormFits(f.form, |f.payload|)
  {
    ClientFrame(f.first, f.form, f.mask, f.payload)
  }

  function AllBytes(fs: seq<Frame>, maxFrame: nat): Bytes
    requires forall i | 0 <= i < |fs| :: Sendable(fs[i], maxFrame)
  {
    if fs == [] then [] else assert Sendable(fs[0], maxFrame); FrameBytes(fs[0]) + AllBytes(fs[1..], maxFrame)
  }

  /** Continuation, text or binary; ping; pong; close (section 5.2 of RFC 6455). */
  predicate IsData(f: Frame) {
    f.first % 16 in {0x0, 0x1, 0x2}
  }

  predicate IsPing(f: Frame) {
    f.first % 16 == 0x9
  }

  predicate IsPong(f: Frame) {
    f.first % 16 == 0xA
  }

  predicate IsClose(f: Frame) {
    f.first % 16 == 0x8
  }

  /** The payloads of the data frames, put together. */
  function DataOf(fs: seq<Frame>): Bytes {
    if fs == [] then [] else DataIn(fs[0]) + DataOf(fs[1..])
  }

  /** A pong for each ping, with its payload. */
  function PongsTo(fs: seq<Frame>): seq<Reply> {
    if fs == [] then [] else PongFor(fs[0]) + PongsTo(fs[1..])
  }

  lemma OneFrame(f: Frame, rest: Bytes, maxFrame: nat)
    requires Sendable(f, maxFrame)
    ensures Steady(FrameParser(maxFrame))
    ensures FrameParser(maxFrame)(FrameBytes(f) + rest) == Whole(f.first % 16, f.payload, |FrameBytes(f)|)
    ensures (FrameBytes(f) + rest)[|FrameBytes(f)|..] == rest
  {
    FrameParserSteady(maxFrame);
    FrameRoundTrip(f.first, f.form, f.mask, f.payload, rest, maxFrame);
  }

  function DataIn(f: Frame): Bytes {
    if IsData(f) then f.payload else []
  }

  function PongFor(f: Frame): seq<Reply> {
    if IsPing(f) then [Pong(f.payload)] else []
  }

  predicate GoesOn(f: Frame) {
    IsData(f) || IsPing(f) || IsPong(f)
  }

  lemma PlainFrameDecodes(f: Frame, rest: Bytes, maxFrame: nat, parse: Parser)
    requires Sendable(f, maxFrame) && GoesOn(f) && parse == FrameParser(maxFrame) && Steady(parse)
    ensures Decode(FrameBytes(f) + rest, parse) == Ahead(DataIn(f), PongFor(f), Decode(rest, parse))
  {
    OneFrame(f, rest, maxFrame);
    AheadNothing(Decode(rest, parse));
  }

  lemma BytesNext(fs: seq<Frame>, rest: Bytes, maxFrame: nat)
    requires fs != [] && forall i | 0 <= i < |fs| :: Sendable(fs[i], maxFrame)
    ensures Sendable(fs[0], maxFrame) && AllBytes(fs, maxFrame) + rest == FrameBytes(fs[0]) + (AllBytes(fs[1..], maxFrame) + rest)
  {
  }

  /** What the peer sent is what is read: the application gets the payloads of the data frames, in order and
      in one piece; each ping is answered with its payload; pongs are ignored. */
  lemma {:induction false} FramesDecode(fs: seq<Frame>, rest: Bytes, maxFrame: nat, parse: Parser)
    requires parse == FrameParser(maxFrame) && Steady(parse)
    requires (forall i | 0 <= i < |fs| :: Sendable(fs[i], maxFrame)) && forall i | 0 <= i < |fs| :: GoesOn(fs[i])
    ensures Decode(AllBytes(fs, maxFrame) + rest, parse) == Ahead(DataOf(fs), PongsTo(fs), Decode(rest, parse))
    decreases |fs|
  {
    if fs == [] {
      assert [] + rest == rest;
      AheadNothing(Decode(rest, parse));
    } else {
      BytesNext(fs, rest, maxFrame);
      assert GoesOn(fs[0]);
      PlainFrameDecodes(fs[0], AllBytes(fs[1..], maxFrame) + rest, maxFrame, parse);
      FramesDecode(fs[1..], rest, maxFrame, parse);
      AheadTwice(DataIn(fs[0]), PongFor(fs[0]), DataOf(fs[1..]), PongsTo(fs[1..]), Decode(rest, parse));
    }
  }

  /** A close is echoed and ends the stream, whatever follows it; a frame of any other kind fails it. */
  lemma LastFrameDecodes(f: Frame, rest: Bytes, maxFrame: nat)
    requires Sendable(f, maxFrame) && !GoesOn(f)
    ensures Steady(FrameParser(maxFrame))
    ensures Decode(FrameBytes(f) + rest, FrameParser(maxFrame)) == if IsClose(f) then Decoded([], [CloseEcho], Closed) else Decoded([], [], Failed)
  {
    OneFrame(f, rest, maxFrame);
  }

  /** Decoding goes on from where it stood; once closed or failed it stays so. */
  ghost function Fed(d: Decoded, chunk: Bytes, parse: Parser): Decoded
    requires Steady(parse)
  {
    if d.end.Waiting? then Ahead(d.app, d.replies, Decode(d.end.rest + chunk, parse)) else d
  }

  lemma AheadFed(app: Bytes, replies: seq<Reply>, d: Decoded, chunk: Bytes, parse: Parser)
    requires Steady(parse)
    ensures Fed(Ahead(app, replies, d), chunk, parse) == Ahead(app, replies, Fed(d, chunk, parse))
  {
    if d.end.Waiting? {
      var e := Decode(d.end.rest + chunk, parse);
      assert app + d.app + e.app == app + (d.app + e.app);
      assert replies + d.replies + e.replies == replies + (d.replies + e.replies);
    }
  }

  lemma {:induction false} DecodeMore(raw: Bytes, more: Bytes, parse: Parser)
    requires Steady(parse)
    ensures Decode(raw + more, parse) == Fed(Decode(raw, parse), more, parse)
    decreases |raw|
  {
    var p := parse(raw);
    if p.Partial? {
      var d := Decode(raw + more, parse);
      AheadNothing(d);
    } else if p.Whole? {
      assert (raw + more)[p.total..] == raw[p.total..] + more;
      DecodeMore(raw[p.total..], more, parse);
      var d := Decode(raw[p.total..], parse);
      AheadFed(p.payload, [], d, more, parse);
      AheadFed([], [Pong(p.payload)], d, more, parse);
    }
  }

  function Joined(chunks: seq<Bytes>): Bytes {
    if chunks == [] then [] else chunks[0] + Joined(chunks[1..])
  }

  /** Input arriving in chunks. */
  ghost function FeedAll(d: Decoded, chunks: seq<Bytes>, parse: Parser): Decoded
    requires Steady(parse)
    decreases |chunks|
  {
    if chunks == [] then d else FeedAll(Fed(d, chunks[0], parse), chunks[1..], parse)
  }

  lemma {:induction false} FeedingDecodes(raw: Bytes, chunks: seq<Bytes>, parse: Parser)
    requires Steady(parse)
    ensures FeedAll(Decode(raw, parse), chunks, parse) == Decode(raw + Joined(chunks), parse)
    decreases |chunks|
  {
    if chunks == [] {
      assert raw + [] == raw;
    } else {
      DecodeMore(raw, chunks[0], parse);
      FeedingDecodes(raw + chunks[0], chunks[1..], parse);
      assert raw + (chunks[0] + Joined(chunks[1..])) == raw + chunks[0] + Joined(chunks[1..]);
    }
  }

  const START := Decoded([], [], Waiting([]))

  /** Chunk independence: however the input is split, the application bytes, the replies and the outcome
      are those of the whole input at once, so any two splits agree. */
  lemma ChunksDoNotMatter(chunks: seq<Bytes>, others: seq<Bytes>, maxFrame: nat)
    requires Joined(chunks) == Joined(others)
    ensures Steady(FrameParser(maxFrame))
    ensures FeedAll(START, chunks, FrameParser(maxFrame)) == Decode(Joined(chunks), FrameParser(maxFrame))
    ensures FeedAll(START, chunks, FrameParser(maxFrame)) == FeedAll(START, others, FrameParser(maxFrame))
  {
    var parse := FrameParser(maxFrame);
    FrameParserSteady(maxFrame);
    assert Decode([], parse) == START;
    FeedingDecodes([], chunks, parse);
    FeedingDecodes([], others, parse);
    assert [] + Joined(chunks) == Joined(chunks);
  }

  // --- the reading object ----------------------------------------------------------------------

  class WsStream {
    const parse: Parser
    /** What the transport will still deliver, read by read; none left is the end of input. */
    var incoming: seq<Bytes>
    var raw: Bytes
    var app: Bytes
    var closed: bool
    var replies: seq<Reply>

    /** Everything this stream has yet to yield, and all it has replied or will reply. */
    ghost function Future(): Decoded
      requires Steady(parse)
      reads this
    {
      if closed then Decoded(app, replies, Closed) else Ahead(app, replies, Decode(raw + Joined(incoming), parse))
    }

    constructor (maxFrame: nat, leftover: Bytes, incoming: seq<Bytes>)
      ensures parse == FrameParser(maxFrame) && Steady(parse)
      ensures Future() == Decode(leftover + Joined(incoming), FrameParser(maxFrame))
    {
      this.parse, this.incoming := FrameParser(maxFrame), incoming;
      raw, app, closed, replies := leftover, [], false, [];
      new;
      FrameParserSteady(maxFrame);
      AheadNothing(Decode(leftover + Joined(incoming), parse));
    }

    /** Decodes one frame from the buffer, if it is whole: `Some(true)` if it did, `Some(false)` if more
        bytes are needed, `None` on a protocol error. */
    method PumpFrame() returns (r: Option<bool>)
      requires Steady(parse) && !closed
      modifies this
      ensures incoming == old(incoming) && (r.Some? ==> Future() == old(Future()))
      ensures r.None? ==> old(Future()).end == Failed && old(Future()).app == app == old(app) && replies == old(replies) && !closed
      ensures r.None? ==> raw == if parse(old(raw)).Whole? then old(raw)[parse(old(raw)).total..] else old(raw)
      ensures r == Some(true) ==> |raw| < old(|raw|)
      ensures r == Some(false) ==> raw == old(raw) && parse(raw).Partial? && !closed && app == old(app)
    {
      var p := parse(raw);
      if p.Partial? { return Some(false); }
      ghost var rest := Joined(incoming);
      assert parse(raw + rest) == p;
      if p.Bad? {
        assert app + [] == app;
        return None;
      }
      assert (raw + rest)[p.total..] == raw[p.total..] + rest;
      ghost var d := Decode(raw[p.total..] + rest, parse);
      raw := raw[p.total..];
      r := Some(true);
      if p.opcode <= 2 {
        AheadTwice(app, replies, p.payload, [], d);
        app := app + p.payload;
      } else if p.opcode == 8 {
        assert app + [] == app;
        replies, closed := replies + [CloseEcho], true;
      } else if p.opcode == 9 {
        AheadTwice(app, replies, [], [Pong(p.payload)], d);
        replies := replies + [Pong(p.payload)];
      } else if p.opcode > 10 || p.opcode < 8 {
        assert app + [] == app;
        return None;
      }
    }

    /** Returns the next application bytes, at most `limit` of them. What the reads return, put together,
        is the decoded stream, whatever the transport's reads and the limits are. */
    method Read(limit: nat) returns (r: Option<Bytes>)
      requires Steady(parse) && limit > 0
      modifies this
      ensures r.Some? ==> |r.value| <= limit && old(Future()) == Ahead(r.value, [], Future())
      ensures r == Some([]) ==> Future().app == []
      ensures r.None? ==> old(Future()).app == [] && old(Future()).end == Failed
    {
      ghost var was := Future();
      while app == [] && !closed
        invariant Future() == was
        decreases |incoming|, |raw|
      {
        var pumped := PumpFrame();
        if pumped.None? { return None; }
        if !pumped.value {
          if incoming == [] {
            AheadNothing(Future());
            assert raw + [] == raw && app + [] == app;
            return Some([]);
          }
          assert raw + (incoming[0] + Joined(incoming[1..])) == raw + incoming[0] + Joined(incoming[1..]);
          raw, incoming := raw + incoming[0], incoming[1..];
        }
      }
      var n := if |app| < limit then |app| else limit;
      r := Some(app[..n]);
      Taken(app, n, if closed then [] else Decode(raw + Joined(incoming), parse).app);
      assert [] + was.replies == was.replies;
      app := app[n..];
    }
  }

  lemma AheadNothing(d: Decoded)
    ensures Ahead([], [], d) == d
  {
    assert [] + d.app == d.app && [] + d.replies == d.replies;
  }

  lemma AheadTwice(app: Bytes, replies: seq<Reply>, more: Bytes, owed: seq<Reply>, d: Decoded)
    ensures Ahead(app, replies, Ahead(more, owed, d)) == Ahead(app + more, replies + owed, d)
    ensures Ahead(app, replies, Ahead(more, [], d)) == Ahead(app + more, replies, d)
    ensures Ahead(app, replies, Ahead([], owed, d)) == Ahead(app, replies + owed, d)
  {
    assert app + more + d.app == app + (more + d.app) && replies + owed + d.replies == replies + (owed + d.replies);
    assert replies + ([] + d.replies) == replies + d.replies && app + ([] + d.app) == app + d.app;
  }

  lemma Taken(app: Bytes, n: nat, later: Bytes)
    requires n <= |app|
    ensures app + later == app[..n] + (app[n..] + later) && app == app[..n] + app[n..]
  {
  }
}
