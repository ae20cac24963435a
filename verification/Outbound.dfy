/** The sending side of one connection: the in-flight window, the queue of held messages, and
    topic aliases. */
module Outbound {
  import opened Types
  import opened PacketIds

  const PENDING_OUTBOUND_LIMIT := 4096

  /** What the client and the configuration allow. */
  datatype Limits = Limits(receiveMax: u16, maxInflight: u16, maxPacket: Option<nat>, aliasMax: u16)

  /** What reaches the client. */
  datatype Packet = Pub(p: Publish) | Rel(pkid: u16)

  datatype Conn = Conn(
    inflight: map<u16, InflightMessage>,
    pending: seq<Delivery>,
    nextPkid: u16,
    aliases: map<string, u16>,
    wire: seq<Packet>)

  /** The encoder: a packet's size, or that it cannot be encoded. */
  type Encoder = Publish -> Option<nat>

  function Window(lim: Limits): (n: nat)
    ensures 1 <= n <= 65535
  {
    var n := if lim.receiveMax < lim.maxInflight then lim.receiveMax else lim.maxInflight;
    if n == 0 then 1 else n
  }

  // --- sending -------------------------------------------------------------------------

  /** A delivery as a PUBLISH for this client, topic in full. */
  function Stamped(d: Delivery, pkid: u16): Publish {
    var p := d.publish.(qos := d.qos, dup := false, retain := d.retain, pkid := pkid);
    if d.subIds == [] && p.properties.None? then p
    else
      var props := if p.properties.Some? then p.properties.value else NO_PROPERTIES;
      p.(properties := Some(props.(topicAlias := None, subscriptionIds := d.subIds)))
  }

  function WithAlias(p: Publish, alias: u16): Publish {
    var props := if p.properties.Some? then p.properties.value else NO_PROPERTIES;
    p.(properties := Some(props.(topicAlias := Some(alias))))
  }

  /** The packet to write and the alias table to go with it. */
  function Aliased(aliases: map<string, u16>, max: u16, p: Publish): (Publish, map<string, u16>) {
    if max == 0 then (p, aliases)
    else if p.topic in aliases then (WithAlias(p, aliases[p.topic]).(topic := ""), aliases)
    else if |aliases| < max then (WithAlias(p, |aliases| + 1), aliases[p.topic := |aliases| + 1])
    else (p, aliases)
  }

  function InitialState(q: QoS): InflightState {
    if q == AtLeastOnce then Qos1 else Qos2Pending
  }

  function PkidFor(c: Conn, d: Delivery): u16 {
    if d.qos == AtMostOnce then 0 else FirstFree(c.inflight.Keys, c.nextPkid)
  }

  predicate TooBig(lim: Limits, size: nat) {
    lim.maxPacket.Some? && size > lim.maxPacket.value
  }

  /** A packet that cannot be encoded ends the connection; one the client cannot take is dropped; any
      other is written, and above QoS 0 in flight with its topic in full. */
  function Settle(c: Conn, lim: Limits, qos: QoS, pkid: u16, message: Publish, packet: Publish, aliases: map<string, u16>,
                  size: Option<nat>): Option<Conn> {
    var n :- size;
    if TooBig(lim, n) then Some(c)
    else Some(c.(aliases := aliases, wire := c.wire + [Pub(packet)],
                 inflight := if qos == AtMostOnce then c.inflight
                             else c.inflight[pkid := InflightMessage(message, InitialState(qos))]))
  }

  /** One send. */
  function Attempt(c: Conn, lim: Limits, size: Encoder, d: Delivery): Option<Conn> {
    var pkid := PkidFor(c, d);
    var cursor := if d.qos == AtMostOnce then c.nextPkid else pkid;
    var (packet, aliases) := Aliased(c.aliases, lim.aliasMax, Stamped(d, pkid));
    Settle(c.(nextPkid := cursor), lim, d.qos, pkid, Stamped(d, pkid), packet, aliases, size(packet))
  }

  function Queued(q: seq<Delivery>, d: Delivery): seq<Delivery> {
    (if |q| >= PENDING_OUTBOUND_LIMIT then q[1..] else q) + [d]
  }

  predicate Sends(c: Conn, lim: Limits, d: Delivery) {
    d.qos == AtMostOnce || |c.inflight| < Window(lim)
  }

  function Deliver(c: Conn, lim: Limits, size: Encoder, d: Delivery): Option<Conn> {
    if Sends(c, lim, d) then Attempt(c, lim, size, d) else Some(c.(pending := Queued(c.pending, d)))
  }

  lemma AttemptKeepsPending(c: Conn, lim: Limits, size: Encoder, d: Delivery)
    requires Attempt(c, lim, size, d).Some?
    ensures Attempt(c, lim, size, d).value.pending == c.pending
  {
  }

  /** Sends held messages while the window has room. */
  function Drain(c: Conn, lim: Limits, size: Encoder): Option<Conn>
    decreases |c.pending|
  {
    if |c.inflight| < Window(lim) && c.pending != [] then
      var next :- Attempt(c.(pending := c.pending[1..]), lim, size, c.pending[0]);
      Drain(next, lim, size)
    else Some(c)
  }

  /** PUBACK or PUBCOMP. */
  function Ack(c: Conn, lim: Limits, size: Encoder, pkid: u16): Option<Conn> {
    if pkid in c.inflight then Drain(c.(inflight := c.inflight - {pkid}), lim, size) else Some(c)
  }

  /** PUBREC. */
  function Rec(c: Conn, pkid: u16): Conn {
    var inflight := if pkid in c.inflight && c.inflight[pkid].state == Qos2Pending
                    then c.inflight[pkid := c.inflight[pkid].(state := Qos2Released)] else c.inflight;
    c.(inflight := inflight, wire := c.wire + [Rel(pkid)])
  }

  // --- parking ---------------------------------------------------------------------------

  /** What a parked connection keeps besides its session. */
  datatype ResumeState = ResumeState(nextPkid: u16, aliases: map<string, u16>, lim: Limits)

  /** The connection may park: nothing in flight, held or half received. */
  predicate ParkReady(c: Conn, incomingQos2: map<u16, Publish>) {
    c.inflight == map[] && c.pending == [] && incomingQos2 == map[]
  }

  function IntoParts(c: Conn, lim: Limits): ResumeState {
    ResumeState(c.nextPkid, c.aliases, lim)
  }

  function ParkSnapshot(c: Conn, incomingQos2: map<u16, Publish>): SessionSnapshot {
    SessionSnapshot(c.inflight, incomingQos2, c.nextPkid)
  }

  /** Rebuilt from its parts and its session's snapshot; the wire is the same client's. */
  function Rebuilt(parts: ResumeState, snapshot: SessionSnapshot, wire: seq<Packet>): Conn {
    Conn(snapshot.inflight, [], snapshot.nextPkid, parts.aliases, wire)
  }

  function DeliverAll(c: Conn, lim: Limits, size: Encoder, ds: seq<Delivery>): Option<Conn>
    decreases |ds|
  {
    if ds == [] then Some(c)
    else
      var next :- Deliver(c, lim, size, ds[0]);
      DeliverAll(next, lim, size, ds[1..])
  }

  /** A spell in the parking registry: the connection is taken apart, rebuilt around the snapshot its
      session kept, and delivers what was queued meanwhile. */
  function Spell(c: Conn, lim: Limits, size: Encoder, incomingQos2: map<u16, Publish>, queued: seq<Delivery>): Option<Conn> {
    var back := IntoParts(c, lim);
    DeliverAll(Rebuilt(back, ParkSnapshot(c, incomingQos2), c.wire), back.lim, size, queued)
  }

  datatype Event =
    | Delivered(d: Delivery)
    | Acked(pkid: u16)
    | Received(pkid: u16)
    | Parked(incomingQos2: map<u16, Publish>, queued: seq<Delivery>)

  /** `None` if a packet cannot be encoded, or the connection may not park. */
  function Next(c: Conn, lim: Limits, size: Encoder, e: Event): Option<Conn> {
    match e
    case Delivered(d) => Deliver(c, lim, size, d)
    case Acked(pkid) => Ack(c, lim, size, pkid)
    case Received(pkid) => Some(Rec(c, pkid))
    case Parked(incoming, queued) => if ParkReady(c, incoming) then Spell(c, lim, size, incoming, queued) else None
  }

  // --- what the client makes of it -----------------------------------------------------------

  function AliasOf(p: Publish): Option<u16> {
    if p.properties.Some? then p.properties.value.topicAlias else None
  }

  /** A client's alias table and the messages it has understood, topics resolved. */
  datatype Reader = Reader(table: map<u16, string>, messages: seq<Publish>)

  /** A client reading one packet; `None` is a protocol error. */
  function Read(r: Reader, packet: Packet): Option<Reader> {
    if packet.Rel? then Some(r)
    else
      match AliasOf(packet.p)
      case None => if packet.p.topic == "" then None else Some(Understood(r, packet.p, packet.p.topic))
      case Some(a) =>
        if packet.p.topic != "" then Some(Understood(r.(table := r.table[a := packet.p.topic]), packet.p, packet.p.topic))
        else if a in r.table then Some(Understood(r, packet.p, r.table[a]))
        else None
  }

  function Understood(r: Reader, p: Publish, topic: string): Reader {
    r.(messages := r.messages + [p.(topic := topic)])
  }

  function Client(wire: seq<Packet>): Option<Reader> {
    if wire == [] then Some(Reader(map[], []))
    else
      var r :- Client(wire[..|wire| - 1]);
      Read(r, wire[|wire| - 1])
  }

  lemma ClientMore(wire: seq<Packet>, p: Packet)
    requires Client(wire).Some?
    ensures Client(wire + [p]) == Read(Client(wire).value, p)
  {
    assert (wire + [p])[..|wire|] == wire;
  }

  /** The table is a bijection onto 1..n, within the client's maximum. */
  ghost predicate AliasesOk(aliases: map<string, u16>, max: u16) {
    && |aliases| <= max && "" !in aliases
    && (forall t | t in aliases :: 1 <= aliases[t] <= |aliases|)
    && (forall t, s | t in aliases && s in aliases && aliases[t] == aliases[s] :: t == s)
  }

  /** The client's table is the broker's, inverted. */
  predicate Mirrors(table: map<u16, string>, aliases: map<string, u16>) {
    && (forall t | t in aliases :: aliases[t] in table && table[aliases[t]] == t)
    && (forall a | a in table :: table[a] in aliases && aliases[table[a]] == a)
  }

  /** What is kept for retransmission has its topic in full and no alias. */
  predicate CopiesInFull(inflight: map<u16, InflightMessage>) {
    forall k | k in inflight :: inflight[k].publish.topic != "" && AliasOf(inflight[k].publish).None?
  }

  ghost predicate AliasInv(c: Conn, lim: Limits) {
    && AliasesOk(c.aliases, lim.aliasMax)
    && Client(c.wire).Some? && Mirrors(Client(c.wire).value.table, c.aliases)
    && CopiesInFull(c.inflight)
    && AllNamed(c.pending)
  }

  predicate AllNamed(ds: seq<Delivery>) {
    forall k | 0 <= k < |ds| :: ds[k].publish.topic != ""
  }

  /** The message is this delivery: topic, payload, QoS, retain flag, identifiers and other properties. */
  predicate IsFor(p: Publish, d: Delivery) {
    && p.topic == d.publish.topic && p.payload == d.publish.payload && p.qos == d.qos && p.retain == d.retain && !p.dup
    && IdsOf(p) == d.subIds && OtherOf(p) == OtherOf(d.publish)
  }

  function IdsOf(p: Publish): seq<nat> {
    if p.properties.Some? then p.properties.value.subscriptionIds else []
  }

  function OtherOf(p: Publish): seq<byte> {
    if p.properties.Some? then p.properties.value.other else NO_PROPERTIES.other
  }

  lemma StampIsFor(d: Delivery, pkid: u16)
    ensures IsFor(Stamped(d, pkid), d) && AliasOf(Stamped(d, pkid)).None?
  {
  }

  /** The same message, but for an alias. */
  predicate SameMessage(m: Publish, p: Publish) {
    && m.topic == p.topic && m.payload == p.payload && m.qos == p.qos && m.retain == p.retain && m.dup == p.dup
    && m.pkid == p.pkid && IdsOf(m) == IdsOf(p) && OtherOf(m) == OtherOf(p)
  }

  lemma NewAlias(aliases: map<string, u16>, max: u16, topic: string, table: map<u16, string>)
    requires AliasesOk(aliases, max) && Mirrors(table, aliases) && topic !in aliases && topic != "" && |aliases| < max
    ensures AliasesOk(aliases[topic := |aliases| + 1], max)
    ensures Mirrors(table[|aliases| + 1 := topic], aliases[topic := |aliases| + 1])
  {
    assert |aliases[topic := |aliases| + 1]| == |aliases| + 1;
  }

  /** A packet through the alias table is understood as the message it stands for, and the two tables stay
      each other's inverse. */
  lemma AliasedReads(aliases: map<string, u16>, max: u16, p: Publish, r: Reader) returns (m: Publish)
    requires AliasesOk(aliases, max) && Mirrors(r.table, aliases) && p.topic != "" && AliasOf(p).None?
    ensures var (packet, next) := Aliased(aliases, max, p);
            && AliasesOk(next, max)
            && Read(r, Pub(packet)).Some? && Mirrors(Read(r, Pub(packet)).value.table, next)
            && SameMessage(m, p) && Read(r, Pub(packet)).value.messages == r.messages + [m]
  {
    var (packet, next) := Aliased(aliases, max, p);
    m := packet.(topic := p.topic);
    if max > 0 && p.topic !in aliases && |aliases| < max { NewAlias(aliases, max, p.topic, r.table); }
  }

  // --- fates ---------------------------------------------------------------------------------

  /** What became of a delivery; one too big was tried when `at` packets had been written. */
  datatype Fate = Sent | Held | Oversize(at: nat) | Capped

  /** Deliveries in the order they arrived, and the fate of each. */
  datatype History = History(arrived: seq<Delivery>, fates: seq<Fate>)

  /** The arrivals with a given fate, in order. */
  function Pick(xs: seq<Delivery>, fates: seq<Fate>, f: Fate): seq<Delivery>
    requires |xs| == |fates|
  {
    if xs == [] then []
    else
      var n := |xs| - 1;
      Pick(xs[..n], fates[..n], f) + (if fates[n] == f then [xs[n]] else [])
  }

  lemma PickMore(xs: seq<Delivery>, fates: seq<Fate>, x: Delivery, f: Fate, g: Fate)
    requires |xs| == |fates|
    ensures Pick(xs + [x], fates + [f], g) == Pick(xs, fates, g) + (if f == g then [x] else [])
  {
    assert (xs + [x])[..|xs|] == xs && (fates + [f])[..|xs|] == fates;
  }

  lemma {:induction false} PickNone(xs: seq<Delivery>, fates: seq<Fate>, f: Fate)
    requires |xs| == |fates|
    ensures Pick(xs, fates, f) == [] <==> f !in fates
  {
    if xs != [] {
      var n := |xs| - 1;
      PickNone(xs[..n], fates[..n], f);
      assert fates == fates[..n] + [fates[n]];
    }
  }

  /** The first arrival with fate `f` is given another. */
  lemma {:induction false} PickLosesFirst(xs: seq<Delivery>, fates: seq<Fate>, i: nat, f: Fate, g: Fate)
    requires |xs| == |fates| && i < |xs| && fates[i] == f && f !in fates[..i] && g != f
    ensures Pick(xs, fates, f) != [] && Pick(xs, fates, f)[0] == xs[i]
    ensures Pick(xs, fates[i := g], f) == Pick(xs, fates, f)[1..]
  {
    var n := |xs| - 1;
    if i == n {
      PickNone(xs[..n], fates[..n], f);
      assert fates[i := g][..n] == fates[..n];
    } else {
      assert fates[..n][..i] == fates[..i];
      PickLosesFirst(xs[..n], fates[..n], i, f, g);
      assert fates[i := g][..n] == fates[..n][i := g];
    }
  }

  /** The arrivals with fate `f` fit behind the first of them. */
  lemma {:induction false} PickFits(xs: seq<Delivery>, fates: seq<Fate>, i: nat, f: Fate)
    requires |xs| == |fates| && i <= |xs| && f !in fates[..i]
    ensures i + |Pick(xs, fates, f)| <= |xs|
  {
    if i == |xs| {
      PickNone(xs, fates, f);
      assert fates[..i] == fates;
    } else {
      var n := |xs| - 1;
      assert fates[..n][..i] == fates[..i];
      PickFits(xs[..n], fates[..n], i, f);
    }
  }

  /** An arrival after all those with fate `g` is given that fate too. */
  lemma {:induction false} PickGainsLast(xs: seq<Delivery>, fates: seq<Fate>, i: nat, g: Fate)
    requires |xs| == |fates| && i < |xs| && g !in fates[i..]
    ensures Pick(xs, fates[i := g], g) == Pick(xs, fates, g) + [xs[i]]
  {
    var n := |xs| - 1;
    assert fates[i..][n - i] == fates[n];
    if i == n {
      assert fates[i := g][..n] == fates[..n];
    } else {
      assert fates[..n][i..] == fates[i..][..n - i];
      PickGainsLast(xs[..n], fates[..n], i, g);
      assert fates[i := g][..n] == fates[..n][i := g];
    }
  }

  lemma {:induction false} PickKeeps(xs: seq<Delivery>, fates: seq<Fate>, i: nat, g: Fate, f: Fate)
    requires |xs| == |fates| && i < |xs| && fates[i] != f && g != f
    ensures Pick(xs, fates[i := g], f) == Pick(xs, fates, f)
  {
    var n := |xs| - 1;
    if i == n {
      assert fates[i := g][..n] == fates[..n];
    } else {
      PickKeeps(xs[..n], fates[..n], i, g, f);
      assert fates[i := g][..n] == fates[..n][i := g];
    }
  }

  /** The first-time messages of QoS 0, or those above. */
  function Fresh(messages: seq<Publish>, zero: bool): seq<Publish> {
    if messages == [] then []
    else
      var p := messages[|messages| - 1];
      Fresh(messages[..|messages| - 1], zero) + (if !p.dup && (p.qos == AtMostOnce) == zero then [p] else [])
  }

  lemma FreshMore(messages: seq<Publish>, p: Publish, zero: bool)
    ensures Fresh(messages + [p], zero)
         == Fresh(messages, zero) + (if !p.dup && (p.qos == AtMostOnce) == zero then [p] else [])
  {
    assert (messages + [p])[..|messages|] == messages;
  }

  function SeenOn(wire: seq<Packet>, zero: bool): seq<Publish> {
    if Client(wire).Some? then Fresh(Client(wire).value.messages, zero) else []
  }

  function Seen(c: Conn, zero: bool): seq<Publish> {
    SeenOn(c.wire, zero)
  }

  /** With `n` in flight there is room for one more: the first always, others while both the client's
      Receive Maximum and the configuration allow it. */
  predicate HasRoom(n: nat, lim: Limits) {
    n == 0 || (n < lim.receiveMax && n < lim.maxInflight)
  }

  /** No more in flight than there was room for, or than was restored; and messages are held only while
      there is no room. */
  predicate WindowOk(c: Conn, lim: Limits, restored: nat) {
    && (|c.inflight| <= restored || HasRoom(|c.inflight| - 1, lim))
    && (c.pending != [] ==> !HasRoom(|c.inflight|, lim))
    && |c.pending| <= PENDING_OUTBOUND_LIMIT
  }

  /** What the client has seen is, in order, exactly the arrivals that were sent; the queue holds, in
      order, exactly those still held; nothing that arrived after a held message has overtaken it. */
  ghost predicate OrderOk(c: Conn, h: History, zero: bool) {
    && |h.fates| == |h.arrived|
    && Pick(h.arrived, h.fates, Fate.Held) == (if zero then [] else c.pending)
    && AllFor(Seen(c, zero), Pick(h.arrived, h.fates, Fate.Sent))
    && NoOvertaking(h.fates)
    && AllZero(h.arrived, zero)
  }

  /** The delivery, encoded for a client holding `table`, is over the client's limit. */
  predicate Rejected(table: map<u16, string>, lim: Limits, size: Encoder, d: Delivery, aliases: map<string, u16>, pkid: u16) {
    && Mirrors(table, aliases)
    && var n := size(Aliased(aliases, lim.aliasMax, Stamped(d, pkid)).0);
       n.Some? && lim.maxPacket.Some? && n.value > lim.maxPacket.value
  }

  /** So it was when the first `at` packets had been written. */
  ghost predicate WasTooBig(wire: seq<Packet>, lim: Limits, size: Encoder, d: Delivery, at: nat) {
    && at <= |wire| && Client(wire[..at]).Some?
    && exists aliases, pkid: u16 :: Rejected(Client(wire[..at]).value.table, lim, size, d, aliases, pkid)
  }

  /** A delivery is lost for two reasons only: it was too big when it was tried, or, above QoS 0, a
      full queue's worth of deliveries followed it. */
  ghost predicate LossOk(wire: seq<Packet>, lim: Limits, size: Encoder, h: History, zero: bool, i: nat)
    requires i < |h.fates| == |h.arrived|
  {
    match h.fates[i]
    case Sent => true
    case Held => true
    case Oversize(at) => WasTooBig(wire, lim, size, h.arrived[i], at)
    case Capped => !zero && i + PENDING_OUTBOUND_LIMIT < |h.arrived|
  }

  ghost predicate LossesOk(wire: seq<Packet>, lim: Limits, size: Encoder, h: History, zero: bool) {
    |h.fates| == |h.arrived| && forall i | 0 <= i < |h.fates| :: LossOk(wire, lim, size, h, zero, i)
  }

  ghost predicate HistoryOk(c: Conn, lim: Limits, size: Encoder, h: History, zero: bool) {
    OrderOk(c, h, zero) && LossesOk(c.wire, lim, size, h, zero)
  }

  /** What was lost stays accounted for as more is written and more arrives. */
  lemma LossesStay(wire: seq<Packet>, later: seq<Packet>, lim: Limits, size: Encoder, h: History, more: History, zero: bool)
    requires LossesOk(wire, lim, size, h, zero) && wire <= later
    requires |more.arrived| == |more.fates| && h.arrived <= more.arrived && h.fates <= more.fates
    requires forall i | |h.fates| <= i < |more.fates| :: LossOk(later, lim, size, more, zero, i)
    ensures LossesOk(later, lim, size, more, zero)
  {
    forall i | 0 <= i < |h.fates| ensures LossOk(later, lim, size, more, zero, i) {
      assert LossOk(wire, lim, size, h, zero, i);
      if h.fates[i].Oversize? { assert later[..h.fates[i].at] == wire[..h.fates[i].at]; }
    }
  }

  lemma LossesMore(wire: seq<Packet>, later: seq<Packet>, lim: Limits, size: Encoder, h: History, zero: bool, d: Delivery, f: Fate)
    requires LossesOk(wire, lim, size, h, zero) && wire <= later
    requires f.Sent? || f.Held? || (f.Oversize? && WasTooBig(later, lim, size, d, f.at))
    ensures LossesOk(later, lim, size, History(h.arrived + [d], h.fates + [f]), zero)
  {
    LossesStay(wire, later, lim, size, h, History(h.arrived + [d], h.fates + [f]), zero);
  }

  /** The same when one arrival is given its fate. */
  lemma LossesSet(wire: seq<Packet>, lim: Limits, size: Encoder, h: History, zero: bool, i: nat, f: Fate)
    requires LossesOk(wire, lim, size, h, zero) && i < |h.fates|
    requires LossOk(wire, lim, size, h.(fates := h.fates[i := f]), zero, i)
    ensures LossesOk(wire, lim, size, h.(fates := h.fates[i := f]), zero)
  {
    var h2 := h.(fates := h.fates[i := f]);
    forall k | 0 <= k < |h.fates| ensures LossOk(wire, lim, size, h2, zero, k) {
      assert LossOk(wire, lim, size, h, zero, k);
    }
  }

  predicate AllZero(ds: seq<Delivery>, zero: bool) {
    forall k | 0 <= k < |ds| :: (ds[k].qos == AtMostOnce) == zero
  }

  predicate AllFor(ps: seq<Publish>, ds: seq<Delivery>) {
    |ps| == |ds| && forall k | 0 <= k < |ps| :: IsFor(ps[k], ds[k])
  }

  predicate NoOvertaking(fates: seq<Fate>) {
    forall i, j | 0 <= i < j < |fates| :: fates[i] == Fate.Held ==> fates[j] != Fate.Sent
  }

  /** One more message seen, for this delivery; or none, because it was too big. */
  ghost predicate SeenNext(before: seq<Publish>, after: seq<Publish>, d: Delivery, sent: bool) {
    if sent then exists m :: IsFor(m, d) && after == before + [m] else after == before
  }

  predicate Grew(c: Conn, next: Conn) {
    |next.wire| > |c.wire|
  }

  /** One packet more, through the alias table: the client sees this delivery and no other. */
  lemma PacketShows(wire: seq<Packet>, aliases: map<string, u16>, max: u16, d: Delivery, pkid: u16)
    requires AliasesOk(aliases, max) && Client(wire).Some? && Mirrors(Client(wire).value.table, aliases) && d.publish.topic != ""
    ensures var (packet, next) := Aliased(aliases, max, Stamped(d, pkid));
            var after, zero := wire + [Pub(packet)], d.qos == AtMostOnce;
            && AliasesOk(next, max) && Client(after).Some? && Mirrors(Client(after).value.table, next)
            && SeenNext(SeenOn(wire, zero), SeenOn(after, zero), d, true)
            && SeenOn(after, !zero) == SeenOn(wire, !zero)
  {
    StampIsFor(d, pkid);
    var packet, r := Aliased(aliases, max, Stamped(d, pkid)).0, Client(wire).value;
    ClientMore(wire, Pub(packet));
    var m := AliasedReads(aliases, max, Stamped(d, pkid), r);
    FreshMore(r.messages, m, true);
    FreshMore(r.messages, m, false);
  }

  /** A send keeps the alias tables in step and shows the client at most this one delivery. */
  lemma AttemptShows(c: Conn, lim: Limits, size: Encoder, d: Delivery)
    requires AliasInv(c, lim) && d.publish.topic != "" && Attempt(c, lim, size, d).Some?
    ensures var next := Attempt(c, lim, size, d).value;
            && AliasInv(next, lim) && next.pending == c.pending
            && SeenNext(Seen(c, d.qos == AtMostOnce), Seen(next, d.qos == AtMostOnce), d, Grew(c, next))
            && Seen(next, d.qos != AtMostOnce) == Seen(c, d.qos != AtMostOnce)
  {
    AttemptInFull(c, lim, size, d);
    PacketShows(c.wire, c.aliases, lim.aliasMax, d, PkidFor(c, d));
  }

  lemma AttemptInFull(c: Conn, lim: Limits, size: Encoder, d: Delivery)
    requires CopiesInFull(c.inflight) && d.publish.topic != "" && Attempt(c, lim, size, d).Some?
    ensures CopiesInFull(Attempt(c, lim, size, d).value.inflight)
  {
    StampIsFor(d, PkidFor(c, d));
  }

  /** Above QoS 0, a send takes one unused in-flight id; at QoS 0 it takes none. */
  lemma AttemptTakes(c: Conn, lim: Limits, size: Encoder, d: Delivery)
    requires Attempt(c, lim, size, d).Some? && (d.qos != AtMostOnce ==> |c.inflight| < 65535)
    ensures var next := Attempt(c, lim, size, d).value;
            |next.inflight| == |c.inflight| + (if Grew(c, next) && d.qos != AtMostOnce then 1 else 0)
  {
    if d.qos != AtMostOnce { FirstFreeIsFree(c.inflight.Keys, c.nextPkid); }
  }

  /** An id is not used again at once: the next one differs from the last one tried, unless that is the only
      one free. */
  lemma NotReusedAtOnce(c: Conn, lim: Limits, size: Encoder, d: Delivery, later: Conn, e: Delivery)
    requires Attempt(c, lim, size, d).Some? && d.qos != AtMostOnce && e.qos != AtMostOnce
    requires later.nextPkid == Attempt(c, lim, size, d).value.nextPkid && |later.inflight| < 65534
    ensures PkidFor(later, e) != PkidFor(c, d) && PkidFor(later, e) !in later.inflight
  {
    CursorComesLast(later.inflight.Keys, PkidFor(c, d));
  }

  function Tried(c: Conn, next: Conn): Fate {
    if Grew(c, next) then Fate.Sent else Oversize(|c.wire|)
  }

  /** A send writes one packet, or nothing because the packet is too big. */
  lemma AttemptWrites(c: Conn, lim: Limits, size: Encoder, d: Delivery)
    requires AliasInv(c, lim) && Attempt(c, lim, size, d).Some?
    ensures var next := Attempt(c, lim, size, d).value;
            c.wire <= next.wire && (Grew(c, next) || WasTooBig(next.wire, lim, size, d, |c.wire|))
  {
    var next := Attempt(c, lim, size, d).value;
    if !Grew(c, next) {
      assert c.wire[..|c.wire|] == c.wire;
      assert Rejected(Client(c.wire).value.table, lim, size, d, c.aliases, PkidFor(c, d));
    }
  }

  lemma AllForMore(ps: seq<Publish>, qs: seq<Publish>, ds: seq<Delivery>, d: Delivery)
    requires AllFor(ps, ds) && SeenNext(ps, qs, d, true)
    ensures AllFor(qs, ds + [d])
  {
  }

  lemma NoneHeldKeepsOrder(fates: seq<Fate>, f: Fate)
    requires Fate.Held !in fates
    ensures NoOvertaking(fates + [f])
  {
  }

  /** A new arrival that is tried at once, which happens only with nothing held. */
  lemma ArrivalTried(c: Conn, h: History, next: Conn, d: Delivery)
    requires var zero := d.qos == AtMostOnce;
             && OrderOk(c, h, zero) && (zero || c.pending == []) && next.pending == c.pending
             && SeenNext(Seen(c, zero), Seen(next, zero), d, Grew(c, next))
    ensures OrderOk(next, History(h.arrived + [d], h.fates + [Tried(c, next)]), d.qos == AtMostOnce)
  {
    var f := Tried(c, next);
    PickNone(h.arrived, h.fates, Fate.Held);
    NoneHeldKeepsOrder(h.fates, f);
    PickMore(h.arrived, h.fates, d, f, Fate.Held);
    PickMore(h.arrived, h.fates, d, f, Fate.Sent);
    if f == Fate.Sent { AllForMore(Seen(c, d.qos == AtMostOnce), Seen(next, d.qos == AtMostOnce), Pick(h.arrived, h.fates, Fate.Sent), d); }
  }

  lemma FirstHeld(h: History) returns (i: nat)
    requires |h.fates| == |h.arrived| && Pick(h.arrived, h.fates, Fate.Held) != []
    ensures i < |h.fates| && h.fates[i] == Fate.Held && Fate.Held !in h.fates[..i]
  {
    PickNone(h.arrived, h.fates, Fate.Held);
    var k :| 0 <= k < |h.fates| && h.fates[k] == Fate.Held;
    i := 0;
    while h.fates[i] != Fate.Held
      invariant i <= k && Fate.Held !in h.fates[..i]
      decreases k - i
    {
      assert h.fates[..i + 1] == h.fates[..i] + [h.fates[i]];
      i := i + 1;
    }
  }

  lemma FirstKeepsOrder(fates: seq<Fate>, i: nat, f: Fate)
    requires NoOvertaking(fates) && i < |fates| && fates[i] == Fate.Held && Fate.Held !in fates[..i] && f != Fate.Held
    ensures NoOvertaking(fates[i := f])
    ensures Fate.Sent !in fates[i..]
  {
    assert forall k | 0 <= k < i :: fates[..i][k] == fates[k];
    forall k | 0 <= k < |fates[i..]| ensures fates[i..][k] != Fate.Sent { assert fates[i..][k] == fates[i + k]; }
  }

  /** The oldest held message gets its fate. */
  lemma HeldSettled(c: Conn, h: History, next: Conn, f: Fate) returns (i: nat)
    requires OrderOk(c, h, false) && c.pending != [] && next.pending == c.pending[1..] && f != Fate.Held
    requires SeenNext(Seen(c, false), Seen(next, false), c.pending[0], f == Fate.Sent)
    ensures i < |h.fates| && h.arrived[i] == c.pending[0] && i + |c.pending| <= |h.arrived|
    ensures OrderOk(next, h.(fates := h.fates[i := f]), false)
  {
    i := FirstHeld(h);
    PickFits(h.arrived, h.fates, i, Fate.Held);
    PickLosesFirst(h.arrived, h.fates, i, Fate.Held, f);
    FirstKeepsOrder(h.fates, i, f);
    if f == Fate.Sent {
      PickGainsLast(h.arrived, h.fates, i, f);
      AllForMore(Seen(c, false), Seen(next, false), Pick(h.arrived, h.fates, Fate.Sent), c.pending[0]);
    } else {
      PickKeeps(h.arrived, h.fates, i, f, Fate.Sent);
    }
  }

  /** A new arrival that is held with room in the queue. */
  lemma ArrivalQueued(c: Conn, h: History, d: Delivery)
    requires OrderOk(c, h, false) && d.qos != AtMostOnce
    ensures OrderOk(c.(pending := c.pending + [d]), History(h.arrived + [d], h.fates + [Fate.Held]), false)
  {
    PickMore(h.arrived, h.fates, d, Fate.Held, Fate.Held);
    PickMore(h.arrived, h.fates, d, Fate.Held, Fate.Sent);
  }

  /** A new arrival that is held, the oldest falling off a full queue. */
  lemma ArrivalHeld(c: Conn, lim: Limits, size: Encoder, h: History, d: Delivery) returns (h2: History)
    requires HistoryOk(c, lim, size, h, false) && d.qos != AtMostOnce
    ensures HistoryOk(c.(pending := Queued(c.pending, d)), lim, size, h2, false) && h2.arrived == h.arrived + [d]
  {
    h2 := History(h.arrived + [d], h.fates + [Fate.Held]);
    LossesMore(c.wire, c.wire, lim, size, h, false, d, Fate.Held);
    if |c.pending| >= PENDING_OUTBOUND_LIMIT {
      var kept := c.(pending := c.pending[1..]);
      var i := HeldSettled(c, h, kept, Capped);
      var mid := h.(fates := h.fates[i := Capped]);
      LossesSet(c.wire, lim, size, h2, false, i, Capped);
      assert h2.fates[i := Capped] == mid.fates + [Fate.Held];
      h2 := h2.(fates := h2.fates[i := Capped]);
      ArrivalQueued(kept, mid, d);
    } else {
      ArrivalQueued(c, h, d);
    }
  }

  /** Nothing seen or queued changes the history. */
  lemma Quiet(c: Conn, next: Conn, lim: Limits, size: Encoder, h: History, zero: bool)
    requires HistoryOk(c, lim, size, h, zero) && (zero || next.pending == c.pending) && Seen(next, zero) == Seen(c, zero)
    requires c.wire <= next.wire
    ensures HistoryOk(next, lim, size, h, zero)
  {
    LossesStay(c.wire, next.wire, lim, size, h, h, zero);
  }

  // --- every step -----------------------------------------------------------------------------

  /** `h` is the history above QoS 0, `z` that of QoS 0. */
  ghost predicate Ok(c: Conn, lim: Limits, size: Encoder, restored: nat, h: History, z: History) {
    WindowOk(c, lim, restored) && AliasInv(c, lim) && HistoryOk(c, lim, size, h, false) && HistoryOk(c, lim, size, z, true)
  }

  lemma DeliverKeeps(c: Conn, lim: Limits, size: Encoder, restored: nat, h: History, z: History, d: Delivery)
    returns (h2: History, z2: History)
    requires Ok(c, lim, size, restored, h, z) && Deliver(c, lim, size, d).Some? && d.publish.topic != ""
    ensures Ok(Deliver(c, lim, size, d).value, lim, size, restored, h2, z2)
    ensures h2.arrived == h.arrived + OfClass([d], false) && z2.arrived == z.arrived + OfClass([d], true)
  {
    h2, z2 := h, z;
    OneOfClass(h.arrived, d, false);
    OneOfClass(z.arrived, d, true);
    if !Sends(c, lim, d) {
      h2 := HoldKeeps(c, lim, size, restored, h, z, d);
    } else if d.qos == AtMostOnce {
      z2 := SendZeroKeeps(c, lim, size, restored, h, z, d);
    } else {
      h2 := SendKeeps(c, lim, size, restored, h, z, d);
    }
  }

  lemma QueuedNamed(q: seq<Delivery>, d: Delivery)
    requires AllNamed(q) && d.publish.topic != "" && |q| <= PENDING_OUTBOUND_LIMIT
    ensures AllNamed(Queued(q, d)) && Queued(q, d) != [] && |Queued(q, d)| <= PENDING_OUTBOUND_LIMIT
  {
  }

  lemma HoldKeeps(c: Conn, lim: Limits, size: Encoder, restored: nat, h: History, z: History, d: Delivery) returns (h2: History)
    requires Ok(c, lim, size, restored, h, z) && !Sends(c, lim, d) && d.publish.topic != ""
    ensures Ok(c.(pending := Queued(c.pending, d)), lim, size, restored, h2, z) && h2.arrived == h.arrived + [d]
  {
    var next := c.(pending := Queued(c.pending, d));
    Quiet(c, next, lim, size, z, true);
    QueuedNamed(c.pending, d);
    assert WindowOk(next, lim, restored) && AliasInv(next, lim);
    h2 := ArrivalHeld(c, lim, size, h, d);
  }

  /** A delivery tried at once joins the history of its class and leaves the other alone. */
  lemma TriedKeeps(c: Conn, lim: Limits, size: Encoder, h: History, d: Delivery)
    requires AliasInv(c, lim) && Attempt(c, lim, size, d).Some? && d.publish.topic != ""
    requires HistoryOk(c, lim, size, h, d.qos == AtMostOnce) && (d.qos == AtMostOnce || c.pending == [])
    ensures var next := Attempt(c, lim, size, d).value;
            HistoryOk(next, lim, size, History(h.arrived + [d], h.fates + [Tried(c, next)]), d.qos == AtMostOnce)
  {
    var next := Attempt(c, lim, size, d).value;
    AttemptShows(c, lim, size, d);
    AttemptWrites(c, lim, size, d);
    ArrivalTried(c, h, next, d);
    LossesMore(c.wire, next.wire, lim, size, h, d.qos == AtMostOnce, d, Tried(c, next));
  }

  lemma SendZeroKeeps(c: Conn, lim: Limits, size: Encoder, restored: nat, h: History, z: History, d: Delivery) returns (z2: History)
    requires Ok(c, lim, size, restored, h, z) && d.qos == AtMostOnce && Attempt(c, lim, size, d).Some? && d.publish.topic != ""
    ensures Ok(Attempt(c, lim, size, d).value, lim, size, restored, h, z2) && z2.arrived == z.arrived + [d]
  {
    var next := Attempt(c, lim, size, d).value;
    AttemptTakes(c, lim, size, d);
    AttemptShows(c, lim, size, d);
    AttemptWrites(c, lim, size, d);
    Quiet(c, next, lim, size, h, false);
    TriedKeeps(c, lim, size, z, d);
    z2 := History(z.arrived + [d], z.fates + [Tried(c, next)]);
  }

  lemma SendKeeps(c: Conn, lim: Limits, size: Encoder, restored: nat, h: History, z: History, d: Delivery) returns (h2: History)
    requires Ok(c, lim, size, restored, h, z) && d.qos != AtMostOnce && Sends(c, lim, d)
    requires Attempt(c, lim, size, d).Some? && d.publish.topic != ""
    ensures Ok(Attempt(c, lim, size, d).value, lim, size, restored, h2, z) && h2.arrived == h.arrived + [d]
  {
    var next := Attempt(c, lim, size, d).value;
    AttemptTakes(c, lim, size, d);
    AttemptShows(c, lim, size, d);
    AttemptWrites(c, lim, size, d);
    Quiet(c, next, lim, size, z, true);
    TriedKeeps(c, lim, size, h, d);
    h2 := History(h.arrived + [d], h.fates + [Tried(c, next)]);
  }

  lemma {:induction false} HeldQos(h: History)
    requires |h.fates| == |h.arrived| && AllZero(h.arrived, false)
    ensures AllZero(Pick(h.arrived, h.fates, Fate.Held), false)
    decreases |h.arrived|
  {
    if h.arrived != [] {
      var n := |h.arrived| - 1;
      HeldQos(History(h.arrived[..n], h.fates[..n]));
    }
  }

  /** The oldest held message is tried. */
  lemma PopKeeps(c: Conn, lim: Limits, size: Encoder, h: History) returns (h2: History)
    requires AliasInv(c, lim) && HistoryOk(c, lim, size, h, false) && c.pending != []
    requires Attempt(c.(pending := c.pending[1..]), lim, size, c.pending[0]).Some?
    ensures HistoryOk(Attempt(c.(pending := c.pending[1..]), lim, size, c.pending[0]).value, lim, size, h2, false)
    ensures h2.arrived == h.arrived
  {
    var popped, d := c.(pending := c.pending[1..]), c.pending[0];
    var next := Attempt(popped, lim, size, d).value;
    HeldQos(h);
    AttemptShows(popped, lim, size, d);
    AttemptWrites(popped, lim, size, d);
    var i := HeldSettled(c, h, next, Tried(popped, next));
    LossesStay(c.wire, next.wire, lim, size, h, h, false);
    LossesSet(next.wire, lim, size, h, false, i, Tried(popped, next));
    h2 := h.(fates := h.fates[i := Tried(popped, next)]);
  }

  /** Draining from any window state ends with nothing held or the window full. */
  lemma {:induction false} DrainKeeps(c: Conn, lim: Limits, size: Encoder, restored: nat, h: History, z: History) returns (h2: History)
    requires AliasInv(c, lim) && HistoryOk(c, lim, size, h, false) && HistoryOk(c, lim, size, z, true)
    requires |c.pending| <= PENDING_OUTBOUND_LIMIT && Drain(c, lim, size).Some?
    requires |c.inflight| <= restored || HasRoom(|c.inflight| - 1, lim)
    ensures Ok(Drain(c, lim, size).value, lim, size, restored, h2, z) && h2.arrived == h.arrived
    decreases |c.pending|
  {
    if |c.inflight| < Window(lim) && c.pending != [] {
      var popped, d := c.(pending := c.pending[1..]), c.pending[0];
      var next := Attempt(popped, lim, size, d).value;
      HeldQos(h);
      AttemptTakes(popped, lim, size, d);
      AttemptShows(popped, lim, size, d);
      AttemptWrites(popped, lim, size, d);
      Quiet(c, next, lim, size, z, true);
      var mid := PopKeeps(c, lim, size, h);
      h2 := DrainKeeps(next, lim, size, restored, mid, z);
    } else {
      h2 := h;
    }
  }

  lemma AckKeeps(c: Conn, lim: Limits, size: Encoder, restored: nat, h: History, z: History, pkid: u16) returns (h2: History)
    requires Ok(c, lim, size, restored, h, z) && Ack(c, lim, size, pkid).Some?
    ensures Ok(Ack(c, lim, size, pkid).value, lim, size, restored, h2, z) && h2.arrived == h.arrived
  {
    if pkid in c.inflight {
      var freed := c.(inflight := c.inflight - {pkid});
      assert freed.inflight.Keys == c.inflight.Keys - {pkid};
      Quiet(c, freed, lim, size, h, false);
      Quiet(c, freed, lim, size, z, true);
      h2 := DrainKeeps(freed, lim, size, restored, h, z);
    } else {
      h2 := h;
    }
  }

  lemma RecKeeps(c: Conn, lim: Limits, size: Encoder, restored: nat, h: History, z: History, pkid: u16)
    requires Ok(c, lim, size, restored, h, z)
    ensures Ok(Rec(c, pkid), lim, size, restored, h, z)
  {
    ClientMore(c.wire, Rel(pkid));
    assert Rec(c, pkid).inflight.Keys == c.inflight.Keys;
    Quiet(c, Rec(c, pkid), lim, size, h, false);
    Quiet(c, Rec(c, pkid), lim, size, z, true);
  }

  lemma OneOfClass(before: seq<Delivery>, d: Delivery, zero: bool)
    ensures before + OfClass([d], zero) == if (d.qos == AtMostOnce) == zero then before + [d] else before
  {
    assert OfClass([d], zero) == (if (d.qos == AtMostOnce) == zero then [d] else []) + [];
  }

  lemma OfClassMore(before: seq<Delivery>, ds: seq<Delivery>, zero: bool)
    requires ds != []
    ensures before + OfClass([ds[0]], zero) + OfClass(ds[1..], zero) == before + OfClass(ds, zero)
  {
    var first := if (ds[0].qos == AtMostOnce) == zero then [ds[0]] else [];
    assert OfClass([ds[0]], zero) == first + [] == first;
    Concat(before, first, OfClass(ds[1..], zero));
  }

  lemma Concat(a: seq<Delivery>, b: seq<Delivery>, c: seq<Delivery>)
    ensures a + b + c == a + (b + c)
  {
  }

  lemma {:induction false} DeliverAllKeeps(c: Conn, lim: Limits, size: Encoder, restored: nat, h: History, z: History, ds: seq<Delivery>)
    returns (h2: History, z2: History)
    requires Ok(c, lim, size, restored, h, z) && DeliverAll(c, lim, size, ds).Some? && AllNamed(ds)
    ensures Ok(DeliverAll(c, lim, size, ds).value, lim, size, restored, h2, z2)
    ensures h2.arrived == h.arrived + OfClass(ds, false) && z2.arrived == z.arrived + OfClass(ds, true)
    decreases |ds|
  {
    if ds == [] {
      h2, z2 := h, z;
      assert h.arrived + [] == h.arrived && z.arrived + [] == z.arrived;
    } else {
      var mid, midz := DeliverKeeps(c, lim, size, restored, h, z, ds[0]);
      h2, z2 := DeliverAllKeeps(Deliver(c, lim, size, ds[0]).value, lim, size, restored, mid, midz, ds[1..]);
      OfClassMore(h.arrived, ds, false);
      OfClassMore(z.arrived, ds, true);
    }
  }

  /** Coming back from the registry is like never having been there. */
  lemma ComesBackSame(c: Conn, lim: Limits, size: Encoder, incoming: map<u16, Publish>, queued: seq<Delivery>)
    requires ParkReady(c, incoming)
    ensures Spell(c, lim, size, incoming, queued) == DeliverAll(c, lim, size, queued)
  {
    assert Rebuilt(IntoParts(c, lim), ParkSnapshot(c, incoming), c.wire) == c;
  }

  /** What an event brings for the client. */
  function Brought(e: Event): seq<Delivery> {
    match e
    case Delivered(d) => [d]
    case Parked(_, queued) => queued
    case _ => []
  }

  function Arrivals(events: seq<Event>, zero: bool): seq<Delivery> {
    if events == [] then [] else OfClass(Brought(events[0]), zero) + Arrivals(events[1..], zero)
  }

  lemma NextKeeps(c: Conn, lim: Limits, size: Encoder, restored: nat, h: History, z: History, e: Event)
    returns (h2: History, z2: History)
    requires Ok(c, lim, size, restored, h, z) && Next(c, lim, size, e).Some? && AllNamed(Brought(e))
    ensures Ok(Next(c, lim, size, e).value, lim, size, restored, h2, z2)
    ensures h2.arrived == h.arrived + OfClass(Brought(e), false) && z2.arrived == z.arrived + OfClass(Brought(e), true)
  {
    h2, z2 := h, z;
    match e
    case Delivered(d) =>
      assert Brought(e)[0] == d;
      h2, z2 := DeliverKeeps(c, lim, size, restored, h, z, d);
    case Acked(pkid) => h2 := AckKeeps(c, lim, size, restored, h, z, pkid);
    case Received(pkid) => RecKeeps(c, lim, size, restored, h, z, pkid);
    case Parked(incoming, queued) =>
      ComesBackSame(c, lim, size, incoming, queued);
      h2, z2 := DeliverAllKeeps(c, lim, size, restored, h, z, queued);
  }

  /** Every delivery names a topic, as publishing requires. */
  predicate Named(events: seq<Event>) {
    forall k | 0 <= k < |events| :: AllNamed(Brought(events[k]))
  }

  /** A connection's life from `c` on; it ends early if a packet cannot be encoded. */
  function Run(c: Conn, lim: Limits, size: Encoder, events: seq<Event>): Option<Conn>
    decreases |events|
  {
    if events == [] then Some(c)
    else
      var next :- Next(c, lim, size, events[0]);
      Run(next, lim, size, events[1..])
  }

  lemma ArrivalsMore(before: seq<Delivery>, events: seq<Event>, zero: bool, after: seq<Delivery>)
    requires events != [] && after == before + OfClass(Brought(events[0]), zero)
    ensures after + Arrivals(events[1..], zero) == before + Arrivals(events, zero)
  {
    Concat(before, OfClass(Brought(events[0]), zero), Arrivals(events[1..], zero));
  }

  lemma FirstStep(c: Conn, lim: Limits, size: Encoder, restored: nat, h: History, z: History, events: seq<Event>)
    returns (next: Conn, h2: History, z2: History)
    requires Ok(c, lim, size, restored, h, z) && Named(events) && Run(c, lim, size, events).Some? && events != []
    ensures Ok(next, lim, size, restored, h2, z2) && Named(events[1..])
    ensures Run(c, lim, size, events) == Run(next, lim, size, events[1..])
    ensures h2.arrived + Arrivals(events[1..], false) == h.arrived + Arrivals(events, false)
    ensures z2.arrived + Arrivals(events[1..], true) == z.arrived + Arrivals(events, true)
  {
    next := Next(c, lim, size, events[0]).value;
    h2, z2 := NextKeeps(c, lim, size, restored, h, z, events[0]);
    ArrivalsMore(h.arrived, events, false, h2.arrived);
    ArrivalsMore(z.arrived, events, true, z2.arrived);
  }

  lemma {:induction false} RunKeeps(c: Conn, lim: Limits, size: Encoder, restored: nat, h: History, z: History, events: seq<Event>)
    returns (h2: History, z2: History)
    requires Ok(c, lim, size, restored, h, z) && Named(events) && Run(c, lim, size, events).Some?
    ensures Ok(Run(c, lim, size, events).value, lim, size, restored, h2, z2)
    ensures h2.arrived == h.arrived + Arrivals(events, false) && z2.arrived == z.arrived + Arrivals(events, true)
    decreases |events|
  {
    if events == [] {
      h2, z2 := h, z;
      assert h.arrived + [] == h.arrived && z.arrived + [] == z.arrived;
    } else {
      var next, mid, midz := FirstStep(c, lim, size, restored, h, z, events);
      h2, z2 := RunKeeps(next, lim, size, restored, mid, midz, events[1..]);
    }
  }

  // --- resuming ---------------------------------------------------------------------------------

  /** What a resumed connection sends first: each unfinished publish again, or its PUBREL. */
  function Again(pkid: u16, m: InflightMessage): Packet {
    if m.state == Qos2Released then Rel(pkid) else Pub(m.publish.(pkid := pkid, dup := true))
  }

  function Retransmitted(inflight: map<u16, InflightMessage>, order: seq<u16>): seq<Packet>
    requires forall k | 0 <= k < |order| :: order[k] in inflight
  {
    if order == [] then []
    else
      var n := |order| - 1;
      Retransmitted(inflight, order[..n]) + [Again(order[n], inflight[order[n]])]
  }

  /** Retransmissions need no aliases and are nothing new. */
  lemma {:induction false} RetransmitsQuietly(inflight: map<u16, InflightMessage>, order: seq<u16>)
    requires CopiesInFull(inflight) && forall k | 0 <= k < |order| :: order[k] in inflight
    ensures var r := Client(Retransmitted(inflight, order));
            r.Some? && r.value.table == map[] && Fresh(r.value.messages, false) == [] && Fresh(r.value.messages, true) == []
  {
    if order != [] {
      var n := |order| - 1;
      RetransmitsQuietly(inflight, order[..n]);
      var wire, p := Retransmitted(inflight, order[..n]), Again(order[n], inflight[order[n]]);
      ClientMore(wire, p);
      if p.Pub? {
        var r := Client(wire).value;
        FreshMore(r.messages, p.p, false);
        FreshMore(r.messages, p.p, true);
        assert p.p.(topic := p.p.topic) == p.p;
      }
    }
  }

  /** Each in-flight id once. */
  predicate Lists(order: seq<u16>, inflight: map<u16, InflightMessage>) {
    && |order| == |inflight|
    && (forall k | 0 <= k < |order| :: order[k] in inflight)
    && (forall id | id in inflight :: id in order)
    && (forall i, j | 0 <= i < j < |order| :: order[i] != order[j])
  }

  /** The packet sends this unfinished message again: the PUBLISH in full, marked as a duplicate, under its
      own packet id, or, once it was received, its PUBREL. */
  predicate Resends(packet: Packet, pkid: u16, m: InflightMessage) {
    if m.state == Qos2Released then packet == Rel(pkid)
    else
      && packet.Pub? && packet.p.dup && packet.p.pkid == pkid
      && packet.p.topic == m.publish.topic && packet.p.payload == m.publish.payload && packet.p.qos == m.publish.qos
      && packet.p.retain == m.publish.retain && packet.p.properties == m.publish.properties
  }

  lemma {:induction false} RetransmitsEach(inflight: map<u16, InflightMessage>, order: seq<u16>, k: nat)
    requires (forall i | 0 <= i < |order| :: order[i] in inflight) && k < |order|
    ensures |Retransmitted(inflight, order)| == |order|
    ensures Resends(Retransmitted(inflight, order)[k], order[k], inflight[order[k]])
  {
    var n := |order| - 1;
    if k < n { RetransmitsEach(inflight, order[..n], k); } else if n > 0 { RetransmitsEach(inflight, order[..n], 0); }
  }

  /** A connection that has taken up a session: all that was in flight is sent again, in some order. */
  function TakenUp(h: SessionHandle, order: seq<u16>): Conn
    requires forall k | 0 <= k < |order| :: order[k] in h.snapshot.inflight
  {
    Conn(h.snapshot.inflight, [], h.snapshot.nextPkid, map[], Retransmitted(h.snapshot.inflight, order))
  }

  /** Its life: it takes up the session, delivers what was queued, and goes on. */
  function Lived(h: SessionHandle, order: seq<u16>, lim: Limits, size: Encoder, events: seq<Event>): Option<Conn>
    requires forall k | 0 <= k < |order| :: order[k] in h.snapshot.inflight
  {
    var c :- DeliverAll(TakenUp(h, order), lim, size, h.offlineQueue);
    Run(c, lim, size, events)
  }

  /** The session can be taken up: what it has in flight and queued names its topics. */
  predicate Sendable(h: SessionHandle, order: seq<u16>) {
    CopiesInFull(h.snapshot.inflight) && AllNamed(h.offlineQueue) && Lists(order, h.snapshot.inflight)
  }

  lemma TakesUp(h: SessionHandle, order: seq<u16>, lim: Limits, size: Encoder)
    requires Sendable(h, order)
    ensures Ok(TakenUp(h, order), lim, size, |h.snapshot.inflight|, History([], []), History([], []))
  {
    RetransmitsQuietly(h.snapshot.inflight, order);
  }

  /** The life of a connection. Over every interleaving of deliveries, acknowledgements and parked
      spells after a (re)connect: the in-flight count stays within the window, or what was restored;
      messages are held only while the window is full; the client understands every packet, aliases
      included, and what it sees of each class is, in order, exactly the deliveries that were sent, with
      their own topics; a delivery, queued before or made since, is missing only if it was too big for the
      client when it was tried, or, above QoS 0, if a full queue's worth of deliveries followed it, or if it
      is still held; and copies kept for retransmission name their topic in full. */
  lemma ClientSeesDeliveries(h: SessionHandle, order: seq<u16>, lim: Limits, size: Encoder, events: seq<Event>)
    returns (above: History, zero: History)
    requires Sendable(h, order) && Named(events) && Lived(h, order, lim, size, events).Some?
    ensures var end := Lived(h, order, lim, size, events).value;
            && WindowOk(end, lim, |h.snapshot.inflight|)
            && AliasInv(end, lim)
            && HistoryOk(end, lim, size, above, false) && above.arrived == OfClass(h.offlineQueue, false) + Arrivals(events, false)
            && HistoryOk(end, lim, size, zero, true) && zero.arrived == OfClass(h.offlineQueue, true) + Arrivals(events, true)
  {
    var start, restored, none := TakenUp(h, order), |h.snapshot.inflight|, History([], []);
    TakesUp(h, order, lim, size);
    above, zero := DeliverAllKeeps(start, lim, size, restored, none, none, h.offlineQueue);
    assert [] + OfClass(h.offlineQueue, false) == OfClass(h.offlineQueue, false);
    assert [] + OfClass(h.offlineQueue, true) == OfClass(h.offlineQueue, true);
    above, zero := RunKeeps(DeliverAll(start, lim, size, h.offlineQueue).value, lim, size, restored, above, zero, events);
  }
}
