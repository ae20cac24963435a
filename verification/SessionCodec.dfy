/** The durable-session format: one session, and the snapshot file of all of them. */
module SessionCodec {
  import opened Types
  import opened Codec
  import Utf8

  datatype MigratedSub = MigratedSub(
    filter: string, qos: QoS, noLocal: bool, retainAsPublished: bool, group: Option<string>, subId: Option<nat>)

  datatype PersistedSession = PersistedSession(
    clientId: ClientId,
    expirySecs: u32,
    subscriptions: seq<MigratedSub>,
    inflight: map<u16, InflightMessage>,
    incomingQos2: map<u16, Publish>,
    nextPkid: u16,
    offline: seq<Delivery>)

  // --- enumerations -------------------------------------------------------------------

  function PutQos(q: QoS): byte {
    q.Rank()
  }

  function GetQos(d: Bytes): Option<(QoS, Bytes)> {
    var (b, d1) :- GetU8(d);
    if b == 0 then Some((AtMostOnce, d1))
    else if b == 1 then Some((AtLeastOnce, d1))
    else if b == 2 then Some((ExactlyOnce, d1))
    else None
  }

  function PutState(s: InflightState): byte {
    match s
    case Qos1 => 0
    case Qos2Pending => 1
    case Qos2Released => 2
  }

  function GetState(d: Bytes): Option<(InflightState, Bytes)> {
    var (b, d1) :- GetU8(d);
    if b == 0 then Some((Qos1, d1))
    else if b == 1 then Some((Qos2Pending, d1))
    else if b == 2 then Some((Qos2Released, d1))
    else None
  }

  function PutFlags(noLocal: bool, retainAsPublished: bool): byte {
    (if noLocal then 1 else 0) + (if retainAsPublished then 2 else 0)
  }

  /** The lowest bit, and the rest. */
  function Bit(n: nat): (p: (bool, nat)) {
    assert n == n % 2 + 2 * (n / 2);
    var bit: nat, rest: nat :| bit < 2 && rest <= n && n == bit + 2 * rest;
    (bit == 1, rest)
  }

  /** The two option bits of a flags byte. */
  function Bits(b: byte): (bool, bool) {
    (Bit(b).0, Bit(Bit(b).1).0)
  }

  // --- items ----------------------------------------------------------------------------

  function PutSub(s: MigratedSub): Option<Bytes> {
    Some(PutStr(s.filter) + ([PutQos(s.qos)] + ([PutFlags(s.noLocal, s.retainAsPublished)]
         + (PutOptStr(s.group) + PutOptU32(if s.subId.Some? then Some(Low32(s.subId.value)) else None)))))
  }

  function GetSub(d: Bytes): Option<(MigratedSub, Bytes)> {
    var (filter, d1) :- GetStr(d);
    var (qos, d2) :- GetQos(d1);
    var (flags, d3) :- GetU8(d2);
    var (group, d4) :- GetOptStr(d3);
    var (id, d5) :- GetOptU32(d4);
    Some((MigratedSub(filter, qos, Bits(flags).0, Bits(flags).1, group, id), d5))
  }

  function PutInflight(codec: PacketCodec, x: (u16, InflightMessage)): Option<Bytes> {
    var p :- PutPublish(codec, x.1.publish);
    Some(PutU16(x.0) + ([PutState(x.1.state)] + p))
  }

  function GetInflight(codec: PacketCodec, d: Bytes): Option<((u16, InflightMessage), Bytes)> {
    var (pkid, d1) :- GetU16(d);
    var (state, d2) :- GetState(d1);
    var (p, d3) :- GetPublish(codec, d2);
    Some(((pkid, InflightMessage(p, state)), d3))
  }

  function PutIncoming(codec: PacketCodec, x: (u16, Publish)): Option<Bytes> {
    var p :- PutPublish(codec, x.1);
    Some(PutU16(x.0) + p)
  }

  function GetIncoming(codec: PacketCodec, d: Bytes): Option<((u16, Publish), Bytes)> {
    var (pkid, d1) :- GetU16(d);
    var (p, d2) :- GetPublish(codec, d1);
    Some(((pkid, p), d2))
  }

  function PutId(id: nat): Option<Bytes> {
    Some(PutU32(Low32(id)))
  }

  function GetId(d: Bytes): Option<(nat, Bytes)> {
    var (v, d1) :- GetU32(d);
    Some((v, d1))
  }

  function PutOffline(codec: PacketCodec, x: Delivery): Option<Bytes> {
    var ids :- PutList(PutId, x.subIds);
    var p :- PutPublish(codec, x.publish);
    Some([PutQos(x.qos)] + ([if x.retain then 1 else 0] + (ids + p)))
  }

  function GetOffline(codec: PacketCodec, d: Bytes): Option<(Delivery, Bytes)> {
    var (qos, d1) :- GetQos(d);
    var (retain, d2) :- GetU8(d1);
    var (ids, d3) :- GetList(GetId, d2);
    var (p, d4) :- GetPublish(codec, d3);
    Some((Delivery(p, qos, retain != 0, ids), d4))
  }

  // --- a session --------------------------------------------------------------------------

  /** The map a sequence of insertions leaves. */
  function FromPairs<T>(xs: seq<(u16, T)>): map<u16, T> {
    if xs == [] then map[] else FromPairs(xs[..|xs| - 1])[xs[|xs| - 1].0 := xs[|xs| - 1].1]
  }

  /** A listing of a map's entries, each once, in some order. */
  ghost predicate Lists<T>(xs: seq<(u16, T)>, m: map<u16, T>) {
    && |xs| == |m|
    && (forall i | 0 <= i < |xs| :: xs[i].0 in m && m[xs[i].0] == xs[i].1)
    && (forall i, j | 0 <= i < j < |xs| :: xs[i].0 != xs[j].0)
  }

  function InflightPut(codec: PacketCodec): ((u16, InflightMessage)) -> Option<Bytes> {
    x => PutInflight(codec, x)
  }

  function InflightGet(codec: PacketCodec): Decoder<(u16, InflightMessage)> {
    d => GetInflight(codec, d)
  }

  function IncomingPut(codec: PacketCodec): ((u16, Publish)) -> Option<Bytes> {
    x => PutIncoming(codec, x)
  }

  function IncomingGet(codec: PacketCodec): Decoder<(u16, Publish)> {
    d => GetIncoming(codec, d)
  }

  function OfflinePut(codec: PacketCodec): Delivery -> Option<Bytes> {
    x => PutOffline(codec, x)
  }

  function OfflineGet(codec: PacketCodec): Decoder<Delivery> {
    d => GetOffline(codec, d)
  }

  /** A session's bytes, for the order in which its two maps happen to be walked. */
  function PutSession(codec: PacketCodec, ps: PersistedSession, inflight: seq<(u16, InflightMessage)>,
                      incoming: seq<(u16, Publish)>): Option<Bytes> {
    var subs :- PutList(PutSub, ps.subscriptions);
    var infl :- PutList(InflightPut(codec), inflight);
    var inco :- PutList(IncomingPut(codec), incoming);
    var offl :- PutList(OfflinePut(codec), ps.offline);
    Some(PutStr(ps.clientId) + (PutU32(ps.expirySecs) + (subs + (PutU16(ps.nextPkid) + (infl + (inco + offl))))))
  }

  function GetHead(d: Bytes): Option<(ClientId, u32, seq<MigratedSub>, Bytes)> {
    var (clientId, d1) :- GetStr(d);
    var (expiry, d2) :- GetU32(d1);
    var (subs, d3) :- GetList(GetSub, d2);
    Some((clientId, expiry, subs, d3))
  }

  function GetTail(codec: PacketCodec, d: Bytes): Option<(map<u16, InflightMessage>, map<u16, Publish>, seq<Delivery>, Bytes)> {
    var (inflight, d1) :- GetList(InflightGet(codec), d);
    var (incoming, d2) :- GetList(IncomingGet(codec), d1);
    var (offline, d3) :- GetList(OfflineGet(codec), d2);
    Some((FromPairs(inflight), FromPairs(incoming), offline, d3))
  }

  function GetSession(codec: PacketCodec, d: Bytes): Option<(PersistedSession, Bytes)> {
    var (clientId, expiry, subs, d3) :- GetHead(d);
    var (nextPkid, d4) :- GetU16(d3);
    var (inflight, incoming, offline, d5) :- GetTail(codec, d4);
    Some((PersistedSession(clientId, expiry, subs, inflight, incoming, nextPkid, offline), d5))
  }

  function SessionGet(codec: PacketCodec): Decoder<PersistedSession> {
    d => GetSession(codec, d)
  }

  // --- what comes back --------------------------------------------------------------------

  /** The limits of the format's length and identifier fields. */
  predicate FitsSub(s: MigratedSub) {
    Fits(s.filter) && (s.group.Some? ==> Fits(s.group.value)) && (s.subId.Some? ==> s.subId.value < 0x1_0000_0000)
  }

  predicate FitsDelivery(x: Delivery) {
    |x.subIds| < 0x1_0000_0000 && forall i | 0 <= i < |x.subIds| :: x.subIds[i] < 0x1_0000_0000
  }

  predicate FitsSession(ps: PersistedSession) {
    && Fits(ps.clientId)
    && |ps.subscriptions| < 0x1_0000_0000 && (forall i | 0 <= i < |ps.subscriptions| :: FitsSub(ps.subscriptions[i]))
    && |ps.inflight| < 0x1_0000_0000 && |ps.incomingQos2| < 0x1_0000_0000
    && |ps.offline| < 0x1_0000_0000 && (forall i | 0 <= i < |ps.offline| :: FitsDelivery(ps.offline[i]))
  }

  function HeldMessage(m: InflightMessage): InflightMessage {
    m.(publish := AsStored(m.publish))
  }

  function HeldInflight(m: map<u16, InflightMessage>): map<u16, InflightMessage> {
    map k | k in m :: HeldMessage(m[k])
  }

  function HeldIncoming(m: map<u16, Publish>): map<u16, Publish> {
    map k | k in m :: AsStored(m[k])
  }

  function HeldDelivery(x: Delivery): Delivery {
    x.(publish := AsStored(x.publish))
  }

  function HeldOffline(xs: seq<Delivery>): (ys: seq<Delivery>)
    ensures |ys| == |xs| && forall i | 0 <= i < |xs| :: ys[i] == HeldDelivery(xs[i])
  {
    seq(|xs|, i requires 0 <= i < |xs| => HeldDelivery(xs[i]))
  }

  /** A session as it comes back from disk: the same, with packet ids as the packets have them. */
  function Held(ps: PersistedSession): PersistedSession {
    ps.(inflight := HeldInflight(ps.inflight), incomingQos2 := HeldIncoming(ps.incomingQos2), offline := HeldOffline(ps.offline))
  }

  lemma ByteReads(b: byte, rest: Bytes)
    ensures GetU8([b] + rest) == Some((b, rest))
    ensures forall q: QoS | b == PutQos(q) :: GetQos([b] + rest) == Some((q, rest))
    ensures forall s: InflightState | b == PutState(s) :: GetState([b] + rest) == Some((s, rest))
  {
    assert ([b] + rest)[1..] == rest;
  }

  lemma FlagsRead(noLocal: bool, retainAsPublished: bool)
    ensures Bits(PutFlags(noLocal, retainAsPublished)) == (noLocal, retainAsPublished)
  {
  }

  lemma SubReads(s: MigratedSub)
    requires FitsSub(s)
    ensures Reads(GetSub, PutSub(s).value, s)
  {
    forall rest ensures GetSub(PutSub(s).value + rest) == Some((s, rest)) { SubReadsAt(s, rest); }
  }

  lemma SubReadsAt(s: MigratedSub, rest: Bytes)
    requires FitsSub(s)
    ensures GetSub(PutSub(s).value + rest) == Some((s, rest))
  {
    var flags := PutFlags(s.noLocal, s.retainAsPublished);
    var a, b, c := PutStr(s.filter), [PutQos(s.qos)], [flags];
    var d, e := PutOptStr(s.group), PutOptU32(s.subId);
    Assoc(a, b + (c + (d + e)), rest);
    Assoc(b, c + (d + e), rest);
    Assoc(c, d + e, rest);
    Assoc(d, e, rest);
    FitsReads(s.filter, b + (c + (d + (e + rest))));
    ByteReads(PutQos(s.qos), c + (d + (e + rest)));
    ByteReads(flags, d + (e + rest));
    OptStrReads(s.group, e + rest);
    OptU32Reads(s.subId, rest);
    FlagsRead(s.noLocal, s.retainAsPublished);
  }

  lemma InflightReads(codec: PacketCodec, x: (u16, InflightMessage))
    requires Sound(codec) && InflightPut(codec)(x).Some?
    ensures Reads(InflightGet(codec), InflightPut(codec)(x).value, (x.0, HeldMessage(x.1)))
  {
    forall rest ensures InflightGet(codec)(InflightPut(codec)(x).value + rest) == Some(((x.0, HeldMessage(x.1)), rest)) {
      var p := PutPublish(codec, x.1.publish).value;
      var a, b := PutU16(x.0), [PutState(x.1.state)];
      Assoc(a, b + p, rest);
      Assoc(b, p, rest);
      U16Reads(x.0, b + (p + rest));
      ByteReads(PutState(x.1.state), p + rest);
      PublishReads(codec, x.1.publish, rest);
    }
  }

  lemma IncomingReads(codec: PacketCodec, x: (u16, Publish))
    requires Sound(codec) && IncomingPut(codec)(x).Some?
    ensures Reads(IncomingGet(codec), IncomingPut(codec)(x).value, (x.0, AsStored(x.1)))
  {
    forall rest ensures IncomingGet(codec)(IncomingPut(codec)(x).value + rest) == Some(((x.0, AsStored(x.1)), rest)) {
      var p := PutPublish(codec, x.1).value;
      Assoc(PutU16(x.0), p, rest);
      U16Reads(x.0, p + rest);
      PublishReads(codec, x.1, rest);
    }
  }

  lemma IdReads(id: nat)
    requires id < 0x1_0000_0000
    ensures Reads(GetId, PutId(id).value, id)
  {
    forall rest ensures GetId(PutU32(id) + rest) == Some((id, rest)) { U32Reads(id, rest); }
  }

  lemma IdsRead(ids: seq<nat>, rest: Bytes)
    requires |ids| < 0x1_0000_0000 && forall i | 0 <= i < |ids| :: ids[i] < 0x1_0000_0000
    requires PutList(PutId, ids).Some?
    ensures GetList(GetId, PutList(PutId, ids).value + rest) == Some((ids, rest))
  {
    forall i | 0 <= i < |ids| && PutId(ids[i]).Some? ensures Reads(GetId, PutId(ids[i]).value, ids[i]) { IdReads(ids[i]); }
    ListReads(PutId, GetId, ids, ids, rest);
  }

  lemma OfflineReads(codec: PacketCodec, x: Delivery)
    requires Sound(codec) && FitsDelivery(x) && OfflinePut(codec)(x).Some?
    ensures Reads(OfflineGet(codec), OfflinePut(codec)(x).value, HeldDelivery(x))
  {
    forall rest ensures OfflineGet(codec)(OfflinePut(codec)(x).value + rest) == Some((HeldDelivery(x), rest)) {
      var ids, p := PutList(PutId, x.subIds).value, PutPublish(codec, x.publish).value;
      var flag: byte := if x.retain then 1 else 0;
      var a, b := [PutQos(x.qos)], [flag];
      Assoc(a, b + (ids + p), rest);
      Assoc(b, ids + p, rest);
      Assoc(ids, p, rest);
      ByteReads(PutQos(x.qos), b + (ids + (p + rest)));
      ByteReads(flag, ids + (p + rest));
      IdsRead(x.subIds, p + rest);
      PublishReads(codec, x.publish, rest);
    }
  }

  lemma {:induction false} FromPairsLists<T>(xs: seq<(u16, T)>, m: map<u16, T>)
    requires Lists(xs, m)
    ensures FromPairs(xs) == m
  {
    if xs == [] {
      assert |m.Keys| == 0;
    } else {
      var front, k, v := xs[..|xs| - 1], xs[|xs| - 1].0, xs[|xs| - 1].1;
      assert |m - {k}| == |m| - 1 by { assert (m - {k}).Keys == m.Keys - {k}; }
      FromPairsLists(front, m - {k});
      assert m == (m - {k})[k := v];
    }
  }

  lemma FromPairsHeld(infl: seq<(u16, InflightMessage)>, m: map<u16, InflightMessage>, ys: seq<(u16, InflightMessage)>)
    requires Lists(infl, m) && |ys| == |infl|
    requires forall i | 0 <= i < |ys| :: ys[i] == (infl[i].0, HeldMessage(infl[i].1))
    ensures FromPairs(ys) == HeldInflight(m)
  {
    assert |HeldInflight(m)| == |m| by { assert HeldInflight(m).Keys == m.Keys; }
    FromPairsLists(ys, HeldInflight(m));
  }

  lemma FromPairsHeldIncoming(inco: seq<(u16, Publish)>, m: map<u16, Publish>, ys: seq<(u16, Publish)>)
    requires Lists(inco, m) && |ys| == |inco|
    requires forall i | 0 <= i < |ys| :: ys[i] == (inco[i].0, AsStored(inco[i].1))
    ensures FromPairs(ys) == HeldIncoming(m)
  {
    assert |HeldIncoming(m)| == |m| by { assert HeldIncoming(m).Keys == m.Keys; }
    FromPairsLists(ys, HeldIncoming(m));
  }

  lemma SubsRead(subs: seq<MigratedSub>, rest: Bytes)
    requires |subs| < 0x1_0000_0000 && forall i | 0 <= i < |subs| :: FitsSub(subs[i])
    requires PutList(PutSub, subs).Some?
    ensures GetList(GetSub, PutList(PutSub, subs).value + rest) == Some((subs, rest))
  {
    forall i | 0 <= i < |subs| && PutSub(subs[i]).Some? ensures Reads(GetSub, PutSub(subs[i]).value, subs[i]) { SubReads(subs[i]); }
    ListReads(PutSub, GetSub, subs, subs, rest);
  }

  lemma InflightsRead(codec: PacketCodec, xs: seq<(u16, InflightMessage)>, m: map<u16, InflightMessage>, rest: Bytes)
    returns (ys: seq<(u16, InflightMessage)>)
    requires Sound(codec) && Lists(xs, m) && |m| < 0x1_0000_0000 && PutList(InflightPut(codec), xs).Some?
    ensures GetList(InflightGet(codec), PutList(InflightPut(codec), xs).value + rest) == Some((ys, rest))
    ensures FromPairs(ys) == HeldInflight(m)
  {
    ys := seq(|xs|, i requires 0 <= i < |xs| => (xs[i].0, HeldMessage(xs[i].1)));
    forall i | 0 <= i < |xs| && InflightPut(codec)(xs[i]).Some?
      ensures Reads(InflightGet(codec), InflightPut(codec)(xs[i]).value, ys[i])
    {
      InflightReads(codec, xs[i]);
    }
    ListReads(InflightPut(codec), InflightGet(codec), xs, ys, rest);
    FromPairsHeld(xs, m, ys);
  }

  lemma IncomingsRead(codec: PacketCodec, xs: seq<(u16, Publish)>, m: map<u16, Publish>, rest: Bytes)
    returns (ys: seq<(u16, Publish)>)
    requires Sound(codec) && Lists(xs, m) && |m| < 0x1_0000_0000 && PutList(IncomingPut(codec), xs).Some?
    ensures GetList(IncomingGet(codec), PutList(IncomingPut(codec), xs).value + rest) == Some((ys, rest))
    ensures FromPairs(ys) == HeldIncoming(m)
  {
    ys := seq(|xs|, i requires 0 <= i < |xs| => (xs[i].0, AsStored(xs[i].1)));
    forall i | 0 <= i < |xs| && IncomingPut(codec)(xs[i]).Some?
      ensures Reads(IncomingGet(codec), IncomingPut(codec)(xs[i]).value, ys[i])
    {
      IncomingReads(codec, xs[i]);
    }
    ListReads(IncomingPut(codec), IncomingGet(codec), xs, ys, rest);
    FromPairsHeldIncoming(xs, m, ys);
  }

  lemma OfflinesRead(codec: PacketCodec, xs: seq<Delivery>, rest: Bytes)
    requires Sound(codec) && |xs| < 0x1_0000_0000 && PutList(OfflinePut(codec), xs).Some?
    requires forall i | 0 <= i < |xs| :: FitsDelivery(xs[i])
    ensures GetList(OfflineGet(codec), PutList(OfflinePut(codec), xs).value + rest) == Some((HeldOffline(xs), rest))
  {
    forall i | 0 <= i < |xs| && OfflinePut(codec)(xs[i]).Some?
      ensures Reads(OfflineGet(codec), OfflinePut(codec)(xs[i]).value, HeldOffline(xs)[i])
    {
      OfflineReads(codec, xs[i]);
    }
    ListReads(OfflinePut(codec), OfflineGet(codec), xs, HeldOffline(xs), rest);
  }

  /** Decoding a session followed by anything gives the session back and consumes exactly its
      bytes, whatever order its maps were written in. */
  lemma SessionReads(codec: PacketCodec, ps: PersistedSession, inflight: seq<(u16, InflightMessage)>, incoming: seq<(u16, Publish)>)
    requires Sound(codec) && FitsSession(ps) && Lists(inflight, ps.inflight) && Lists(incoming, ps.incomingQos2)
    requires PutSession(codec, ps, inflight, incoming).Some?
    ensures Reads(SessionGet(codec), PutSession(codec, ps, inflight, incoming).value, Held(ps))
  {
    forall rest
      ensures SessionGet(codec)(PutSession(codec, ps, inflight, incoming).value + rest) == Some((Held(ps), rest))
    {
      SessionReadsAt(codec, ps, inflight, incoming, rest);
    }
  }

  lemma SessionReadsAt(codec: PacketCodec, ps: PersistedSession, inflight: seq<(u16, InflightMessage)>,
                       incoming: seq<(u16, Publish)>, rest: Bytes)
    requires Sound(codec) && FitsSession(ps) && Lists(inflight, ps.inflight) && Lists(incoming, ps.incomingQos2)
    requires PutSession(codec, ps, inflight, incoming).Some?
    ensures GetSession(codec, PutSession(codec, ps, inflight, incoming).value + rest) == Some((Held(ps), rest))
  {
    var a, b := PutStr(ps.clientId), PutU32(ps.expirySecs);
    var c, d := PutList(PutSub, ps.subscriptions).value, PutU16(ps.nextPkid);
    var e, f := PutList(InflightPut(codec), inflight).value, PutList(IncomingPut(codec), incoming).value;
    var g := PutList(OfflinePut(codec), ps.offline).value;
    AssocAll(a, b, c, d, e, f, g, rest);
    HeadReads(ps, d + (e + (f + (g + rest))));
    U16Reads(ps.nextPkid, e + (f + (g + rest)));
    TailReads(codec, ps, inflight, incoming, e, f, g, rest);
  }

  lemma TailReads(codec: PacketCodec, ps: PersistedSession, inflight: seq<(u16, InflightMessage)>,
                  incoming: seq<(u16, Publish)>, e: Bytes, f: Bytes, g: Bytes, rest: Bytes)
    requires Sound(codec) && FitsSession(ps) && Lists(inflight, ps.inflight) && Lists(incoming, ps.incomingQos2)
    requires PutList(InflightPut(codec), inflight) == Some(e) && PutList(IncomingPut(codec), incoming) == Some(f)
    requires PutList(OfflinePut(codec), ps.offline) == Some(g)
    ensures GetTail(codec, e + (f + (g + rest)))
         == Some((HeldInflight(ps.inflight), HeldIncoming(ps.incomingQos2), HeldOffline(ps.offline), rest))
  {
    var ys := InflightsRead(codec, inflight, ps.inflight, f + (g + rest));
    var zs := IncomingsRead(codec, incoming, ps.incomingQos2, g + rest);
    OfflinesRead(codec, ps.offline, rest);
  }

  lemma HeadReads(ps: PersistedSession, rest: Bytes)
    requires FitsSession(ps) && PutList(PutSub, ps.subscriptions).Some?
    ensures GetHead(PutStr(ps.clientId) + (PutU32(ps.expirySecs) + (PutList(PutSub, ps.subscriptions).value + rest)))
         == Some((ps.clientId, ps.expirySecs, ps.subscriptions, rest))
  {
    var b, c := PutU32(ps.expirySecs), PutList(PutSub, ps.subscriptions).value;
    FitsReads(ps.clientId, b + (c + rest));
    U32Reads(ps.expirySecs, c + rest);
    SubsRead(ps.subscriptions, rest);
  }

  lemma AssocAll(a: Bytes, b: Bytes, c: Bytes, d: Bytes, e: Bytes, f: Bytes, g: Bytes, rest: Bytes)
    ensures a + (b + (c + (d + (e + (f + g))))) + rest == a + (b + (c + (d + (e + (f + (g + rest))))))
  {
    Assoc(a, b + (c + (d + (e + (f + g)))), rest);
    Assoc(b, c + (d + (e + (f + g))), rest);
    Assoc(c, d + (e + (f + g)), rest);
    Assoc(d, e + (f + g), rest);
    Assoc(e, f + g, rest);
    Assoc(f, g, rest);
  }

  // --- stability -----------------------------------------------------------------------------

  lemma IdStable()
    ensures Stable(GetId)
  {
    FixedStable();
  }

  lemma EnumStable()
    ensures Stable(GetQos) && Stable(GetState)
  {
    FixedStable();
  }

  lemma SubStable()
    ensures Stable(GetSub)
  {
    forall d, more | GetSub(d).Some? ensures GetSub(d + more) == Some((GetSub(d).value.0, GetSub(d).value.1 + more)) {
      SubStableAt(d, more);
    }
  }

  lemma SubStableAt(d: Bytes, more: Bytes)
    requires GetSub(d).Some?
    ensures GetSub(d + more) == Some((GetSub(d).value.0, GetSub(d).value.1 + more))
  {
    FixedStable();
    EnumStable();
    StrStable();
    OptStable();
    var d1 := GetStr(d).value.1;
    var d2 := GetQos(d1).value.1;
    var d3 := GetU8(d2).value.1;
    var d4 := GetOptStr(d3).value.1;
    assert GetStr(d + more) == Some((GetStr(d).value.0, d1 + more)) && GetQos(d1 + more) == Some((GetQos(d1).value.0, d2 + more));
    assert GetU8(d2 + more) == Some((GetU8(d2).value.0, d3 + more)) && GetOptStr(d3 + more) == Some((GetOptStr(d3).value.0, d4 + more));
  }

  lemma InflightStable(codec: PacketCodec)
    ensures Stable(InflightGet(codec))
  {
    var get, pub := InflightGet(codec), PublishDecoder(codec);
    FixedStable();
    EnumStable();
    PublishStable(codec);
    forall d, more | get(d).Some? ensures get(d + more) == Some((get(d).value.0, get(d).value.1 + more)) {
      var d2 := GetState(GetU16(d).value.1).value.1;
      assert pub(d2 + more) == Some((pub(d2).value.0, pub(d2).value.1 + more));
    }
  }

  lemma IncomingStable(codec: PacketCodec)
    ensures Stable(IncomingGet(codec))
  {
    var get, pub := IncomingGet(codec), PublishDecoder(codec);
    FixedStable();
    PublishStable(codec);
    forall d, more | get(d).Some? ensures get(d + more) == Some((get(d).value.0, get(d).value.1 + more)) {
      var d1 := GetU16(d).value.1;
      assert pub(d1 + more) == Some((pub(d1).value.0, pub(d1).value.1 + more));
    }
  }

  lemma IdsStable(d: Bytes, more: Bytes)
    requires GetList(GetId, d).Some?
    ensures GetList(GetId, d + more) == Some((GetList(GetId, d).value.0, GetList(GetId, d).value.1 + more))
  {
    IdStable();
    ListStable(GetId, d, more);
  }

  lemma OfflineStable(codec: PacketCodec)
    ensures Stable(OfflineGet(codec))
  {
    var get := OfflineGet(codec);
    forall d, more | get(d).Some? ensures get(d + more) == Some((get(d).value.0, get(d).value.1 + more)) {
      OfflineStableAt(codec, d, more);
    }
  }

  lemma OfflineStableAt(codec: PacketCodec, d: Bytes, more: Bytes)
    requires GetOffline(codec, d).Some?
    ensures GetOffline(codec, d + more) == Some((GetOffline(codec, d).value.0, GetOffline(codec, d).value.1 + more))
  {
    EnumStable();
    FixedStable();
    var d1 := GetQos(d).value.1;
    var d2 := GetU8(d1).value.1;
    assert GetQos(d + more) == Some((GetQos(d).value.0, d1 + more)) && GetU8(d1 + more) == Some((GetU8(d1).value.0, d2 + more));
    IdsStable(d2, more);
    var d3 := GetList(GetId, d2).value.1;
    PublishStable(codec);
    assert PublishDecoder(codec)(d3).Some?;
  }

  lemma SessionStable(codec: PacketCodec)
    ensures Stable(SessionGet(codec))
  {
    var get := SessionGet(codec);
    forall d, more | get(d).Some? ensures get(d + more) == Some((get(d).value.0, get(d).value.1 + more)) {
      SessionStableAt(codec, d, more);
    }
  }

  lemma HeadStable(d: Bytes, more: Bytes)
    requires GetHead(d).Some?
    ensures GetHead(d + more) == Some((GetHead(d).value.0, GetHead(d).value.1, GetHead(d).value.2, GetHead(d).value.3 + more))
  {
    SubStable();
    StrStable();
    FixedStable();
    var d1 := GetStr(d).value.1;
    var d2 := GetU32(d1).value.1;
    ListStable(GetSub, d2, more);
  }

  lemma TailStable(codec: PacketCodec, d: Bytes, more: Bytes)
    requires GetTail(codec, d).Some?
    ensures var t := GetTail(codec, d).value; GetTail(codec, d + more) == Some((t.0, t.1, t.2, t.3 + more))
  {
    InflightStable(codec);
    IncomingStable(codec);
    OfflineStable(codec);
    ListStable(InflightGet(codec), d, more);
    var d1 := GetList(InflightGet(codec), d).value.1;
    ListStable(IncomingGet(codec), d1, more);
    var d2 := GetList(IncomingGet(codec), d1).value.1;
    ListStable(OfflineGet(codec), d2, more);
  }

  lemma SessionStableAt(codec: PacketCodec, d: Bytes, more: Bytes)
    requires GetSession(codec, d).Some?
    ensures GetSession(codec, d + more) == Some((GetSession(codec, d).value.0, GetSession(codec, d).value.1 + more))
  {
    HeadStable(d, more);
    FixedStable();
    TailStable(codec, GetU16(GetHead(d).value.3).value.1, more);
  }

  lemma OfflineShrinks(codec: PacketCodec)
    ensures Shrinks(OfflineGet(codec))
  {
    forall d | OfflineGet(codec)(d).Some? ensures |OfflineGet(codec)(d).value.1| <= |d| {
      ListShrinks(GetId, GetU8(GetQos(d).value.1).value.1);
    }
  }

  lemma SubShrinks()
    ensures Shrinks(GetSub)
  {
    assert Shrinks(GetStr) && Shrinks(GetOptStr) && Shrinks(GetOptU32) && Shrinks(GetQos);
  }

  lemma MessagesShrink(codec: PacketCodec)
    ensures Shrinks(InflightGet(codec)) && Shrinks(IncomingGet(codec))
  {
    assert Shrinks(PublishDecoder(codec)) && Shrinks(GetState);
  }

  lemma HeadShrinks(d: Bytes)
    requires GetHead(d).Some?
    ensures |GetHead(d).value.3| <= |d|
  {
    SubShrinks();
    ListShrinks(GetSub, GetU32(GetStr(d).value.1).value.1);
  }

  lemma TailShrinks(codec: PacketCodec, d: Bytes)
    requires GetTail(codec, d).Some?
    ensures |GetTail(codec, d).value.3| <= |d|
  {
    MessagesShrink(codec);
    ListShrinks(InflightGet(codec), d);
    var d1 := GetList(InflightGet(codec), d).value.1;
    ListShrinks(IncomingGet(codec), d1);
    OfflineShrinks(codec);
    ListShrinks(OfflineGet(codec), GetList(IncomingGet(codec), d1).value.1);
  }

  lemma SessionShrinks(codec: PacketCodec)
    ensures Shrinks(SessionGet(codec))
  {
    forall d | SessionGet(codec)(d).Some? ensures |SessionGet(codec)(d).value.1| <= |d| {
      HeadShrinks(d);
      TailShrinks(codec, GetU16(GetHead(d).value.3).value.1);
    }
  }

  // --- the snapshot file ------------------------------------------------------------------------

  const MAGIC: Bytes := [0x52, 0x51, 0x53, 0x31]

  /** A session together with the order in which its maps are walked. */
  datatype Walked = Walked(ps: PersistedSession, inflight: seq<(u16, InflightMessage)>, incoming: seq<(u16, Publish)>)

  ghost predicate WalkOf(w: Walked, ps: PersistedSession) {
    w.ps == ps && Lists(w.inflight, ps.inflight) && Lists(w.incoming, ps.incomingQos2)
  }

  ghost predicate Walks(w: Walked) {
    FitsSession(w.ps) && WalkOf(w, w.ps)
  }

  function WalkedPut(codec: PacketCodec): Walked -> Option<Bytes> {
    (w: Walked) => PutSession(codec, w.ps, w.inflight, w.incoming)
  }

  function Serialize(codec: PacketCodec, ws: seq<Walked>): Option<Bytes> {
    var b :- PutList(WalkedPut(codec), ws);
    Some(MAGIC + b)
  }

  function Parse(codec: PacketCodec, d: Bytes): Option<(seq<PersistedSession>, Bytes)> {
    var (magic, d1) :- Take(d, 4);
    if magic != MAGIC then None else GetList(SessionGet(codec), d1)
  }

  function ParseGet(codec: PacketCodec): Decoder<seq<PersistedSession>> {
    d => Parse(codec, d)
  }

  function HeldAll(ws: seq<Walked>): (r: seq<PersistedSession>)
    ensures |r| == |ws| && forall i | 0 <= i < |ws| :: r[i] == Held(ws[i].ps)
  {
    seq(|ws|, i requires 0 <= i < |ws| => Held(ws[i].ps))
  }

  /** A snapshot parses back to the sessions written, and every strict prefix of it is rejected. */
  lemma SnapshotRoundTrip(codec: PacketCodec, ws: seq<Walked>)
    requires Sound(codec) && |ws| < 0x1_0000_0000 && (forall i | 0 <= i < |ws| :: Walks(ws[i]))
    requires Serialize(codec, ws).Some?
    ensures Reads(ParseGet(codec), Serialize(codec, ws).value, HeldAll(ws))
    ensures forall k | 0 <= k < |Serialize(codec, ws).value| :: Parse(codec, Serialize(codec, ws).value[..k]).None?
  {
    SnapshotReads(codec, ws);
    ParseStable(codec);
    var file := Serialize(codec, ws).value;
    forall k | 0 <= k < |file| ensures Parse(codec, file[..k]).None? {
      CutFails(ParseGet(codec), file, HeldAll(ws), k);
      assert ParseGet(codec)(file[..k]) == Parse(codec, file[..k]);
    }
  }

  lemma SnapshotReads(codec: PacketCodec, ws: seq<Walked>)
    requires Sound(codec) && |ws| < 0x1_0000_0000 && (forall i | 0 <= i < |ws| :: Walks(ws[i]))
    requires Serialize(codec, ws).Some?
    ensures Reads(ParseGet(codec), Serialize(codec, ws).value, HeldAll(ws))
  {
    var b := PutList(WalkedPut(codec), ws).value;
    forall i | 0 <= i < |ws| && WalkedPut(codec)(ws[i]).Some?
      ensures Reads(SessionGet(codec), WalkedPut(codec)(ws[i]).value, HeldAll(ws)[i])
    {
      SessionReads(codec, ws[i].ps, ws[i].inflight, ws[i].incoming);
    }
    forall rest ensures ParseGet(codec)(MAGIC + b + rest) == Some((HeldAll(ws), rest)) {
      Assoc(MAGIC, b, rest);
      SplitFront(MAGIC, b + rest);
      ListReads(WalkedPut(codec), SessionGet(codec), ws, HeldAll(ws), rest);
    }
  }

  lemma ParseStable(codec: PacketCodec)
    ensures Stable(ParseGet(codec))
  {
    var get := ParseGet(codec);
    SessionStable(codec);
    forall d, more | get(d).Some? ensures get(d + more) == Some((get(d).value.0, get(d).value.1 + more)) {
      TakeStable(d, 4, more);
      ListStable(SessionGet(codec), Take(d, 4).value.1, more);
    }
  }

  /** A session survives the disk unchanged exactly when none of its QoS > 0 messages lacks a packet id and
      none of QoS 0 has one. */
  lemma UnchangedWhenNumbered(ps: PersistedSession)
    ensures Held(ps) == ps <==>
            && (forall k | k in ps.inflight :: Numbered(ps.inflight[k].publish))
            && (forall k | k in ps.incomingQos2 :: Numbered(ps.incomingQos2[k]))
            && (forall i | 0 <= i < |ps.offline| :: Numbered(ps.offline[i].publish))
  {
    assert forall p: Publish :: AsStored(p) == p <==> Numbered(p);
    if Held(ps) == ps {
      forall k | k in ps.inflight ensures Numbered(ps.inflight[k].publish) { assert HeldInflight(ps.inflight)[k] == ps.inflight[k]; }
      forall k | k in ps.incomingQos2 ensures Numbered(ps.incomingQos2[k]) { assert HeldIncoming(ps.incomingQos2)[k] == ps.incomingQos2[k]; }
      forall i | 0 <= i < |ps.offline| ensures Numbered(ps.offline[i].publish) { assert HeldOffline(ps.offline)[i] == ps.offline[i]; }
    }
  }

  /** The same message, but for its packet id, which is kept if it has one to keep. */
  predicate SameStored(a: Publish, p: Publish) {
    && a.topic == p.topic && a.payload == p.payload && a.qos == p.qos && a.retain == p.retain && a.dup == p.dup
    && a.properties == p.properties && Numbered(a) && (Numbered(p) ==> a.pkid == p.pkid)
  }

  /** Whatever the packet ids, the disk changes nothing else: what comes back has every message that was
      stored, under its own key or in its own place. */
  lemma StoringKeepsMessages(ps: PersistedSession)
    ensures var h := Held(ps);
            && h.clientId == ps.clientId && h.expirySecs == ps.expirySecs && h.subscriptions == ps.subscriptions && h.nextPkid == ps.nextPkid
            && h.inflight.Keys == ps.inflight.Keys && h.incomingQos2.Keys == ps.incomingQos2.Keys && |h.offline| == |ps.offline|
            && (forall k | k in ps.inflight ::
                  SameStored(h.inflight[k].publish, ps.inflight[k].publish) && h.inflight[k].state == ps.inflight[k].state)
            && (forall k | k in ps.incomingQos2 :: SameStored(h.incomingQos2[k], ps.incomingQos2[k]))
            && (forall i | 0 <= i < |ps.offline| ::
                  && SameStored(h.offline[i].publish, ps.offline[i].publish) && h.offline[i].qos == ps.offline[i].qos
                  && h.offline[i].retain == ps.offline[i].retain && h.offline[i].subIds == ps.offline[i].subIds)
  {
  }

  predicate Numbered(p: Publish) {
    (p.qos == AtMostOnce) == (p.pkid == 0)
  }

  // --- a sample of the format ---------------------------------------------------------------------------

  lemma SampleTexts()
    ensures PutStr("c") == [1, 0, 0x63] && PutStr("t") == [1, 0, 0x74] && PutStr("g") == [1, 0, 0x67]
  {
    assert Utf8.Encode("c") == [0x63] && Utf8.Encode("t") == [0x74] && Utf8.Encode("g") == [0x67];
  }

  lemma SampleNumbers()
    ensures PutU32(60) == [60, 0, 0, 0] && PutU32(7) == [7, 0, 0, 0] && PutU32(1) == [1, 0, 0, 0] && PutU32(0) == [0, 0, 0, 0]
    ensures PutU16(0x0201) == [0x01, 0x02]
  {
  }

  lemma SampleSubs()
    ensures PutSub(MigratedSub("t", ExactlyOnce, true, false, Some("g"), Some(7))) == Some([1, 0, 0x74, 2, 1, 1, 1, 0, 0x67, 1, 7, 0, 0, 0])
    ensures PutSub(MigratedSub("t", AtLeastOnce, false, true, None, None)) == Some([1, 0, 0x74, 1, 2, 0, 0])
  {
    SampleTexts();
    SampleNumbers();
    assert [1, 0, 0x74] + ([2] + ([1] + ([1] + [1, 0, 0x67] + ([1] + [7, 0, 0, 0])))) == [1, 0, 0x74, 2, 1, 1, 1, 0, 0x67, 1, 7, 0, 0, 0];
    assert [1, 0, 0x74] + ([1] + ([2] + ([0] + [0]))) == [1, 0, 0x74, 1, 2, 0, 0];
  }

  lemma EmptyList<T>(put: T -> Option<Bytes>)
    ensures PutList(put, []) == Some([0, 0, 0, 0])
  {
    SampleNumbers();
    assert PutU32(0) + [] == [0, 0, 0, 0];
  }

  lemma SampleJoins(none: Bytes)
    requires none == [0, 0, 0, 0]
    ensures [1, 0, 0x63] + ([60, 0, 0, 0] + (none + ([0x01, 0x02] + (none + (none + none)))))
         == [1, 0, 0x63, 60, 0, 0, 0, 0, 0, 0, 0, 0x01, 0x02, 0, 0, 0, 0, 0, 0, 0, 0, 0, 0, 0, 0]
  {
  }

  /** The bytes of one session, written out: little-endian numbers, 16-bit lengths before texts, 32-bit
      counts before lists. */
  lemma SampleSession(codec: PacketCodec)
    ensures PutSession(codec, PersistedSession("c", 60, [], map[], map[], 0x0201, []), [], [])
         == Some([1, 0, 0x63, 60, 0, 0, 0, 0, 0, 0, 0, 0x01, 0x02, 0, 0, 0, 0, 0, 0, 0, 0, 0, 0, 0, 0])
  {
    SampleTexts();
    SampleNumbers();
    EmptyList(PutSub);
    EmptyList(InflightPut(codec));
    EmptyList(IncomingPut(codec));
    EmptyList(OfflinePut(codec));
    SampleJoins([0, 0, 0, 0]);
  }
}
