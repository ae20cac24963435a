/** What an acknowledgement does, and what is in flight: exactly what the client has been sent above QoS 0
    and has not acknowledged. */
module Acknowledgements {
  import opened Types
  import opened Outbound
  import opened PacketIds

  // --- one acknowledgement --------------------------------------------------------------------------

  /** The message is one of the first `n` held. */
  ghost predicate WasHeld(m: InflightMessage, pending: seq<Delivery>, n: nat) {
    exists i :: 0 <= i < n <= |pending| && IsFor(m.publish, pending[i])
  }

  /** What was in flight stays so, as it was; what is new was held. */
  ghost predicate OnlyHeldAdded(before: map<u16, InflightMessage>, after: map<u16, InflightMessage>, pending: seq<Delivery>, n: nat) {
    && (forall k | k in before :: k in after && after[k] == before[k])
    && (forall k | k in after && k !in before :: WasHeld(after[k], pending, n))
  }

  lemma AttemptAdds(c: Conn, lim: Limits, size: Encoder, d: Delivery)
    requires d.qos != AtMostOnce && |c.inflight| < 65535 && Attempt(c, lim, size, d).Some?
    ensures var next := Attempt(c, lim, size, d).value;
            && (forall k | k in c.inflight :: k in next.inflight && next.inflight[k] == c.inflight[k])
            && (forall k | k in next.inflight && k !in c.inflight :: IsFor(next.inflight[k].publish, d))
            && |next.inflight| - |c.inflight| == |next.wire| - |c.wire| <= 1
  {
    FirstFreeIsFree(c.inflight.Keys, c.nextPkid);
    StampIsFor(d, PkidFor(c, d));
  }

  lemma OnlyMoreAdded(a: map<u16, InflightMessage>, b: map<u16, InflightMessage>, c: map<u16, InflightMessage>,
                      pending: seq<Delivery>, n: nat)
    requires pending != [] && n <= |pending| - 1
    requires forall k | k in a :: k in b && b[k] == a[k]
    requires forall k | k in b && k !in a :: IsFor(b[k].publish, pending[0])
    requires OnlyHeldAdded(b, c, pending[1..], n)
    ensures OnlyHeldAdded(a, c, pending, n + 1)
  {
    forall k | k in c && k !in a ensures WasHeld(c[k], pending, n + 1) {
      if k in b {
        assert IsFor(c[k].publish, pending[0]);
      } else {
        assert WasHeld(c[k], pending[1..], n);
        var i :| 0 <= i < n && IsFor(c[k].publish, pending[1..][i]);
        assert pending[1..][i] == pending[i + 1];
      }
    }
  }

  /** `n` held messages were tried, in turn, each of them while there was room, and the next one only was
      not because there is none left. */
  ghost predicate Tries(c: Conn, next: Conn, lim: Limits, n: nat) {
    && n <= |c.pending| && next.pending == c.pending[n..]
    && OnlyHeldAdded(c.inflight, next.inflight, c.pending, n)
    && |next.inflight| == |c.inflight| + |next.wire| - |c.wire|
    && (n < |c.pending| ==> !HasRoom(|next.inflight|, lim))
    && (n > 0 ==> HasRoom(|c.inflight|, lim) && (|next.inflight| == 0 || HasRoom(|next.inflight| - 1, lim)))
  }

  lemma OneMoreTried(c: Conn, mid: Conn, next: Conn, lim: Limits, n: nat)
    requires c.pending != [] && mid.pending == c.pending[1..] && Tries(mid, next, lim, n) && HasRoom(|c.inflight|, lim)
    requires forall k | k in c.inflight :: k in mid.inflight && mid.inflight[k] == c.inflight[k]
    requires forall k | k in mid.inflight && k !in c.inflight :: IsFor(mid.inflight[k].publish, c.pending[0])
    requires |mid.inflight| - |c.inflight| == |mid.wire| - |c.wire| <= 1
    ensures Tries(c, next, lim, n + 1)
  {
    OnlyMoreAdded(c.inflight, mid.inflight, next.inflight, c.pending, n);
    if n == 0 { assert next.inflight == mid.inflight; }
  }

  lemma {:induction false} DrainTries(c: Conn, lim: Limits, size: Encoder) returns (n: nat)
    requires AllZero(c.pending, false) && Drain(c, lim, size).Some?
    ensures Tries(c, Drain(c, lim, size).value, lim, n)
    decreases |c.pending|
  {
    n := 0;
    if |c.inflight| < Window(lim) && c.pending != [] {
      var popped, d := c.(pending := c.pending[1..]), c.pending[0];
      var mid := Attempt(popped, lim, size, d).value;
      AttemptAdds(popped, lim, size, d);
      AttemptKeepsPending(popped, lim, size, d);
      n := DrainTries(mid, lim, size);
      OneMoreTried(c, mid, Drain(c, lim, size).value, lim, n);
      n := n + 1;
    }
  }

  /** PUBACK or PUBCOMP. The message leaves the window and nothing else in flight changes; then the held
      messages are tried in order, as many as there is room for. An acknowledgement of nothing changes
      nothing. */
  lemma AckFrees(c: Conn, lim: Limits, size: Encoder, pkid: u16) returns (freed: Conn, n: nat)
    requires AllZero(c.pending, false) && Ack(c, lim, size, pkid).Some?
    ensures pkid !in c.inflight ==> Ack(c, lim, size, pkid).value == c
    ensures pkid in c.inflight ==> Frees(c, freed, pkid) && Tries(freed, Ack(c, lim, size, pkid).value, lim, n)
  {
    freed, n := c, 0;
    if pkid in c.inflight {
      freed := c.(inflight := c.inflight - {pkid});
      assert freed.inflight.Keys == c.inflight.Keys - {pkid};
      n := DrainTries(freed, lim, size);
    }
  }

  /** The message under this packet id is no longer in flight; all else is as it was. */
  predicate Frees(c: Conn, freed: Conn, pkid: u16) {
    && freed.inflight.Keys == c.inflight.Keys - {pkid}
    && (forall k | k in freed.inflight :: freed.inflight[k] == c.inflight[k])
    && |freed.inflight| == |c.inflight| - 1
    && freed == c.(inflight := freed.inflight)
  }

  // --- what the client has not acknowledged -----------------------------------------------------------

  /** What passes between broker and client: a message the client understood, with its topic resolved; a
      PUBREC; a PUBACK or PUBCOMP. */
  datatype Mark = Got(m: Publish) | RecOf(pkid: u16) | AckOf(pkid: u16)

  datatype Awaits = Puback | Pubrec | Pubcomp

  datatype Open = Open(m: Publish, awaits: Awaits)

  /** The exchanges still open, by packet id, as the protocol has them. */
  function Noted(open: map<u16, Open>, mark: Mark): map<u16, Open> {
    match mark
    case Got(m) =>
      if m.qos == AtMostOnce then open else open[m.pkid := Open(m, if m.qos == AtLeastOnce then Puback else Pubrec)]
    case RecOf(pkid) => if pkid in open && open[pkid].awaits == Pubrec then open[pkid := open[pkid].(awaits := Pubcomp)] else open
    case AckOf(pkid) => open - {pkid}
  }

  function Unacked(open: map<u16, Open>, marks: seq<Mark>): map<u16, Open> {
    if marks == [] then open else Noted(Unacked(open, marks[..|marks| - 1]), marks[|marks| - 1])
  }

  lemma {:induction false} UnackedMore(open: map<u16, Open>, a: seq<Mark>, b: seq<Mark>)
    ensures Unacked(open, a + b) == Unacked(Unacked(open, a), b)
    decreases |b|
  {
    if b == [] {
      assert a + b == a;
    } else {
      assert (a + b)[..|a + b| - 1] == a + b[..|b| - 1];
      UnackedMore(open, a, b[..|b| - 1]);
    }
  }

  function AwaitsIn(state: InflightState): Awaits {
    match state
    case Qos1 => Puback
    case Qos2Pending => Pubrec
    case Qos2Released => Pubcomp
  }

  /** What is in flight is what is open, message for message. */
  predicate StandsFor(inflight: map<u16, InflightMessage>, open: map<u16, Open>) {
    && inflight.Keys == open.Keys
    && forall k | k in inflight :: SameMessage(inflight[k].publish, open[k].m) && AwaitsIn(inflight[k].state) == open[k].awaits
  }

  /** Open from the start: what the session had in flight. */
  function Restored(inflight: map<u16, InflightMessage>): map<u16, Open> {
    map k | k in inflight :: Open(inflight[k].publish, AwaitsIn(inflight[k].state))
  }

  /** Within the client's Maximum Packet Size. */
  predicate Acceptable(packets: seq<Packet>, lim: Limits, size: Encoder) {
    forall k | 0 <= k < |packets| && packets[k].Pub? ::
      var n := size(packets[k].p); n.Some? && (lim.maxPacket.Some? ==> n.value <= lim.maxPacket.value)
  }

  lemma AcceptableMore(a: seq<Packet>, b: seq<Packet>, c: seq<Packet>, lim: Limits, size: Encoder)
    requires a <= b <= c && Acceptable(b[|a|..], lim, size) && Acceptable(c[|b|..], lim, size)
    ensures Acceptable(c[|a|..], lim, size)
  {
    forall k | 0 <= k < |c[|a|..]| && c[|a|..][k].Pub?
      ensures var n := size(c[|a|..][k].p); n.Some? && (lim.maxPacket.Some? ==> n.value <= lim.maxPacket.value)
    {
      if k < |b| - |a| {
        assert c[|a|..][k] == b[|a|..][k];
      } else {
        assert c[|a|..][k] == c[|b|..][k + |a| - |b|];
      }
    }
  }

  /** More was written: the client reads on, understanding these messages, and can take every packet. */
  ghost predicate WritesOn(c: Conn, next: Conn, lim: Limits, size: Encoder, ms: seq<Publish>) {
    && c.wire <= next.wire && Acceptable(next.wire[|c.wire|..], lim, size)
    && Client(c.wire).Some? && Client(next.wire).Some?
    && Client(next.wire).value.messages == Client(c.wire).value.messages + ms
  }

  function Gots(ms: seq<Publish>): seq<Mark> {
    seq(|ms|, i requires 0 <= i < |ms| => Got(ms[i]))
  }

  lemma WritesTwice(a: Conn, b: Conn, c: Conn, lim: Limits, size: Encoder, ms: seq<Publish>, ns: seq<Publish>)
    requires WritesOn(a, b, lim, size, ms) && WritesOn(b, c, lim, size, ns)
    ensures WritesOn(a, c, lim, size, ms + ns) && Gots(ms + ns) == Gots(ms) + Gots(ns)
  {
    var was := Client(a.wire).value.messages;
    assert was + ms + ns == was + (ms + ns);
    AcceptableMore(a.wire, b.wire, c.wire, lim, size);
  }

  /** The connection writes on, and what it then has in flight is what is then open. */
  ghost predicate Follows(c: Conn, next: Conn, lim: Limits, size: Encoder, open: map<u16, Open>, ms: seq<Publish>) {
    AliasInv(next, lim) && WritesOn(c, next, lim, size, ms) && StandsFor(next.inflight, Unacked(open, Gots(ms)))
  }

  lemma FollowsOn(a: Conn, b: Conn, c: Conn, lim: Limits, size: Encoder, open: map<u16, Open>, ms: seq<Publish>, ns: seq<Publish>)
    requires Follows(a, b, lim, size, open, ms) && Follows(b, c, lim, size, Unacked(open, Gots(ms)), ns)
    ensures Follows(a, c, lim, size, open, ms + ns)
  {
    WritesTwice(a, b, c, lim, size, ms, ns);
    UnackedMore(open, Gots(ms), Gots(ns));
  }

  lemma NothingWritten(c: Conn, next: Conn, lim: Limits, size: Encoder, open: map<u16, Open>)
    requires AliasInv(c, lim) && AliasInv(next, lim) && next.wire == c.wire && StandsFor(next.inflight, open)
    ensures Follows(c, next, lim, size, open, [])
  {
    assert Client(c.wire).value.messages + [] == Client(c.wire).value.messages;
    assert Unacked(open, Gots([])) == open;
  }

  lemma PacketReads(wire: seq<Packet>, aliases: map<string, u16>, max: u16, d: Delivery, pkid: u16) returns (m: Publish)
    requires AliasesOk(aliases, max) && Client(wire).Some? && Mirrors(Client(wire).value.table, aliases) && d.publish.topic != ""
    ensures var after := wire + [Pub(Aliased(aliases, max, Stamped(d, pkid)).0)];
            && SameMessage(m, Stamped(d, pkid)) && Client(after).Some?
            && Client(after).value.messages == Client(wire).value.messages + [m]
  {
    StampIsFor(d, pkid);
    ClientMore(wire, Pub(Aliased(aliases, max, Stamped(d, pkid)).0));
    m := AliasedReads(aliases, max, Stamped(d, pkid), Client(wire).value);
  }

  lemma AttemptSends(c: Conn, lim: Limits, size: Encoder, d: Delivery) returns (packet: Publish)
    requires Attempt(c, lim, size, d).Some? && Grew(c, Attempt(c, lim, size, d).value)
    ensures packet == Aliased(c.aliases, lim.aliasMax, Stamped(d, PkidFor(c, d))).0
    ensures Attempt(c, lim, size, d).value.wire == c.wire + [Pub(packet)]
    ensures size(packet).Some? && (lim.maxPacket.Some? ==> size(packet).value <= lim.maxPacket.value)
  {
    packet := Aliased(c.aliases, lim.aliasMax, Stamped(d, PkidFor(c, d))).0;
  }

  lemma SentFollows(c: Conn, lim: Limits, size: Encoder, d: Delivery) returns (ms: seq<Publish>)
    requires AliasInv(c, lim) && d.publish.topic != "" && Attempt(c, lim, size, d).Some? && Grew(c, Attempt(c, lim, size, d).value)
    ensures |ms| == 1 && SameMessage(ms[0], Stamped(d, PkidFor(c, d))) && WritesOn(c, Attempt(c, lim, size, d).value, lim, size, ms)
  {
    var next := Attempt(c, lim, size, d).value;
    var packet := AttemptSends(c, lim, size, d);
    var m := PacketReads(c.wire, c.aliases, lim.aliasMax, d, PkidFor(c, d));
    ms := [m];
    assert next.wire[|c.wire|..] == [Pub(packet)];
  }

  /** The send opens an exchange, above QoS 0. */
  lemma OpensExchange(inflight: map<u16, InflightMessage>, open: map<u16, Open>, qos: QoS, p: Publish, m: Publish)
    requires StandsFor(inflight, open) && p.qos == qos && SameMessage(m, p)
    ensures StandsFor(if qos == AtMostOnce then inflight else inflight[p.pkid := InflightMessage(p, InitialState(qos))], Noted(open, Got(m)))
  {
  }

  lemma AttemptInflight(c: Conn, lim: Limits, size: Encoder, d: Delivery)
    requires Attempt(c, lim, size, d).Some?
    ensures var next := Attempt(c, lim, size, d).value;
            if Grew(c, next) then next.inflight == if d.qos == AtMostOnce then c.inflight
                                                   else c.inflight[PkidFor(c, d) := InflightMessage(Stamped(d, PkidFor(c, d)), InitialState(d.qos))]
            else next.inflight == c.inflight && next.wire == c.wire
  {
  }

  lemma OneGot(open: map<u16, Open>, m: Publish)
    ensures Unacked(open, Gots([m])) == Noted(open, Got(m))
  {
    assert Gots([m])[..0] == [];
  }

  lemma SentStands(c: Conn, next: Conn, d: Delivery, ms: seq<Publish>, open: map<u16, Open>)
    requires StandsFor(c.inflight, open) && |ms| == 1 && SameMessage(ms[0], Stamped(d, PkidFor(c, d)))
    requires next.inflight == if d.qos == AtMostOnce then c.inflight
                              else c.inflight[PkidFor(c, d) := InflightMessage(Stamped(d, PkidFor(c, d)), InitialState(d.qos))]
    ensures StandsFor(next.inflight, Unacked(open, Gots(ms)))
  {
    OpensExchange(c.inflight, open, d.qos, Stamped(d, PkidFor(c, d)), ms[0]);
    OneGot(open, ms[0]);
    assert ms == [ms[0]];
  }

  lemma AttemptFollows(c: Conn, lim: Limits, size: Encoder, d: Delivery, open: map<u16, Open>) returns (ms: seq<Publish>)
    requires AliasInv(c, lim) && d.publish.topic != "" && Attempt(c, lim, size, d).Some? && StandsFor(c.inflight, open)
    ensures Follows(c, Attempt(c, lim, size, d).value, lim, size, open, ms)
  {
    var next := Attempt(c, lim, size, d).value;
    AttemptShows(c, lim, size, d);
    AttemptInflight(c, lim, size, d);
    if Grew(c, next) {
      ms := SentFollows(c, lim, size, d);
      SentStands(c, next, d, ms, open);
    } else {
      ms := [];
      NothingWritten(c, next, lim, size, open);
    }
  }

  lemma HeldFollows(c: Conn, lim: Limits, size: Encoder, d: Delivery, open: map<u16, Open>)
    requires AliasInv(c, lim) && d.publish.topic != "" && StandsFor(c.inflight, open)
    ensures Follows(c, c.(pending := Queued(c.pending, d)), lim, size, open, [])
  {
    NothingWritten(c, c.(pending := Queued(c.pending, d)), lim, size, open);
  }

  lemma {:induction false} DeliverAllFollows(c: Conn, lim: Limits, size: Encoder, ds: seq<Delivery>, open: map<u16, Open>)
    returns (ms: seq<Publish>)
    requires AliasInv(c, lim) && AllNamed(ds) && DeliverAll(c, lim, size, ds).Some? && StandsFor(c.inflight, open)
    ensures Follows(c, DeliverAll(c, lim, size, ds).value, lim, size, open, ms)
    decreases |ds|
  {
    ms := [];
    if ds == [] {
      NothingWritten(c, c, lim, size, open);
    } else {
      if Sends(c, lim, ds[0]) { ms := AttemptFollows(c, lim, size, ds[0], open); } else { HeldFollows(c, lim, size, ds[0], open); }
      var mid := Deliver(c, lim, size, ds[0]).value;
      var more := DeliverAllFollows(mid, lim, size, ds[1..], Unacked(open, Gots(ms)));
      FollowsOn(c, mid, DeliverAll(c, lim, size, ds).value, lim, size, open, ms, more);
      ms := ms + more;
    }
  }

  lemma {:induction false} DrainFollows(c: Conn, lim: Limits, size: Encoder, open: map<u16, Open>) returns (ms: seq<Publish>)
    requires AliasInv(c, lim) && Drain(c, lim, size).Some? && StandsFor(c.inflight, open)
    ensures Follows(c, Drain(c, lim, size).value, lim, size, open, ms)
    decreases |c.pending|
  {
    if |c.inflight| < Window(lim) && c.pending != [] {
      var popped, d := c.(pending := c.pending[1..]), c.pending[0];
      ms := AttemptFollows(popped, lim, size, d, open);
      var mid := Attempt(popped, lim, size, d).value;
      AttemptKeepsPending(popped, lim, size, d);
      var more := DrainFollows(mid, lim, size, Unacked(open, Gots(ms)));
      FollowsOn(c, mid, Drain(c, lim, size).value, lim, size, open, ms, more);
      ms := ms + more;
    } else {
      ms := [];
      NothingWritten(c, c, lim, size, open);
    }
  }

  // --- whole lives ----------------------------------------------------------------------------------

  /** What the client understood of what was written from one state to the next. */
  function News(c: Conn, next: Conn): seq<Publish> {
    if Client(c.wire).Some? && Client(next.wire).Some? && Client(c.wire).value.messages <= Client(next.wire).value.messages
    then Client(next.wire).value.messages[|Client(c.wire).value.messages|..] else []
  }

  /** What a packet of the client's says. */
  function Says(e: Event): seq<Mark> {
    match e
    case Acked(pkid) => [AckOf(pkid)]
    case Received(pkid) => [RecOf(pkid)]
    case _ => []
  }

  /** What passes in the run: each packet of the client's, and then what it is sent in answer. */
  function Exchanged(c: Conn, lim: Limits, size: Encoder, events: seq<Event>): seq<Mark>
    requires Run(c, lim, size, events).Some?
    decreases |events|
  {
    if events == [] then []
    else
      var next := Next(c, lim, size, events[0]).value;
      Says(events[0]) + Gots(News(c, next)) + Exchanged(next, lim, size, events[1..])
  }

  lemma NewsIs(c: Conn, next: Conn, lim: Limits, size: Encoder, ms: seq<Publish>)
    requires WritesOn(c, next, lim, size, ms)
    ensures News(c, next) == ms
  {
  }

  lemma OneSaid(open: map<u16, Open>, mark: Mark)
    ensures Unacked(open, [mark]) == Noted(open, mark)
  {
    assert [mark][..0] == [];
  }

  lemma FreedStands(c: Conn, lim: Limits, pkid: u16, open: map<u16, Open>) returns (freed: Conn)
    requires AliasInv(c, lim) && StandsFor(c.inflight, open)
    ensures freed == c.(inflight := c.inflight - {pkid}) && AliasInv(freed, lim) && StandsFor(freed.inflight, Noted(open, AckOf(pkid)))
  {
    freed := c.(inflight := c.inflight - {pkid});
    assert freed.inflight.Keys == c.inflight.Keys - {pkid};
  }

  lemma FollowsFrom(c: Conn, freed: Conn, next: Conn, lim: Limits, size: Encoder, open: map<u16, Open>, ms: seq<Publish>)
    requires freed.wire == c.wire && Follows(freed, next, lim, size, open, ms)
    ensures Follows(c, next, lim, size, open, ms)
  {
  }

  lemma ClosesNothing(inflight: map<u16, InflightMessage>, open: map<u16, Open>, pkid: u16)
    requires StandsFor(inflight, open) && pkid !in inflight
    ensures Noted(open, AckOf(pkid)) == open
  {
    assert pkid !in open;
  }

  /** The acknowledged exchange is closed. */
  lemma AckFollows(c: Conn, lim: Limits, size: Encoder, pkid: u16, open: map<u16, Open>) returns (ms: seq<Publish>)
    requires AliasInv(c, lim) && Ack(c, lim, size, pkid).Some? && StandsFor(c.inflight, open)
    ensures Follows(c, Ack(c, lim, size, pkid).value, lim, size, Noted(open, AckOf(pkid)), ms)
  {
    var next := Ack(c, lim, size, pkid).value;
    if pkid in c.inflight {
      var freed := FreedStands(c, lim, pkid, open);
      ms := DrainFollows(freed, lim, size, Noted(open, AckOf(pkid)));
      FollowsFrom(c, freed, next, lim, size, Noted(open, AckOf(pkid)), ms);
    } else {
      ms := [];
      ClosesNothing(c.inflight, open, pkid);
      NothingWritten(c, c, lim, size, open);
    }
  }

  lemma RecStands(c: Conn, pkid: u16, open: map<u16, Open>)
    requires StandsFor(c.inflight, open)
    ensures StandsFor(Rec(c, pkid).inflight, Noted(open, RecOf(pkid)))
    ensures CopiesInFull(c.inflight) ==> CopiesInFull(Rec(c, pkid).inflight)
  {
  }

  lemma RelWrites(c: Conn, next: Conn, lim: Limits, size: Encoder, pkid: u16)
    requires Client(c.wire).Some? && next.wire == c.wire + [Rel(pkid)]
    ensures WritesOn(c, next, lim, size, []) && Client(next.wire) == Client(c.wire)
  {
    ClientMore(c.wire, Rel(pkid));
    assert next.wire[|c.wire|..] == [Rel(pkid)];
    assert Client(c.wire).value.messages + [] == Client(c.wire).value.messages;
  }

  lemma RecFollows(c: Conn, lim: Limits, size: Encoder, pkid: u16, open: map<u16, Open>)
    requires AliasInv(c, lim) && StandsFor(c.inflight, open)
    ensures Follows(c, Rec(c, pkid), lim, size, Noted(open, RecOf(pkid)), [])
  {
    RecStands(c, pkid, open);
    RelWrites(c, Rec(c, pkid), lim, size, pkid);
    assert Unacked(Noted(open, RecOf(pkid)), Gots([])) == Noted(open, RecOf(pkid));
  }

  lemma NextFollows(c: Conn, lim: Limits, size: Encoder, e: Event, open: map<u16, Open>) returns (ms: seq<Publish>)
    requires AliasInv(c, lim) && AllNamed(Brought(e)) && Next(c, lim, size, e).Some? && StandsFor(c.inflight, open)
    ensures Follows(c, Next(c, lim, size, e).value, lim, size, Unacked(open, Says(e)), ms)
  {
    match e
    case Delivered(d) =>
      assert Brought(e)[0] == d && DeliverAll(Deliver(c, lim, size, d).value, lim, size, []) == Deliver(c, lim, size, d);
      ms := DeliverAllFollows(c, lim, size, [d], open);
    case Acked(pkid) =>
      OneSaid(open, AckOf(pkid));
      ms := AckFollows(c, lim, size, pkid, open);
    case Received(pkid) =>
      OneSaid(open, RecOf(pkid));
      RecFollows(c, lim, size, pkid, open);
      ms := [];
    case Parked(incoming, queued) =>
      ComesBackSame(c, lim, size, incoming, queued);
      ms := DeliverAllFollows(c, lim, size, queued, open);
  }

  lemma {:induction false} RunFollows(c: Conn, lim: Limits, size: Encoder, events: seq<Event>, open: map<u16, Open>)
    requires AliasInv(c, lim) && Named(events) && Run(c, lim, size, events).Some? && StandsFor(c.inflight, open)
    ensures var end := Run(c, lim, size, events).value;
            && StandsFor(end.inflight, Unacked(open, Exchanged(c, lim, size, events)))
            && c.wire <= end.wire && Acceptable(end.wire[|c.wire|..], lim, size)
    decreases |events|
  {
    if events != [] {
      var e, next := events[0], Next(c, lim, size, events[0]).value;
      assert AllNamed(Brought(events[0]));
      var ms := NextFollows(c, lim, size, e, open);
      NewsIs(c, next, lim, size, ms);
      RunFollows(next, lim, size, events[1..], Unacked(Unacked(open, Says(e)), Gots(ms)));
      UnackedMore(open, Says(e), Gots(ms));
      UnackedMore(open, Says(e) + Gots(ms), Exchanged(next, lim, size, events[1..]));
      AcceptableMore(c.wire, next.wire, Run(c, lim, size, events).value.wire, lim, size);
    }
  }

  /** Over the whole life of a connection: what is in flight is exactly, message for message, what the
      session had in flight and what the client has been sent above QoS 0, less what it has acknowledged
      since; each waits for the packet that is due next; and nothing is sent, after the first
      retransmissions, that is over the client's Maximum Packet Size. */
  lemma InFlightIsUnacked(h: SessionHandle, order: seq<u16>, lim: Limits, size: Encoder, events: seq<Event>)
    requires Sendable(h, order) && Named(events) && Lived(h, order, lim, size, events).Some?
    ensures var start, end := TakenUp(h, order), Lived(h, order, lim, size, events).value;
            var back := DeliverAll(start, lim, size, h.offlineQueue).value;
            && StandsFor(end.inflight,
                         Unacked(Restored(h.snapshot.inflight), Gots(News(start, back)) + Exchanged(back, lim, size, events)))
            && start.wire <= end.wire && Acceptable(end.wire[|start.wire|..], lim, size)
  {
    var start, open := TakenUp(h, order), Restored(h.snapshot.inflight);
    var back := DeliverAll(start, lim, size, h.offlineQueue).value;
    TakesUp(h, order, lim, size);
    var ms := DeliverAllFollows(start, lim, size, h.offlineQueue, open);
    NewsIs(start, back, lim, size, ms);
    RunFollows(back, lim, size, events, Unacked(open, Gots(ms)));
    UnackedMore(open, Gots(ms), Exchanged(back, lim, size, events));
    AcceptableMore(start.wire, back.wire, Lived(h, order, lim, size, events).value.wire, lim, size);
  }
}
