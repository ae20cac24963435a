/** The connection object: its handlers do what `Outbound` and `InboundQos2` specify. */
module Connection {
  import opened Types
  import opened PacketIds
  import opened Outbound
  import InboundQos2

  class Connection {
    const lim: Limits
    const size: Encoder
    var inflight: map<u16, InflightMessage>
    var pending: seq<Delivery>
    var nextPkid: u16
    var aliases: map<string, u16>
    var wire: seq<Packet>
    var stored: map<u16, Publish>
    var routed: seq<(u16, Publish)>

    ghost function Sender(): Conn
      reads this
    {
      Conn(inflight, pending, nextPkid, aliases, wire)
    }

    ghost function Receiver(): InboundQos2.Receiver
      reads this
    {
      InboundQos2.Receiver(stored, routed)
    }

    constructor (lim: Limits, size: Encoder, session: SessionSnapshot)
      ensures this.lim == lim && this.size == size
      ensures Sender() == Conn(session.inflight, [], session.nextPkid, map[], [])
      ensures Receiver() == InboundQos2.Receiver(session.incomingQos2, [])
    {
      this.lim, this.size := lim, size;
      inflight, pending, nextPkid, aliases, wire := session.inflight, [], session.nextPkid, map[], [];
      stored, routed := session.incomingQos2, [];
    }

    /** Sends now if the window has room, else holds the delivery. */
    method Deliver(d: Delivery) returns (ok: bool)
      modifies this
      ensures Receiver() == old(Receiver())
      ensures match Outbound.Deliver(old(Sender()), lim, size, d)
              case Some(next) => ok && Sender() == next
              case None => !ok
    {
      if d.qos == AtMostOnce || |inflight| < Window(lim) {
        ok := SendPublish(d);
      } else {
        if |pending| >= PENDING_OUTBOUND_LIMIT { pending := pending[1..]; }
        pending := pending + [d];
        ok := true;
      }
    }

    /** Puts the alias in place of a known topic, or registers one beside a new topic. */
    method ApplyAlias(message: Publish) returns (packet: Publish, newlyAliased: Option<string>)
      modifies this`aliases
      ensures (packet, aliases) == Aliased(old(aliases), lim.aliasMax, message)
      ensures newlyAliased.None? ==> aliases == old(aliases)
      ensures newlyAliased.Some? ==> aliases - {newlyAliased.value} == old(aliases)
    {
      packet, newlyAliased := message, None;
      if lim.aliasMax > 0 {
        if message.topic in aliases {
          packet := WithAlias(message, aliases[message.topic]).(topic := "");
        } else if |aliases| < lim.aliasMax {
          var alias := |aliases| + 1;
          aliases := aliases[message.topic := alias];
          packet := WithAlias(message, alias);
          newlyAliased := Some(message.topic);
        }
      }
    }

    /** A fresh packet id above QoS 0, where the cursor advances to it. */
    method NextPkid(qos: QoS) returns (pkid: u16)
      requires qos == AtMostOnce || |inflight| < 65535
      modifies this`nextPkid
      ensures pkid == if qos == AtMostOnce then 0 else FirstFree(inflight.Keys, old(nextPkid))
      ensures nextPkid == if qos == AtMostOnce then old(nextPkid) else pkid
    {
      pkid := 0;
      if qos != AtMostOnce {
        pkid := AllocPkid(inflight.Keys, nextPkid);
        nextPkid := pkid;
      }
    }

    /** Encodes one delivery. A packet the client cannot take is rolled back and dropped. */
    method SendPublish(d: Delivery) returns (ok: bool)
      requires d.qos == AtMostOnce || |inflight| < 65535
      modifies this
      ensures Receiver() == old(Receiver())
      ensures match Attempt(old(Sender()), lim, size, d)
              case Some(next) => ok && Sender() == next
              case None => !ok
    {
      ghost var was := aliases;
      var pkid := NextPkid(d.qos);
      var message := Stamped(d, pkid);
      var packet, newlyAliased := ApplyAlias(message);
      ok := Commit(d.qos, pkid, message, packet, newlyAliased, was);
    }

    /** The packet goes out, or the alias registered for it is taken back. */
    method Commit(qos: QoS, pkid: u16, message: Publish, packet: Publish, newlyAliased: Option<string>, ghost was: map<string, u16>)
      returns (ok: bool)
      requires (if newlyAliased.Some? then aliases - {newlyAliased.value} else aliases) == was
      modifies this
      ensures Receiver() == old(Receiver())
      ensures match Settle(old(Sender()).(aliases := was), lim, qos, pkid, message, packet, old(aliases), size(packet))
              case Some(next) => ok && Sender() == next
              case None => !ok
    {
      var n := size(packet);
      if n.None? || TooBig(lim, n.value) {
        if newlyAliased.Some? { aliases := aliases - {newlyAliased.value}; }
        ok := n.Some?;
      } else {
        wire := wire + [Pub(packet)];
        if qos != AtMostOnce { inflight := inflight[pkid := InflightMessage(message, InitialState(qos))]; }
        ok := true;
      }
    }

    /** Releases held messages while the window has room. */
    method DrainPending() returns (ok: bool)
      modifies this
      ensures Receiver() == old(Receiver())
      ensures match Drain(old(Sender()), lim, size)
              case Some(next) => ok && Sender() == next
              case None => !ok
    {
      ghost var goal := Drain(Sender(), lim, size);
      while |inflight| < Window(lim) && pending != []
        invariant Receiver() == old(Receiver())
        invariant Drain(Sender(), lim, size) == goal
        decreases |pending|
      {
        var d := pending[0];
        pending := pending[1..];
        ghost var popped := Sender();
        ok := SendPublish(d);
        if !ok { return; }
        AttemptKeepsPending(popped, lim, size, d);
      }
      ok := true;
    }

    /** PUBACK or PUBCOMP. */
    method HandleAck(pkid: u16) returns (ok: bool)
      modifies this
      ensures Receiver() == old(Receiver())
      ensures match Ack(old(Sender()), lim, size, pkid)
              case Some(next) => ok && Sender() == next
              case None => !ok
    {
      ok := true;
      if pkid in inflight {
        inflight := inflight - {pkid};
        ok := DrainPending();
      }
    }

    method HandlePubrec(pkid: u16)
      modifies this
      ensures Receiver() == old(Receiver())
      ensures Sender() == Rec(old(Sender()), pkid)
    {
      if pkid in inflight && inflight[pkid].state == Qos2Pending {
        inflight := inflight[pkid := inflight[pkid].(state := Qos2Released)];
      }
      wire := wire + [Rel(pkid)];
    }

    /** A QoS 2 PUBLISH; past the quota the connection closes. */
    method HandlePublish(pkid: u16, p: Publish) returns (ok: bool)
      modifies this
      ensures Sender() == old(Sender())
      ensures ok == (pkid in old(stored) || |old(stored)| < lim.maxInflight)
      ensures Receiver() == InboundQos2.Next(old(Receiver()), lim.maxInflight, InboundQos2.Arrives(pkid, p))
    {
      if pkid !in stored && |stored| >= lim.maxInflight { return false; }
      stored := stored[pkid := p.(pkid := 0, dup := false)];
      ok := true;
    }

    method HandlePubrel(pkid: u16)
      modifies this
      ensures Sender() == old(Sender())
      ensures Receiver() == InboundQos2.Next(old(Receiver()), lim.maxInflight, InboundQos2.Releases(pkid))
    {
      if pkid in stored {
        routed := routed + [(pkid, stored[pkid])];
        stored := stored - {pkid};
      }
    }

    /** Sends everything in flight again, each message once, in the order the map gives. */
    method Retransmit() returns (ghost order: seq<u16>)
      modifies this`wire
      ensures Lists(order, inflight)
      ensures wire == old(wire) + Retransmitted(inflight, order)
    {
      order := [];
      var left := inflight.Keys;
      while left != {}
        invariant ListsRest(order, left, inflight) && wire == old(wire) + Retransmitted(inflight, order)
        decreases |left|
      {
        var id :| id in left;
        ListsMore(order, left, inflight, id);
        RetransmittedMore(inflight, order, id);
        left := left - {id};
        wire := wire + [Again(id, inflight[id])];
        order := order + [id];
      }
    }

    /** Then delivers what was queued meanwhile, in order. */
    method ResumeDelivery(offline: seq<Delivery>) returns (ok: bool, ghost order: seq<u16>)
      modifies this
      ensures Receiver() == old(Receiver())
      ensures Lists(order, old(inflight))
      ensures match DeliverAll(old(Sender()).(wire := old(wire) + Retransmitted(old(inflight), order)), lim, size, offline)
              case Some(next) => ok && Sender() == next
              case None => !ok
    {
      order := Retransmit();
      ghost var start := Sender();
      ghost var goal := DeliverAll(start, lim, size, offline);
      for i := 0 to |offline|
        invariant Receiver() == old(Receiver())
        invariant DeliverAll(Sender(), lim, size, offline[i..]) == goal
      {
        assert offline[i..][1..] == offline[i + 1..];
        ok := Deliver(offline[i]);
        if !ok { return; }
      }
      ok := true;
    }

    /** Nothing in flight, held or half received. */
    method CanPark() returns (ready: bool)
      ensures ready == ParkReady(Sender(), stored)
    {
      ready := inflight == map[] && pending == [] && stored == map[];
    }

    /** Taken apart for the parking registry. */
    method TakeApart() returns (back: ResumeState)
      ensures back == IntoParts(Sender(), lim)
    {
      back := ResumeState(nextPkid, aliases, lim);
    }

    /** Put together again around the same stream, before its session is known. */
    constructor Resume(back: ResumeState, size: Encoder, wire: seq<Packet>)
      ensures lim == back.lim && this.size == size
      ensures Sender() == Conn(map[], [], back.nextPkid, back.aliases, wire)
      ensures Receiver() == InboundQos2.Receiver(map[], [])
    {
      lim, this.size := back.lim, size;
      inflight, pending, nextPkid, aliases, this.wire := map[], [], back.nextPkid, back.aliases, wire;
      stored, routed := map[], [];
    }

    /** Takes up the session's snapshot and delivers what was queued. A connection that parked with
        nothing in flight does exactly what a spell in the registry should. */
    method Reattach(snapshot: SessionSnapshot, queued: seq<Delivery>) returns (ok: bool, ghost order: seq<u16>)
      requires pending == []
      modifies this
      ensures Receiver() == old(Receiver()).(stored := snapshot.incomingQos2) && Lists(order, snapshot.inflight)
      ensures match DeliverAll(Conn(snapshot.inflight, [], snapshot.nextPkid, old(aliases),
                                    old(wire) + Retransmitted(snapshot.inflight, order)), lim, size, queued)
              case Some(next) => ok && Sender() == next
              case None => !ok
    {
      inflight, stored, nextPkid := snapshot.inflight, snapshot.incomingQos2, snapshot.nextPkid;
      ok, order := ResumeDelivery(queued);
    }
  }

  /** A new connection takes up its session, as the handle has it. */
  method TakeUp(h: SessionHandle, lim: Limits, size: Encoder) returns (c: Connection, ok: bool, ghost order: seq<u16>)
    ensures fresh(c) && c.lim == lim && c.size == size && Lists(order, h.snapshot.inflight)
    ensures c.Receiver() == InboundQos2.Receiver(h.snapshot.incomingQos2, [])
    ensures match Lived(h, order, lim, size, [])
            case Some(next) => ok && c.Sender() == next
            case None => !ok
  {
    c := new Connection(lim, size, h.snapshot);
    ok, order := c.ResumeDelivery(h.offlineQueue);
    assert [] + Retransmitted(h.snapshot.inflight, order) == Retransmitted(h.snapshot.inflight, order);
  }

  /** The registry and back, in the code: the connection that returns is the one `Spell` describes. */
  method Spelled(c: Connection, snapshot: SessionSnapshot, queued: seq<Delivery>) returns (d: Connection, ok: bool)
    requires ParkReady(c.Sender(), c.stored) && snapshot == ParkSnapshot(c.Sender(), c.stored)
    ensures fresh(d) && d.lim == c.lim && d.size == c.size && d.stored == map[]
    ensures match Spell(c.Sender(), c.lim, c.size, c.stored, queued)
            case Some(next) => ok && d.Sender() == next
            case None => !ok
  {
    var back := c.TakeApart();
    d := new Connection.Resume(back, c.size, c.wire);
    ghost var order;
    ok, order := d.Reattach(snapshot, queued);
    assert c.wire + Retransmitted(snapshot.inflight, []) == c.wire;
  }

  /** Each in-flight id is listed once or still to come. */
  ghost predicate ListsRest(order: seq<u16>, left: set<u16>, inflight: map<u16, InflightMessage>) {
    && left <= inflight.Keys && |order| + |left| == |inflight|
    && (forall k | 0 <= k < |order| :: order[k] in inflight && order[k] !in left)
    && (forall id | id in inflight :: id in left || id in order)
    && (forall i, j | 0 <= i < j < |order| :: order[i] != order[j])
  }

  lemma ListsMore(order: seq<u16>, left: set<u16>, inflight: map<u16, InflightMessage>, id: u16)
    requires ListsRest(order, left, inflight) && id in left
    ensures ListsRest(order + [id], left - {id}, inflight)
  {
    assert (order + [id])[|order|] == id;
    forall x | x in inflight ensures x in left - {id} || x in order + [id] {}
  }

  lemma RetransmittedMore(inflight: map<u16, InflightMessage>, order: seq<u16>, id: u16)
    requires id in inflight && forall k | 0 <= k < |order| :: order[k] in inflight
    ensures Retransmitted(inflight, order + [id]) == Retransmitted(inflight, order) + [Again(id, inflight[id])]
  {
    assert (order + [id])[..|order|] == order;
  }
}
