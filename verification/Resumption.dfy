/** Closing a session and opening it again: what the new connection gets is what the old one left, and
    what was delivered in between. */
module Resumption {
  import opened Types
  import opened Deliveries
  import opened Generations
  import opened ShardModel
  import Outbound

  /** What anyone but the connection of this generation may do to the session: all but opening it, and
      closing, parking or reattaching it. */
  predicate Outside(op: Op, g: nat) {
    match op
    case Open(_) => false
    case Load(_, _) => false
    case Close(h, _, _, _) => h != g
    case Park(h, _) => h != g
    case Reattach(h) => h != g
    case _ => true
  }

  /** Suspended under this generation until a deadline, with this state and queue. */
  predicate Sleeps(v: Slot, g: nat, until: Option<nat>, snapshot: SessionSnapshot, q: seq<Delivery>) {
    v.session.Some? &&
    var x := v.session.value;
    x.generation == g && !x.Online() && x.expiresAt == until && x.snapshot == Some(snapshot) && x.offlineQueue == q
  }

  /** What ends a sleeping session: another shard's claim, or a sweep past the deadline. */
  predicate Ends(op: Op, until: Option<nat>, now: nat) {
    op.Claimed? || (op.Sweep? && until.Some? && until.value <= now)
  }

  function Brought(op: Op): seq<Delivery> {
    if op.Deliver? then [op.d] else []
  }

  /** The queue after one operation. */
  function QueuedBy(q: seq<Delivery>, op: Op): seq<Delivery> {
    if op.Deliver? && op.d.qos != AtMostOnce then PushBounded(q, op.d) else q
  }

  lemma SleepGoesOn(v: Slot, c: ClientId, g: nat, h: nat, op: Op, now: nat, until: Option<nat>, snapshot: SessionSnapshot, q: seq<Delivery>)
    requires Sleeps(v, g, until, snapshot, q) && Outside(op, g)
    ensures var w := Act(v, c, h, op, now).slot;
            if Ends(op, until, now) then w.session.None? else Sleeps(w, g, until, snapshot, QueuedBy(q, op))
  {
  }

  /** A session that has ended does not come back by itself. */
  lemma EndedStays(v: Slot, c: ClientId, g: nat, h: nat, op: Op, now: nat)
    requires v.session.None? && Outside(op, g)
    ensures Act(v, c, h, op, now).slot.session.None?
  {
  }

  function DeliveredTo(events: seq<Event>, c: ClientId): seq<Delivery> {
    if events == [] then []
    else (if events[0].client == c then Brought(events[0].op) else []) + DeliveredTo(events[1..], c)
  }

  ghost predicate LeftAlone(events: seq<Event>, c: ClientId, g: nat) {
    forall k | 0 <= k < |events| :: events[k].client == c ==> Outside(events[k].op, g)
  }

  lemma {:induction false} EndedForGood(s: Shard, events: seq<Event>, c: ClientId, g: nat)
    requires c !in s.sessions && LeftAlone(events, c, g)
    ensures c !in Run(s, events).sessions
    decreases |events|
  {
    if events != [] {
      var e := events[0];
      StepIsLocal(s, e.client, e.op, e.now, c);
      if e.client == c { EndedStays(SlotOf(s, c), c, g, s.nextGeneration + 1, e.op, e.now); }
      var t := Step(s, e.client, e.op, e.now);
      assert SlotOf(t, c).session.None?;
      EndedForGood(t, events[1..], c, g);
    }
  }

  /** The first thing that happens, to the queue. */
  lemma QueueMore(q: seq<Delivery>, op: Op, more: seq<Delivery>)
    ensures Newest(QueuedBy(q, op), OfClass(more, false)) == Newest(q, OfClass(Brought(op) + more, false))
  {
    if op.Deliver? {
      var all := [op.d] + more;
      assert all[1..] == more;
      if op.d.qos != AtMostOnce {
        assert OfClass(all, false)[1..] == OfClass(more, false);
        NewestMore(q, OfClass(all, false));
      } else {
        assert OfClass(all, false) == OfClass(more, false);
      }
    } else {
      assert [] + more == more;
    }
  }

  lemma StepSleeps(s: Shard, e: Event, c: ClientId, g: nat, until: Option<nat>, snapshot: SessionSnapshot, q: seq<Delivery>)
    requires Sleeps(SlotOf(s, c), g, until, snapshot, q) && (e.client == c ==> Outside(e.op, g))
    ensures var t := Step(s, e.client, e.op, e.now);
            if e.client == c && Ends(e.op, until, e.now) then c !in t.sessions
            else Sleeps(SlotOf(t, c), g, until, snapshot, if e.client == c then QueuedBy(q, e.op) else q)
  {
    StepIsLocal(s, e.client, e.op, e.now, c);
    if e.client == c { SleepGoesOn(SlotOf(s, c), c, g, s.nextGeneration + 1, e.op, e.now, until, snapshot, q); }
    assert SlotOf(Step(s, e.client, e.op, e.now), c).session.None? <==> c !in Step(s, e.client, e.op, e.now).sessions;
  }

  lemma QueueNext(q: seq<Delivery>, events: seq<Event>, c: ClientId)
    requires events != []
    ensures Newest(if events[0].client == c then QueuedBy(q, events[0].op) else q, OfClass(DeliveredTo(events[1..], c), false))
         == Newest(q, OfClass(DeliveredTo(events, c), false))
  {
    var rest := DeliveredTo(events[1..], c);
    if events[0].client == c { QueueMore(q, events[0].op, rest); } else { assert [] + rest == rest; }
  }

  /** Nothing in the run ends the client's session, which may sleep until the deadline. */
  ghost predicate Spared(events: seq<Event>, c: ClientId, until: Option<nat>) {
    forall k | 0 <= k < |events| :: events[k].client == c ==> !Ends(events[k].op, until, events[k].now)
  }

  /** Whatever happens on the shard meanwhile, a session left alone by its connection is still there exactly
      if nothing ended it, and then has its state, and the newest of what was delivered above QoS 0. */
  lemma {:induction false} SleepsOn(s: Shard, events: seq<Event>, c: ClientId, g: nat, until: Option<nat>, snapshot: SessionSnapshot,
                                    q: seq<Delivery>)
    requires Sleeps(SlotOf(s, c), g, until, snapshot, q) && LeftAlone(events, c, g)
    ensures if Spared(events, c, until) then
              Sleeps(SlotOf(Run(s, events), c), g, until, snapshot, Newest(q, OfClass(DeliveredTo(events, c), false)))
            else c !in Run(s, events).sessions
    decreases |events|
  {
    if events == [] {
      assert q + [] == q;
    } else {
      var e, t := events[0], Step(s, events[0].client, events[0].op, events[0].now);
      StepSleeps(s, e, c, g, until, snapshot, q);
      if e.client == c && Ends(e.op, until, e.now) {
        EndedForGood(t, events[1..], c, g);
      } else {
        QueueNext(q, events, c);
        SleepsOn(t, events[1..], c, g, until, snapshot, if e.client == c then QueuedBy(q, e.op) else q);
        SparedRest(events, c, until);
      }
    }
  }

  lemma SparedRest(events: seq<Event>, c: ClientId, until: Option<nat>)
    requires events != [] && (events[0].client == c ==> !Ends(events[0].op, until, events[0].now))
    ensures Spared(events, c, until) <==> Spared(events[1..], c, until)
  {
    if Spared(events[1..], c, until) {
      forall k | 0 <= k < |events| && events[k].client == c ensures !Ends(events[k].op, until, events[k].now) {
        if k > 0 { assert events[1..][k - 1] == events[k]; }
      }
    }
  }

  lemma ClosingSleeps(s: Shard, c: ClientId, g: nat, secs: u32, snapshot: SessionSnapshot, pending: seq<Delivery>, now: nat)
    requires Current(s, c, g) && !s.sessions[c].parked && secs > 0
    ensures Sleeps(SlotOf(Step(s, c, Close(g, secs, snapshot, pending), now), c), g, Until(secs, now), snapshot,
                   pending + s.sessions[c].offlineQueue)
  {
    StepIsLocal(s, c, Close(g, secs, snapshot, pending), now, c);
  }

  /** When a session closed now with this expiry may end; the largest one is for ever. */
  function Until(secs: u32, now: nat): Option<nat> {
    if secs == 0xFFFF_FFFF then None else Some(now + secs * 1_000_000_000)
  }

  /** The round trip. A connection closes its session with a snapshot and the messages it still held;
      whatever happens then, the session is there exactly if no other shard claimed it and no sweep came
      after its expiry; and the connection that resumes it gets that very snapshot, and, in order, what was
      held, what the session had queued, and the newest of what was delivered above QoS 0. */
  lemma ResumesWhereClosed(s: Shard, c: ClientId, g: nat, secs: u32, snapshot: SessionSnapshot, pending: seq<Delivery>, now: nat,
                           between: seq<Event>)
    requires Current(s, c, g) && !s.sessions[c].parked && secs > 0 && LeftAlone(between, c, g)
    ensures var h := HandleOf(Run(Step(s, c, Close(g, secs, snapshot, pending), now), between), c, false);
            && (h.resumed <==> Spared(between, c, Until(secs, now)))
            && (h.resumed ==>
                  && h.snapshot == snapshot
                  && h.offlineQueue == Newest(pending + s.sessions[c].offlineQueue, OfClass(DeliveredTo(between, c), false)))
  {
    var t := Step(s, c, Close(g, secs, snapshot, pending), now);
    ClosingSleeps(s, c, g, secs, snapshot, pending, now);
    SleepsOn(t, between, c, g, Until(secs, now), snapshot, pending + s.sessions[c].offlineQueue);
  }

  lemma SuspendingSleeps(s: Shard, c: ClientId, g: nat, secs: u32, now: nat)
    requires Current(s, c, g) && s.sessions[c].parked && s.sessions[c].mailbox.None? && s.sessions[c].snapshot.Some? && secs > 0
    ensures Sleeps(SlotOf(Step(s, c, Suspend(g, secs), now), c), g, Until(secs, now), s.sessions[c].snapshot.value, s.sessions[c].offlineQueue)
  {
    StepIsLocal(s, c, Suspend(g, secs), now, c);
  }

  /** The same for a parked session whose socket is closed: what it held as parked, it holds suspended. */
  lemma ResumesWhereSuspended(s: Shard, c: ClientId, g: nat, secs: u32, now: nat, between: seq<Event>)
    requires Current(s, c, g) && s.sessions[c].parked && s.sessions[c].mailbox.None? && s.sessions[c].snapshot.Some?
    requires secs > 0 && LeftAlone(between, c, g)
    ensures var h := HandleOf(Run(Step(s, c, Suspend(g, secs), now), between), c, false);
            && (h.resumed <==> Spared(between, c, Until(secs, now)))
            && (h.resumed ==>
                  && h.snapshot == s.sessions[c].snapshot.value
                  && h.offlineQueue == Newest(s.sessions[c].offlineQueue, OfClass(DeliveredTo(between, c), false)))
  {
    SuspendingSleeps(s, c, g, secs, now);
    SleepsOn(Step(s, c, Suspend(g, secs), now), between, c, g, Until(secs, now), s.sessions[c].snapshot.value, s.sessions[c].offlineQueue);
  }

  /** The shard with other mail waiting for a client. */
  function WithMail(s: Shard, c: ClientId, mail: seq<Delivery>): Shard
    requires c in s.sessions
  {
    s.(sessions := s.sessions[c := s.sessions[c].(mailbox := Some(mail))])
  }

  lemma OutcomeForgetsMail(v: Slot, c: ClientId, g: nat, op: Op, now: nat, mail: seq<Delivery>, other: seq<Delivery>)
    requires v.session.Some? && (op.Open? || (op.Close? && op.g == v.session.value.generation))
    ensures var x := v.session.value;
            Act(v.(session := Some(x.(mailbox := Some(mail)))), c, g, op, now) == Act(v.(session := Some(x.(mailbox := Some(other)))), c, g, op, now)
  {
  }

  lemma SlotWithMail(s: Shard, c: ClientId, mail: seq<Delivery>)
    requires c in s.sessions
    ensures SlotOf(WithMail(s, c, mail), c) == SlotOf(s, c).(session := Some(s.sessions[c].(mailbox := Some(mail))))
  {
  }

  lemma TableForgetsMail(s: Shard, c: ClientId, mail: seq<Delivery>, other: seq<Delivery>, v: Slot)
    requires c in s.sessions
    ensures WithSlot(WithMail(s, c, mail), c, v) == WithSlot(WithMail(s, c, other), c, v)
  {
    if v.session.Some? {
      assert WithMail(s, c, mail).sessions[c := v.session.value] == WithMail(s, c, other).sessions[c := v.session.value];
    } else {
      assert WithMail(s, c, mail).sessions - {c} == WithMail(s, c, other).sessions - {c};
    }
  }

  /** What a connection has not yet taken from its mailbox when it closes or is taken over is gone: whatever
      waited there, the shard is left the same, and so is the next connection's handle. */
  lemma MailIsForgotten(s: Shard, c: ClientId, op: Op, now: nat, mail: seq<Delivery>, other: seq<Delivery>)
    requires c in s.sessions && (op.Open? || (op.Close? && op.g == s.sessions[c].generation))
    ensures Step(WithMail(s, c, mail), c, op, now) == Step(WithMail(s, c, other), c, op, now)
    ensures op.Open? ==> HandleOf(WithMail(s, c, mail), c, op.clean) == HandleOf(WithMail(s, c, other), c, op.clean)
  {
    OutcomeForgetsMail(SlotOf(s, c), c, s.nextGeneration + 1, op, now, mail, other);
    SlotWithMail(s, c, mail);
    SlotWithMail(s, c, other);
    TableForgetsMail(s, c, mail, other, Outcomes(WithMail(s, c, mail), c, op, now).slot);
  }

  /** There is nothing to resume exactly after a Clean Start, or if the session is gone; the connection
      then starts with nothing. */
  lemma StartsWithNothing(s: Shard, c: ClientId, clean: bool)
    ensures var h := HandleOf(s, c, clean);
            && (h.resumed <==> !clean && c in s.sessions)
            && (!h.resumed ==> h.snapshot.inflight == map[] && h.snapshot.incomingQos2 == map[] && h.offlineQueue == [])
  {
  }

  // --- the sending side, over two connections ------------------------------------------------------------

  lemma {:induction false} OfClassNamed(ds: seq<Delivery>, zero: bool)
    requires Outbound.AllNamed(ds)
    ensures Outbound.AllNamed(OfClass(ds, zero))
  {
    if ds != [] { OfClassNamed(ds[1..], zero); }
  }

  lemma NewestNamed(q: seq<Delivery>, ds: seq<Delivery>)
    requires Outbound.AllNamed(q) && Outbound.AllNamed(ds)
    ensures Outbound.AllNamed(Newest(q, ds))
  {
  }

  /** A connection closes with its session's expiry to come, and later another takes the session up. The
      second one first sends again, each once, the messages the first had in flight, and then counts among
      its deliveries, in order, those the first still held and the newest of those made meanwhile: none of
      them is missing but for a reason that `ClientSeesDeliveries` allows. */
  lemma ReconnectingCarriesOn(s: Shard, c: ClientId, g: nat, secs: u32, now: nat, between: seq<Event>,
                              first: Outbound.Conn, stored: map<u16, Publish>, order: seq<u16>,
                              lim: Outbound.Limits, size: Outbound.Encoder, events: seq<Outbound.Event>)
    returns (h: SessionHandle, above: Outbound.History)
    requires Current(s, c, g) && !s.sessions[c].parked && secs > 0 && LeftAlone(between, c, g)
    requires Outbound.CopiesInFull(first.inflight) && Outbound.AllNamed(first.pending)
    requires Outbound.AllNamed(s.sessions[c].offlineQueue) && Outbound.AllNamed(DeliveredTo(between, c))
    requires Spared(between, c, Until(secs, now))
    requires Outbound.Lists(order, first.inflight) && Outbound.Named(events)
    ensures var closed := Step(s, c, Close(g, secs, Outbound.ParkSnapshot(first, stored), first.pending), now);
            h == HandleOf(Run(closed, between), c, false) && Outbound.Sendable(h, order)
    ensures var wire := Outbound.TakenUp(h, order).wire;
            |wire| == |order| && forall k | 0 <= k < |order| :: Outbound.Resends(wire[k], order[k], first.inflight[order[k]])
    ensures Outbound.Lived(h, order, lim, size, events).Some? ==>
              var queued := Newest(first.pending + s.sessions[c].offlineQueue, OfClass(DeliveredTo(between, c), false));
              && Outbound.HistoryOk(Outbound.Lived(h, order, lim, size, events).value, lim, size, above, false)
              && above.arrived == OfClass(queued, false) + Outbound.Arrivals(events, false)
  {
    var snapshot := Outbound.ParkSnapshot(first, stored);
    ResumesWhereClosed(s, c, g, secs, snapshot, first.pending, now, between);
    h := HandleOf(Run(Step(s, c, Close(g, secs, snapshot, first.pending), now), between), c, false);
    OfClassNamed(DeliveredTo(between, c), false);
    NewestNamed(first.pending + s.sessions[c].offlineQueue, OfClass(DeliveredTo(between, c), false));
    forall k | 0 <= k < |order|
      ensures |Outbound.TakenUp(h, order).wire| == |order|
      ensures Outbound.Resends(Outbound.TakenUp(h, order).wire[k], order[k], first.inflight[order[k]])
    {
      Outbound.RetransmitsEach(first.inflight, order, k);
    }
    above := Outbound.History([], []);
    if Outbound.Lived(h, order, lim, size, events).Some? {
      var zero;
      above, zero := Outbound.ClientSeesDeliveries(h, order, lim, size, events);
    }
  }
}
