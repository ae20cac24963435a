/** A connection in the parking registry, from both sides: what the shard keeps for it, and what it
    makes of that when it comes back. */
module ParkedSpell {
  import opened Types
  import opened Deliveries
  import opened ShardModel
  import Generations
  import Outbound

  /** A session with a task keeps nothing for later. */
  predicate Settled(v: Slot) {
    v.session.Some? && v.session.value.mailbox.Some? ==>
      var x := v.session.value;
      x.snapshot.None? && x.offlineQueue == [] && !x.parked && !x.wakePending
  }

  /** Every operation keeps this. */
  lemma SettledStays(v: Slot, c: ClientId, g: nat, op: Op, now: nat)
    requires Settled(v)
    ensures Settled(Act(v, c, g, op, now).slot)
  {
  }

  /** So it holds of every client in every state of every run from a shard where it does, an empty one
      for example. */
  lemma {:induction false} SettledAlways(s: Shard, events: seq<Generations.Event>, c: ClientId)
    requires forall d :: Settled(SlotOf(s, d))
    ensures Settled(SlotOf(Generations.Run(s, events), c))
    decreases |events|
  {
    if events != [] {
      var e := events[0];
      var t := Step(s, e.client, e.op, e.now);
      forall d ensures Settled(SlotOf(t, d)) {
        StepIsLocal(s, e.client, e.op, e.now, d);
        if d == e.client { SettledStays(SlotOf(s, d), d, s.nextGeneration + 1, e.op, e.now); }
      }
      SettledAlways(t, events[1..], c);
    }
  }

  /** The session's side: it hands back the snapshot it was given and the newest deliveries made
      meanwhile, and is left as if it had never parked. */
  lemma SessionKeeps(v: Slot, client: ClientId, g: nat, snapshot: SessionSnapshot, ds: seq<Delivery>) returns (asleep: Slot)
    requires Settled(v) && Holds(v, g) && v.session.value.mailbox == Some([])
    ensures asleep == Gathered(ActPark(v, g, snapshot).slot, client, ds)
    ensures Holds(asleep, g) && asleep.session.value.parked
    ensures asleep.session.value.Durable() == snapshot && asleep.session.value.offlineQueue == Newest([], ds)
    ensures ActReattach(asleep, g).slot == v.(session := Some(v.session.value.(expiresAt := None)))
  {
    asleep := Gathered(ActPark(v, g, snapshot).slot, client, ds);
    ParkedGathers(ActPark(v, g, snapshot).slot, client, ds);
  }

  /** A spell in the registry, from the loop's decision to park until the connection is back: it does
      exactly what it would have done had the newest deliveries reached it directly. */
  lemma SpellIsInvisible(v: Slot, client: ClientId, g: nat, c: Outbound.Conn, incoming: map<u16, Publish>, ds: seq<Delivery>,
                         lim: Outbound.Limits, size: Outbound.Encoder)
    requires Settled(v) && Holds(v, g) && v.session.value.mailbox == Some([]) && Outbound.ParkReady(c, incoming)
    ensures var asleep := Gathered(ActPark(v, g, Outbound.ParkSnapshot(c, incoming)).slot, client, ds);
            && asleep.session.Some?
            && Outbound.DeliverAll(Outbound.Rebuilt(Outbound.IntoParts(c, lim), asleep.session.value.Durable(), c.wire), lim, size,
                                   asleep.session.value.offlineQueue)
            == Outbound.Next(c, lim, size, Outbound.Parked(incoming, Newest([], ds)))
            == Outbound.DeliverAll(c, lim, size, Newest([], ds))
  {
    var asleep := SessionKeeps(v, client, g, Outbound.ParkSnapshot(c, incoming), ds);
    Outbound.ComesBackSame(c, lim, size, incoming, Newest([], ds));
  }
}
