/** Delayed will messages: armed on a suspended session, published by a sweep, once. */
module Wills {
  import opened Types
  import opened Generations
  import opened Resumption
  import opened ShardModel

  /** A will whose time has come; and one that an ending session still owes. */
  function DueWill(x: Session, now: nat): seq<Publish> {
    if x.pendingWill.Some? && x.pendingWill.value.1 <= now then [x.pendingWill.value.0] else []
  }

  function OwedWill(x: Session): seq<Publish> {
    if x.pendingWill.Some? then [x.pendingWill.value.0] else []
  }

  /** What a sweep publishes for one client: first the wills due, then those the ended sessions owe. */
  function SweepPublishes(v: Slot, now: nat): seq<Publish> {
    if v.session.None? then []
    else DueWill(v.session.value, now) + if Expired(v.session.value, now) then OwedWill(WillFired(v.session.value, now)) else []
  }

  function Published(s: Shard, c: ClientId, e: Event): seq<Publish> {
    if e.client == c && e.op.Sweep? then SweepPublishes(SlotOf(s, c), e.now) else []
  }

  /** The wills published for a client over a run. */
  ghost function AllPublished(s: Shard, c: ClientId, events: seq<Event>): seq<Publish>
    decreases |events|
  {
    if events == [] then []
    else Published(s, c, events[0]) + AllPublished(Step(s, events[0].client, events[0].op, events[0].now), c, events[1..])
  }

  /** Suspended until a deadline with a will to be published at some time. */
  predicate Owes(v: Slot, g: nat, until: Option<nat>, will: Publish, at: nat) {
    v.session.Some? &&
    var x := v.session.value;
    x.generation == g && !x.Online() && x.expiresAt == until && x.pendingWill == Some((will, at))
  }

  /** Gone, or suspended without a will. */
  predicate OwesNothing(v: Slot, g: nat) {
    v.session.Some? ==>
      var x := v.session.value;
      x.generation == g && !x.Online() && x.pendingWill.None?
  }

  /** The client stays away: its connection has closed, arms no other will, and no other shard claims the
      session for a new one. */
  predicate Away(op: Op, g: nat) {
    Outside(op, g) && !op.Claimed? && (op.ArmWill? ==> op.g != g)
  }

  ghost predicate StaysAway(events: seq<Event>, c: ClientId, g: nat) {
    forall k | 0 <= k < |events| :: events[k].client == c ==> Away(events[k].op, g)
  }

  /** A sweep that finds the will due, or the session at its end. */
  predicate Fires(e: Event, c: ClientId, until: Option<nat>, at: nat) {
    e.client == c && e.op.Sweep? && (at <= e.now || (until.Some? && until.value <= e.now))
  }

  lemma OwingGoesOn(v: Slot, c: ClientId, g: nat, h: nat, op: Op, now: nat, until: Option<nat>, will: Publish, at: nat)
    requires Owes(v, g, until, will, at) && Away(op, g)
    ensures var fires := Fires(Event(c, op, now), c, until, at);
            && (op.Sweep? ==> SweepPublishes(v, now) == if fires then [will] else [])
            && var w := Act(v, c, h, op, now).slot; if fires then OwesNothing(w, g) else Owes(w, g, until, will, at)
  {
  }

  lemma NothingOwedStays(v: Slot, c: ClientId, g: nat, h: nat, op: Op, now: nat)
    requires OwesNothing(v, g) && Away(op, g)
    ensures OwesNothing(Act(v, c, h, op, now).slot, g) && SweepPublishes(v, now) == []
  {
  }

  lemma {:induction false} NothingMore(s: Shard, c: ClientId, events: seq<Event>, g: nat)
    requires OwesNothing(SlotOf(s, c), g) && StaysAway(events, c, g)
    ensures AllPublished(s, c, events) == []
    decreases |events|
  {
    if events != [] {
      var e := events[0];
      StepIsLocal(s, e.client, e.op, e.now, c);
      if e.client == c { NothingOwedStays(SlotOf(s, c), c, g, s.nextGeneration + 1, e.op, e.now); }
      NothingMore(Step(s, e.client, e.op, e.now), c, events[1..], g);
    }
  }

  lemma {:induction false} PublishedOnce(s: Shard, c: ClientId, events: seq<Event>, g: nat, until: Option<nat>, will: Publish, at: nat)
    requires Owes(SlotOf(s, c), g, until, will, at) && StaysAway(events, c, g)
    ensures AllPublished(s, c, events) == if exists k :: 0 <= k < |events| && Fires(events[k], c, until, at) then [will] else []
    decreases |events|
  {
    if events != [] {
      var e, t := events[0], Step(s, events[0].client, events[0].op, events[0].now);
      StepIsLocal(s, e.client, e.op, e.now, c);
      if e.client == c { OwingGoesOn(SlotOf(s, c), c, g, s.nextGeneration + 1, e.op, e.now, until, will, at); }
      if Fires(e, c, until, at) {
        NothingMore(t, c, events[1..], g);
      } else {
        PublishedOnce(t, c, events[1..], g, until, will, at);
        FiresLater(events, c, until, at);
      }
    }
  }

  lemma FiresLater(events: seq<Event>, c: ClientId, until: Option<nat>, at: nat)
    requires events != [] && !Fires(events[0], c, until, at)
    ensures (exists k :: 0 <= k < |events| && Fires(events[k], c, until, at))
       <==> exists k :: 0 <= k < |events[1..]| && Fires(events[1..][k], c, until, at)
  {
    if k :| 0 <= k < |events| && Fires(events[k], c, until, at) { assert events[1..][k - 1] == events[k]; }
  }

  lemma ArmingOwes(s: Shard, c: ClientId, g: nat, until: Option<nat>, will: Publish, delay: u32, armed: nat) returns (t: Shard)
    requires c in s.sessions && s.sessions[c].generation == g && !s.sessions[c].Online() && s.sessions[c].expiresAt == until
    ensures t == Step(s, c, ArmWill(g, will, delay), armed) && Owes(SlotOf(t, c), g, until, will, armed + delay * 1_000_000_000)
  {
    t := Step(s, c, ArmWill(g, will, delay), armed);
    StepIsLocal(s, c, ArmWill(g, will, delay), armed, c);
  }

  /** A connection closes and arms its will with a delay. As long as the client stays away, the will is
      published exactly once, if and only if some sweep comes after the delay or after the session's expiry,
      and not at all before. */
  lemma WillIsPublishedOnce(s: Shard, c: ClientId, g: nat, secs: u32, snapshot: SessionSnapshot, pending: seq<Delivery>, now: nat,
                            will: Publish, delay: u32, armed: nat, events: seq<Event>)
    requires Current(s, c, g) && !s.sessions[c].parked && secs > 0 && StaysAway(events, c, g)
    ensures var t := Step(Step(s, c, Close(g, secs, snapshot, pending), now), c, ArmWill(g, will, delay), armed);
            var fires := exists k :: 0 <= k < |events| && Fires(events[k], c, Until(secs, now), armed + delay * 1_000_000_000);
            AllPublished(t, c, events) == if fires then [will] else []
  {
    var closed := Step(s, c, Close(g, secs, snapshot, pending), now);
    ClosingSleeps(s, c, g, secs, snapshot, pending, now);
    var t := ArmingOwes(closed, c, g, Until(secs, now), will, delay, armed);
    PublishedOnce(t, c, events, g, Until(secs, now), will, armed + delay * 1_000_000_000);
  }

  /** A client that comes back cancels its will. */
  lemma ReturningCancelsWill(v: Slot, c: ClientId, g: nat, clean: bool)
    ensures ActOpen(v, c, g, clean).slot.session.Some? && ActOpen(v, c, g, clean).slot.session.value.pendingWill.None?
  {
  }
}
