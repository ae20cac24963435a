/** The receiving side of QoS 2: a message is stored until its PUBREL, and only then routed. */
module InboundQos2 {
  import opened Types
  import opened ShardModel
  import Generations
  import opened Resumption

  /** The stored messages, and what has been routed under which packet id. */
  datatype Receiver = Receiver(stored: map<u16, Publish>, routed: seq<(u16, Publish)>)

  datatype Event = Arrives(pkid: u16, p: Publish) | Releases(pkid: u16)

  /** A new packet id past the quota ends the connection. */
  predicate OverQuota(r: Receiver, max: nat, pkid: u16) {
    pkid !in r.stored && |r.stored| >= max
  }

  /** A PUBLISH as it is stored: the publisher's packet id and DUP flag do not travel. */
  function Normalised(p: Publish): Publish {
    p.(pkid := 0, dup := false)
  }

  /** One packet; a PUBLISH over the quota changes nothing, and the connection closes. */
  function Next(r: Receiver, max: nat, e: Event): Receiver {
    match e
    case Arrives(pkid, p) => if OverQuota(r, max, pkid) then r else r.(stored := r.stored[pkid := Normalised(p)])
    case Releases(pkid) =>
      if pkid in r.stored then Receiver(r.stored - {pkid}, r.routed + [(pkid, r.stored[pkid])]) else r
  }

  /** Any trace, over any number of connections: the stored messages are the session's, so a
      reconnection in between changes nothing here (see `ReconnectionsAreInvisible`). */
  function Run(r: Receiver, max: nat, events: seq<Event>): Receiver
    decreases |events|
  {
    if events == [] then r else Run(Next(r, max, events[0]), max, events[1..])
  }

  function Routed(routed: seq<(u16, Publish)>, pkid: u16): nat {
    if routed == [] then 0
    else Routed(routed[..|routed| - 1], pkid) + (if routed[|routed| - 1].0 == pkid then 1 else 0)
  }

  function Waiting(r: Receiver, pkid: u16): nat {
    if pkid in r.stored then 1 else 0
  }

  /** The accepted PUBLISHes of this packet id that arrived while it was not stored: the messages the
      publisher meant, as opposed to repeats. */
  function Meant(r: Receiver, max: nat, events: seq<Event>, pkid: u16): nat
    decreases |events|
  {
    if events == [] then 0
    else
      var e := events[0];
      (if e.Arrives? && e.pkid == pkid && pkid !in r.stored && |r.stored| < max then 1 else 0)
      + Meant(Next(r, max, e), max, events[1..], pkid)
  }

  lemma NextCounts(r: Receiver, max: nat, e: Event, pkid: u16)
    ensures Routed(Next(r, max, e).routed, pkid) + Waiting(Next(r, max, e), pkid)
         == Routed(r.routed, pkid) + Waiting(r, pkid)
            + (if e.Arrives? && e.pkid == pkid && pkid !in r.stored && |r.stored| < max then 1 else 0)
    ensures |r.stored| <= max ==> |Next(r, max, e).stored| <= max
  {
    if e.Releases? && e.pkid in r.stored {
      var next := Next(r, max, e);
      assert next.routed[..|r.routed|] == r.routed;
      assert next.stored.Keys == r.stored.Keys - {e.pkid};
    }
    if e.Arrives? && e.pkid in r.stored { assert Next(r, max, e).stored.Keys == r.stored.Keys; }
  }

  /** Exactly once: over any trace of repeated PUBLISHes and PUBRELs, the times a packet id was routed,
      plus one if it is still stored, grow by exactly the messages the publisher meant; and no more
      than the quota is ever stored. */
  lemma {:induction false} ExactlyOnce(r: Receiver, max: nat, events: seq<Event>, pkid: u16)
    ensures Routed(Run(r, max, events).routed, pkid) + Waiting(Run(r, max, events), pkid)
         == Routed(r.routed, pkid) + Waiting(r, pkid) + Meant(r, max, events, pkid)
    ensures |r.stored| <= max ==> |Run(r, max, events).stored| <= max
    decreases |events|
  {
    if events != [] {
      NextCounts(r, max, events[0], pkid);
      ExactlyOnce(Next(r, max, events[0]), max, events[1..], pkid);
    }
  }

  // --- which message is routed ------------------------------------------------------------------

  /** The message the publisher sent: all of it, but for the packet id and the DUP flag. */
  predicate Conveys(m: Publish, p: Publish) {
    && m.topic == p.topic && m.payload == p.payload && m.qos == p.qos && m.retain == p.retain && m.properties == p.properties
    && m.pkid == 0 && !m.dup
  }

  /** Of the first `n` events, the last about this packet id is the arrival of the message. */
  ghost predicate LastArrival(events: seq<Event>, n: nat, pkid: u16, m: Publish)
    requires n <= |events|
  {
    exists i :: 0 <= i < n && IsLast(events, n, pkid, i) && Conveys(m, events[i].p)
  }

  predicate IsLast(events: seq<Event>, n: nat, pkid: u16, i: nat)
    requires i < n <= |events|
  {
    events[i].Arrives? && events[i].pkid == pkid && forall k | i < k < n :: events[k].pkid != pkid
  }

  lemma LastStays(events: seq<Event>, more: seq<Event>, n: nat, m: nat, pkid: u16, p: Publish)
    requires n <= |events| && events <= more && n <= m <= |more| && LastArrival(events, n, pkid, p)
    requires forall k | n <= k < m :: more[k].pkid != pkid
    ensures LastArrival(more, m, pkid, p)
  {
    var i :| 0 <= i < n && IsLast(events, n, pkid, i) && Conveys(p, events[i].p);
    assert IsLast(more, m, pkid, i);
  }

  /** What is stored is what arrived last under its packet id; the messages routed are, in order, what had
      arrived last when the PUBRELs at `at` came. */
  ghost predicate Genuine(r: Receiver, events: seq<Event>, at: seq<nat>) {
    && (forall k | k in r.stored :: LastArrival(events, |events|, k, r.stored[k]))
    && |at| == |r.routed|
    && (forall i, j | 0 <= i < j < |at| :: at[i] < at[j])
    && (forall i | 0 <= i < |at| :: at[i] < |events| && RoutedAt(r.routed[i], events, at[i]))
  }

  ghost predicate RoutedAt(routed: (u16, Publish), events: seq<Event>, n: nat)
    requires n < |events|
  {
    events[n] == Releases(routed.0) && LastArrival(events, n, routed.0, routed.1)
  }

  lemma StoredGenuine(r: Receiver, max: nat, events: seq<Event>, at: seq<nat>, e: Event, k: u16)
    requires Genuine(r, events, at) && k in Next(r, max, e).stored
    ensures LastArrival(events + [e], |events| + 1, k, Next(r, max, e).stored[k])
  {
    var next, more := Next(r, max, e), events + [e];
    if e.pkid == k {
      assert more[|events|] == e && IsLast(more, |more|, k, |events|);
    } else {
      LastStays(events, more, |events|, |more|, k, next.stored[k]);
    }
  }

  lemma RoutedGenuine(r: Receiver, max: nat, events: seq<Event>, at: seq<nat>, e: Event) returns (later: seq<nat>)
    requires Genuine(r, events, at)
    ensures var next, more := Next(r, max, e), events + [e];
            && |later| == |next.routed| && (forall i, j | 0 <= i < j < |later| :: later[i] < later[j])
            && (forall i | 0 <= i < |later| :: later[i] < |more| && RoutedAt(next.routed[i], more, later[i]))
  {
    var next, more := Next(r, max, e), events + [e];
    later := if e.Releases? && e.pkid in r.stored then at + [|events|] else at;
    forall i | 0 <= i < |later| ensures later[i] < |more| && RoutedAt(next.routed[i], more, later[i]) {
      if i < |at| {
        assert RoutedAt(r.routed[i], events, at[i]) && next.routed[i] == r.routed[i] && more[at[i]] == events[at[i]];
        LastStays(events, more, at[i], at[i], r.routed[i].0, r.routed[i].1);
      } else {
        LastStays(events, more, |events|, |events|, e.pkid, r.stored[e.pkid]);
      }
    }
  }

  /** Nothing is routed that was not published, and it is routed as published: each message routed is the
      one that arrived last under its packet id before the PUBREL that routed it. */
  lemma {:induction false} RoutesOnlyPublished(r: Receiver, max: nat, before: seq<Event>, at: seq<nat>, events: seq<Event>)
    returns (later: seq<nat>)
    requires Genuine(r, before, at)
    ensures Genuine(Run(r, max, events), before + events, later)
    decreases |events|
  {
    if events == [] {
      later := at;
      assert before + [] == before;
    } else {
      var e := events[0];
      var mid := RoutedGenuine(r, max, before, at, e);
      forall k | k in Next(r, max, e).stored ensures LastArrival(before + [e], |before + [e]|, k, Next(r, max, e).stored[k]) {
        StoredGenuine(r, max, before, at, e, k);
      }
      later := RoutesOnlyPublished(Next(r, max, e), max, before + [e], mid, events[1..]);
      assert before + [e] + events[1..] == before + events;
    }
  }

  // --- across connections ---------------------------------------------------------------------

  /** A session without a task, suspended or parked, that holds `incoming`. */
  predicate KeepsStored(v: Slot, incoming: map<u16, Publish>) {
    v.session.Some? && v.session.value.mailbox.None? && v.session.value.Durable().incomingQos2 == incoming
  }

  /** A session whose connection runs, and has everything. */
  predicate KeepsNothing(v: Slot) {
    v.session.Some? && !v.session.value.parked && v.session.value.snapshot.None?
  }

  /** Nothing a bystander does to the session loses what it holds, or gives it what its connection has,
      short of ending it. */
  lemma BystandersLoseNothing(v: Slot, c: ClientId, g: nat, op: Op, now: nat, incoming: map<u16, Publish>)
    requires v.session.Some? && Outside(op, v.session.value.generation) && Act(v, c, g, op, now).slot.session.Some?
    ensures KeepsStored(v, incoming) ==> KeepsStored(Act(v, c, g, op, now).slot, incoming)
    ensures KeepsNothing(v) ==> KeepsNothing(Act(v, c, g, op, now).slot)
  {
  }

  /** A client's session through many connections: `receiver` is the running connection's, emptied into
      the slot when it closes or parks. */
  datatype Life = Life(receiver: Receiver, slot: Slot, live: bool)

  datatype Turn =
    | Take(e: Event)
    | Leave(secs: u32, inflight: map<u16, InflightMessage>, nextPkid: u16, pending: seq<Delivery>, now: nat)
    | Rest(nextPkid: u16)
    | Wake
    | Idle(op: Op, now: nat)
    | Return(g: nat)

  /** The session goes on: a running connection takes packets, closes with a session expiry, or parks
      when it has nothing stored; a parked one wakes; anyone else may deliver, subscribe, sweep, shed and
      so on at any time, as long as that does not end the session; and a new connection resumes it, also
      over a running or parked one. The connection so displaced finds its generation gone and leaves
      nothing behind. */
  ghost predicate Lives(l: Life, c: ClientId, t: Turn) {
    && l.slot.session.Some?
    && match t
       case Take(_) => l.live
       case Leave(secs, _, _, _, _) => l.live && secs > 0
       case Rest(_) => l.live && l.receiver.stored == map[] && l.slot.session.value.mailbox.Some?
       case Wake => !l.live && l.slot.session.value.parked
       case Idle(op, now) => Outside(op, l.slot.session.value.generation) && Act(l.slot, c, 0, op, now).slot.session.Some?
       case Return(_) => true
  }

  /** The turn is not a takeover that finds messages stored with the running connection. */
  predicate Quiet(l: Life, t: Turn) {
    t.Return? && l.live ==> l.receiver.stored == map[]
  }

  ghost function Turned(l: Life, c: ClientId, max: nat, t: Turn): Life
    requires Lives(l, c, t)
  {
    var x := l.slot.session.value;
    match t
    case Take(e) => l.(receiver := Next(l.receiver, max, e))
    case Leave(secs, inflight, nextPkid, pending, now) =>
      var snapshot := SessionSnapshot(inflight, l.receiver.stored, nextPkid);
      Life(l.receiver.(stored := map[]), ActClose(l.slot, c, x.generation, secs, snapshot, pending, now).slot, false)
    case Rest(nextPkid) =>
      var snapshot := SessionSnapshot(map[], l.receiver.stored, nextPkid);
      Life(l.receiver.(stored := map[]), ActPark(l.slot, x.generation, snapshot).slot, false)
    case Wake => Life(l.receiver.(stored := x.Durable().incomingQos2), ActReattach(l.slot, x.generation).slot, true)
    case Idle(op, now) => l.(slot := Act(l.slot, c, 0, op, now).slot)
    case Return(g) =>
      var h := Generations.HandleFor(l.slot, g, false);
      Life(l.receiver.(stored := h.snapshot.incomingQos2), ActOpen(l.slot, c, g, false).slot, true)
  }

  ghost predicate IsLife(l: Life, c: ClientId, max: nat, turns: seq<Turn>)
    decreases |turns|
  {
    turns == [] || (Lives(l, c, turns[0]) && IsLife(Turned(l, c, max, turns[0]), c, max, turns[1..]))
  }

  ghost function After(l: Life, c: ClientId, max: nat, turns: seq<Turn>): Life
    requires IsLife(l, c, max, turns)
    decreases |turns|
  {
    if turns == [] then l else After(Turned(l, c, max, turns[0]), c, max, turns[1..])
  }

  function Packets(turns: seq<Turn>): seq<Event> {
    if turns == [] then []
    else (if turns[0].Take? then [turns[0].e] else []) + Packets(turns[1..])
  }

  /** The connection or the session without one holds exactly this. While a connection runs, the session
      has nothing of it. */
  predicate Is(l: Life, r: Receiver) {
    if l.live then l.receiver == r && KeepsNothing(l.slot)
    else l.receiver.routed == r.routed && KeepsStored(l.slot, r.stored)
  }

  /** A turn makes of the receiver what its packet makes of it, exactly if it is a quiet one. */
  lemma TurnIs(l: Life, c: ClientId, max: nat, t: Turn, r: Receiver)
    requires Is(l, r) && Lives(l, c, t)
    ensures Is(Turned(l, c, max, t), if t.Take? then Next(r, max, t.e) else r) <==> Quiet(l, t)
  {
    if t.Idle? { BystandersLoseNothing(l.slot, c, 0, t.op, t.now, r.stored); }
  }

  ghost predicate QuietLife(l: Life, c: ClientId, max: nat, turns: seq<Turn>)
    requires IsLife(l, c, max, turns)
    decreases |turns|
  {
    turns == [] || (Quiet(l, turns[0]) && QuietLife(Turned(l, c, max, turns[0]), c, max, turns[1..]))
  }

  /** Suspending, resuming, parking, waking, whatever the shard does meanwhile, and taking over with
      nothing stored are invisible: through any number of them, the receiver is what the bare packet trace
      makes it, so `ExactlyOnce` speaks of the whole life of the session. */
  lemma {:induction false} ReconnectionsAreInvisible(l: Life, c: ClientId, max: nat, turns: seq<Turn>, r: Receiver)
    requires Is(l, r) && IsLife(l, c, max, turns) && QuietLife(l, c, max, turns)
    ensures Is(After(l, c, max, turns), Run(r, max, Packets(turns)))
    decreases |turns|
  {
    if turns != [] {
      var t := turns[0];
      TurnIs(l, c, max, t, r);
      ReconnectionsAreInvisible(Turned(l, c, max, t), c, max, turns[1..], if t.Take? then Next(r, max, t.e) else r);
      if t.Take? { assert Packets(turns)[1..] == Packets(turns[1..]); } else { assert Packets(turns) == Packets(turns[1..]); }
    }
  }

  /** A takeover loses whatever the running connection had stored: the new connection starts with
      nothing in flight and nothing stored, so the release of a message it never saw routes nothing. */
  lemma TakeoverLosesStored(l: Life, c: ClientId, max: nat, g: nat, r: Receiver, pkid: u16)
    requires Is(l, r) && l.live && pkid in r.stored
    ensures l.slot.session.value.Durable() == EMPTY_SNAPSHOT
    ensures var taken := Turned(l, c, max, Return(g));
            && Lives(taken, c, Take(Releases(pkid)))
            && Turned(taken, c, max, Take(Releases(pkid))).receiver.routed == r.routed
            && Next(r, max, Releases(pkid)).routed == r.routed + [(pkid, r.stored[pkid])]
  {
  }
}
