/** Generation numbers over whole runs of a shard: a connection that lost its session
    can never act on it again. */
module Generations {
  import opened Types
  import opened ShardModel

  /** One step of a run: an operation, the client it concerns and the clock reading. */
  datatype Event = Event(client: ClientId, op: Op, now: nat)

  ghost function Run(s: Shard, events: seq<Event>): Shard
    decreases |events|
  {
    if events == [] then s
    else Run(Step(s, events[0].client, events[0].op, events[0].now), events[1..])
  }

  predicate Current(s: Shard, c: ClientId, g: nat) {
    c in s.sessions && s.sessions[c].generation == g
  }

  /** No session is ahead of the counter. */
  ghost predicate Bounded(s: Shard) {
    forall c | c in s.sessions :: s.sessions[c].generation <= s.nextGeneration
  }

  /** A client's generation changes only to the fresh one. */
  lemma ActKeepsGeneration(v: Slot, c: ClientId, g: nat, op: Op, now: nat)
    ensures Act(v, c, g, op, now).slot.session.Some? ==>
            var h := Act(v, c, g, op, now).slot.session.value.generation;
            Holds(v, h) || (Allocates(op) && h == g)
  {
  }

  lemma StepKeepsGeneration(s: Shard, c: ClientId, op: Op, now: nat, d: ClientId, h: nat)
    requires Current(Step(s, c, op, now), d, h)
    ensures Current(s, d, h) || (Allocates(op) && h == s.nextGeneration + 1)
  {
    StepIsLocal(s, c, op, now, d);
    assert SlotOf(Step(s, c, op, now), d).session == Some(Step(s, c, op, now).sessions[d]);
    ActKeepsGeneration(SlotOf(s, c), c, s.nextGeneration + 1, op, now);
  }

  lemma StepKeepsBounded(s: Shard, c: ClientId, op: Op, now: nat)
    requires Bounded(s)
    ensures Bounded(Step(s, c, op, now))
  {
    var t := Step(s, c, op, now);
    forall d | d in t.sessions ensures t.sessions[d].generation <= t.nextGeneration {
      StepKeepsGeneration(s, c, op, now, d, t.sessions[d].generation);
    }
  }

  /** Over any run, a generation already handed out is current at the end only if it was
      current at the start: superseded and destroyed generations stay dead. */
  lemma {:induction false} DeadGenerationsStayDead(s: Shard, events: seq<Event>, c: ClientId, g: nat)
    requires Bounded(s)
    ensures Bounded(Run(s, events)) && Run(s, events).nextGeneration >= s.nextGeneration
    ensures g <= s.nextGeneration && Current(Run(s, events), c, g) ==> Current(s, c, g)
    decreases |events|
  {
    if events != [] {
      var e := events[0];
      var t := Step(s, e.client, e.op, e.now);
      StepKeepsBounded(s, e.client, e.op, e.now);
      DeadGenerationsStayDead(t, events[1..], c, g);
      if Current(t, c, g) { StepKeepsGeneration(s, e.client, e.op, e.now, c, g); }
    }
  }

  /** What opening a session hands to the new connection. */
  function HandleFor(v: Slot, g: nat, clean: bool): SessionHandle {
    if !clean && v.session.Some? then SessionHandle(true, g, v.session.value.Durable(), v.session.value.offlineQueue)
    else SessionHandle(false, g, EMPTY_SNAPSHOT, [])
  }

  function HandleOf(s: Shard, c: ClientId, clean: bool): SessionHandle {
    HandleFor(SlotOf(s, c), s.nextGeneration + 1, clean)
  }

  /** Two opens of a run, of any clients, never get the same generation: the later one's is larger. */
  lemma GenerationsIncrease(s: Shard, c: ClientId, clean: bool, now: nat, between: seq<Event>, d: ClientId, clean': bool)
    requires Bounded(s)
    ensures HandleOf(s, c, clean).generation
            < HandleOf(Run(Step(s, c, Open(clean), now), between), d, clean').generation
  {
    StepKeepsBounded(s, c, Open(clean), now);
    DeadGenerationsStayDead(Step(s, c, Open(clean), now), between, c, 0);
  }

  /** The operations a connection or the parking task performs in the name of a generation. */
  predicate ActsAs(op: Op, g: nat) {
    match op
    case Park(h, _) => h == g
    case Reattach(h) => h == g
    case Suspend(h, _) => h == g
    case Close(h, _, _, _) => h == g
    case ArmWill(h, _, _) => h == g
    case _ => false
  }

  lemma WithOwnSlot(s: Shard, c: ClientId)
    ensures WithSlot(s, c, SlotOf(s, c)) == s
  {
    var t := WithSlot(s, c, SlotOf(s, c));
    assert t.subs == s.subs by {
      forall e ensures e in t.subs <==> e in s.subs {}
    }
  }

  /** Once a takeover, a destruction or anything else has ended a generation, then whatever
      happens in between, that generation's operations leave the whole shard as it is. */
  lemma LateActionsAreNoOps(s: Shard, events: seq<Event>, c: ClientId, g: nat, op: Op, now: nat)
    requires Bounded(s) && g <= s.nextGeneration && !Current(s, c, g)
    requires ActsAs(op, g)
    ensures Step(Run(s, events), c, op, now) == Run(s, events)
  {
    DeadGenerationsStayDead(s, events, c, g);
    var t := Run(s, events);
    assert !Current(t, c, g);
    assert Outcomes(t, c, op, now) == Outcome(SlotOf(t, c), [], []);
    WithOwnSlot(t, c);
  }
}
