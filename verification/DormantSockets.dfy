/** The sockets of parked connections: none is forgotten. Whatever happens to a session, an entry of the
    registry is that of a parked session, or the command to close it is on its way. */
module DormantSockets {
  import opened Types
  import opened ShardModel
  import opened ParkingProtocol
  import R = Registry

  /** The session is parked under this generation. */
  predicate ParkedAs(s: Shard, c: ClientId, g: nat) {
    c in s.sessions && s.sessions[c].parked && s.sessions[c].generation == g
  }

  ghost predicate Wanted(w: World, c: ClientId, g: nat) {
    ParkedAs(w.shard, c, g) || CloseParked(c, g) in w.shard.unpark
  }

  ghost predicate NoneForgotten(w: World) {
    forall c | c in R.Entries(w.reg) :: Wanted(w, c, R.Entries(w.reg)[c])
  }

  /** A parked session stays parked, or its socket is to be closed. */
  predicate LetsGo(v: Slot, c: ClientId, o: Outcome) {
    v.session.Some? && v.session.value.parked ==>
      || (o.slot.session.Some? && o.slot.session.value.parked && o.slot.session.value.generation == v.session.value.generation)
      || CloseParked(c, v.session.value.generation) in o.cmds
  }

  /** Operations by others than the connection itself. */
  lemma OthersLetGo(v: Slot, c: ClientId, g: nat, op: Op, now: nat)
    requires op.Open? || op.Deliver? || Plain(op)
    requires v.session.Some? && v.session.value.parked ==> v.session.value.expiresAt.None?
    ensures LetsGo(v, c, Act(v, c, g, op, now))
  {
  }

  /** An operation on the table, the registry being left alone. */
  lemma TableStep(w: World, w': World, c: ClientId, o: Outcome, allocates: bool)
    requires NoneForgotten(w) && After(w.shard, w'.shard, c, o, allocates) && R.Entries(w'.reg) == R.Entries(w.reg)
    requires c in R.Entries(w.reg) && ParkedAs(w.shard, c, R.Entries(w.reg)[c]) ==> LetsGo(SlotOf(w.shard, c), c, o)
    ensures NoneForgotten(w')
  {
    forall d | d in R.Entries(w'.reg) ensures Wanted(w', d, R.Entries(w'.reg)[d]) {
      assert Wanted(w, d, R.Entries(w.reg)[d]);
    }
  }

  /** The connection that is taken from the registry, and nothing else, may change. */
  lemma TakenStep(w: World, w': World, c: ClientId)
    requires NoneForgotten(w) && R.Entries(w'.reg) == R.Entries(w.reg) - {c}
    requires forall d | d != c && d in w.shard.sessions :: d in w'.shard.sessions && w'.shard.sessions[d] == w.shard.sessions[d]
    requires forall cmd | cmd in w.shard.unpark && cmd.client != c :: cmd in w'.shard.unpark
    ensures NoneForgotten(w')
  {
    forall d | d in R.Entries(w'.reg) ensures Wanted(w', d, R.Entries(w'.reg)[d]) {
      assert Wanted(w, d, R.Entries(w.reg)[d]);
    }
  }

  lemma OtherOpForgetsNone(w: World, w': World, c: ClientId, op: Op, now: nat)
    requires Inv(w) && NoneForgotten(w) && w'.reg == w.reg && w'.shard == Step(w.shard, c, op, now)
    requires op.Open? || op.Deliver? || Plain(op)
    ensures NoneForgotten(w')
  {
    StepSessions(w.shard, c, op, now);
    if c in w.shard.sessions { assert SessionOk(w, c, w.shard.sessions[c]); }
    OthersLetGo(SlotOf(w.shard, c), c, w.shard.nextGeneration + 1, op, now);
    TableStep(w, w', c, Outcomes(w.shard, c, op, now), Allocates(op));
  }

  /** A running or resumed connection has no entry of its own generation. */
  lemma OwnOpForgetsNone(w: World, w': World, c: ClientId, g: nat, op: Op, now: nat)
    requires Inv(w) && NoneForgotten(w) && R.Entries(w'.reg) == R.Entries(w.reg) && w'.shard == Step(w.shard, c, op, now)
    requires (c, g) in w.live + w.resuming
    requires match op case Park(h, _) => h == g case Reattach(h) => h == g case Close(h, _, _, _) => h == g case _ => false
    ensures NoneForgotten(w')
  {
    StepSessions(w.shard, c, op, now);
    assert c in R.Entries(w.reg) ==> R.Entries(w.reg)[c] != g;
    TableStep(w, w', c, Outcomes(w.shard, c, op, now), false);
  }

  lemma ParkForgetsNone(w: World, conn: R.ParkedConn, snapshot: SessionSnapshot, dupFails: bool, now: nat)
    requires Inv(w) && NoneForgotten(w) && (conn.client, conn.generation) in w.live
    requires NoCollision(w, ParkIdle(conn, snapshot, dupFails))
    ensures NoneForgotten(NextPark(w, conn, snapshot, dupFails, now))
  {
    var c, g := conn.client, conn.generation;
    var w' := NextPark(w, conn, snapshot, dupFails, now);
    var asIs := w'.(reg := w.reg);
    OwnOpForgetsNone(w, asIs, c, g, Park(g, snapshot), now);
    if Flips(w, conn) && !dupFails {
      R.ParkEntries(w.reg, conn);
      ParkStep(w, conn, snapshot, now);
      forall d | d in R.Entries(w'.reg) ensures Wanted(w', d, R.Entries(w'.reg)[d]) {
        if d != c { assert Wanted(asIs, d, R.Entries(asIs.reg)[d]); }
      }
    }
  }

  lemma CommandForgetsNone(w: World)
    requires Inv(w) && NoneForgotten(w) && w.shard.unpark != []
    ensures NoneForgotten(NextCommand(w))
  {
    var cmd, w' := w.shard.unpark[0], NextCommand(w);
    assert w.shard.unpark == [cmd] + w.shard.unpark[1..];
    var generation := if cmd.Wake? then None else Some(cmd.generation);
    R.TakeByClientEntries(w.reg, cmd.client, generation);
    if R.TakeByClient(w.reg, cmd.client, generation).1.Some? {
      TakenStep(w, w', cmd.client);
    } else {
      forall d | d in R.Entries(w'.reg) ensures Wanted(w', d, R.Entries(w'.reg)[d]) {
        assert Wanted(w, d, R.Entries(w.reg)[d]);
      }
    }
  }

  lemma KeepAliveForgetsNone(w: World, index: nat, now: nat)
    requires Inv(w) && NoneForgotten(w)
    ensures NoneForgotten(NextKeepAlive(w, index, now))
  {
    R.RemoveEntries(w.reg, index);
    var taken := R.RemoveAt(w.reg, index).1;
    if taken.Some? {
      var c, g := taken.value.client, taken.value.generation;
      StepSessions(w.shard, c, Suspend(g, taken.value.expiry), now);
      TakenStep(w, NextKeepAlive(w, index, now), c);
    }
  }

  lemma NextForgetsNone(w: World, a: Action, now: nat)
    requires Inv(w) && NoneForgotten(w) && Enabled(w, a) && NoCollision(w, a)
    ensures NoneForgotten(Next(w, a, now))
  {
    var w' := Next(w, a, now);
    match a
    case Connect(c, clean) => OtherOpForgetsNone(w, w', c, Open(clean), now);
    case ParkIdle(conn, snapshot, dupFails) => ParkForgetsNone(w, conn, snapshot, dupFails, now);
    case Command => CommandForgetsNone(w);
    case Completion(userData) =>
      R.TakeByTokenEntries(w.reg, userData);
      var taken := R.TakeByToken(w.reg, userData).1;
      if taken.Some? { TakenStep(w, w', taken.value.client); }
    case KeepAlive(index) => KeepAliveForgetsNone(w, index, now);
    case ResumeTask(c, g) => OwnOpForgetsNone(w, w', c, g, Reattach(g), now);
    case Disconnect(c, g, secs, snapshot, pending) => OwnOpForgetsNone(w, w', c, g, Close(g, secs, snapshot, pending), now);
    case DeliverOne(c, d) => OtherOpForgetsNone(w, w', c, Deliver(d), now);
    case Other(c, op) => OtherOpForgetsNone(w, w', c, op, now);
  }

  lemma StepForgetsNone(w: World, w': World)
    requires Inv(w) && NoneForgotten(w) && Steps(w, w', false)
    ensures NoneForgotten(w')
  {
    var a: Action, now: nat :| Enabled(w, a) && NoCollision(w, a) && w' == Next(w, a, now);
    NextForgetsNone(w, a, now);
  }

  /** In every reachable state each socket in the registry is that of a session parked under its generation,
      or is about to be closed. */
  lemma {:induction false} SocketsAreNeverForgotten(run: seq<World>, n: nat)
    requires IsRun(run, false) && n < |run|
    ensures NoneForgotten(run[n])
  {
    if n > 0 {
      SocketsAreNeverForgotten(run, n - 1);
      ReachableInv(run, n - 1);
      assert StepsAt(run, n - 1, false);
      StepForgetsNone(run[n - 1], run[n]);
    }
  }

  /** Once the commands are worked off, none is left behind. */
  lemma DrainedMeansClosed(run: seq<World>, n: nat, c: ClientId)
    requires IsRun(run, false) && n < |run| && run[n].shard.unpark == [] && c in R.Entries(run[n].reg)
    ensures ParkedAs(run[n].shard, c, R.Entries(run[n].reg)[c])
  {
    SocketsAreNeverForgotten(run, n);
    assert Wanted(run[n], c, R.Entries(run[n].reg)[c]);
  }
}
