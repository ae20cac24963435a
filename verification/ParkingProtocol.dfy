/** Parking and waking as a protocol between the session table, the registry, the command
    queue and the connection tasks: no interleaving loses a wake-up. */
module ParkingProtocol {
  import opened Types
  import opened ShardModel
  import R = Registry

  /** A connection task, by client and session generation. */
  type Ticket = (ClientId, nat)

  /** The shard with its parking task. `live` are running connection tasks, `resuming` are
      resurrected ones that have not re-attached yet. `wakes` counts, per client, the wake
      commands sent since it last parked. */
  datatype World = World(shard: Shard, reg: R.Reg, live: set<Ticket>, resuming: set<Ticket>, wakes: map<ClientId, nat>)

  datatype Action =
    | Connect(c: ClientId, clean: bool)
    | ParkIdle(conn: R.ParkedConn, snapshot: SessionSnapshot, dupFails: bool)
    | Command
    | Completion(userData: nat)
    | KeepAlive(index: nat)
    | ResumeTask(c: ClientId, g: nat)
    | Disconnect(c: ClientId, g: nat, secs: u32, snapshot: SessionSnapshot, pending: seq<Delivery>)
    | DeliverOne(c: ClientId, d: Delivery)
    | Other(c: ClientId, op: Op)

  /** The table operations that involve neither a task's end nor the registry. */
  predicate Plain(op: Op) {
    op.Receive? || op.Subscribe? || op.Unsubscribe? || op.DropMailbox? || op.ArmWill? || op.Sweep?
    || op.Claimed? || op.Install?
  }

  function SessionAt(s: Shard, c: ClientId): Option<Session> {
    SlotOf(s, c).session
  }

  ghost predicate Enabled(w: World, a: Action) {
    match a
    case ParkIdle(conn, _, _) =>
      (conn.client, conn.generation) in w.live
      && (SessionAt(w.shard, conn.client).Some? && SessionAt(w.shard, conn.client).value.mailbox.Some?
          && SessionAt(w.shard, conn.client).value.generation == conn.generation
          ==> SessionAt(w.shard, conn.client).value.mailbox.value == [])
    case Command => w.shard.unpark != []
    case ResumeTask(c, g) => (c, g) in w.resuming
    case Disconnect(c, g, _, _, _) => (c, g) in w.live
    case Other(_, op) => Plain(op)
    case _ => true
  }

  predicate Flips(w: World, conn: R.ParkedConn) {
    conn.client in w.shard.sessions && w.shard.sessions[conn.client].generation == conn.generation
    && w.shard.sessions[conn.client].mailbox.Some?
  }

  /** A client re-parks only once its earlier registry entry is gone. */
  predicate NoCollision(w: World, a: Action) {
    a.ParkIdle? && !a.dupFails && Flips(w, a.conn) ==> a.conn.client !in w.reg.byClient
  }

  function Ticketed(taken: Option<R.ParkedConn>): set<Ticket> {
    if taken.Some? then {(taken.value.client, taken.value.generation)} else {}
  }

  ghost function Act1(w: World, c: ClientId, op: Op, now: nat): World {
    w.(shard := Step(w.shard, c, op, now))
  }

  ghost function NextCommand(w: World): World
    requires w.shard.unpark != []
  {
    var cmd := w.shard.unpark[0];
    var w1 := w.(shard := w.shard.(unpark := w.shard.unpark[1..]));
    match cmd
    case Wake(c) =>
      var (reg, taken) := R.TakeByClient(w.reg, c, None);
      w1.(reg := reg, resuming := w.resuming + Ticketed(taken))
    case CloseParked(c, g) =>
      w1.(reg := R.TakeByClient(w.reg, c, Some(g)).0)
  }

  ghost function NextPark(w: World, conn: R.ParkedConn, snapshot: SessionSnapshot, dupFails: bool, now: nat): World {
    var t := (conn.client, conn.generation);
    var w1 := Act1(w, conn.client, Park(conn.generation, snapshot), now).(live := w.live - {t});
    if !Flips(w, conn) then w1
    else
      var w2 := w1.(wakes := w.wakes[conn.client := 0]);
      if dupFails then w2.(resuming := w.resuming + {t}) else w2.(reg := R.ParkIn(w.reg, conn))
  }

  ghost function NextKeepAlive(w: World, index: nat, now: nat): World {
    var (reg, taken) := R.RemoveAt(w.reg, index);
    var w1 := w.(reg := reg);
    if taken.None? then w1 else Act1(w1, taken.value.client, Suspend(taken.value.generation, taken.value.expiry), now)
  }

  ghost function NextResume(w: World, c: ClientId, g: nat, now: nat): World {
    var back := c in w.shard.sessions && w.shard.sessions[c].generation == g && w.shard.sessions[c].parked;
    Act1(w, c, Reattach(g), now).(resuming := w.resuming - {(c, g)}, live := if back then w.live + {(c, g)} else w.live)
  }

  ghost function NextDeliver(w: World, c: ClientId, d: Delivery, now: nat): World {
    var sent := |Outcomes(w.shard, c, Deliver(d), now).cmds|;
    Act1(w, c, Deliver(d), now).(wakes := w.wakes[c := (if c in w.wakes then w.wakes[c] else 0) + sent])
  }

  ghost function Next(w: World, a: Action, now: nat): World
    requires Enabled(w, a)
  {
    match a
    case Connect(c, clean) =>
      Act1(w, c, Open(clean), now).(live := w.live + {(c, w.shard.nextGeneration + 1)})
    case ParkIdle(conn, snapshot, dupFails) => NextPark(w, conn, snapshot, dupFails, now)
    case Command => NextCommand(w)
    case Completion(userData) =>
      var (reg, taken) := R.TakeByToken(w.reg, userData);
      w.(reg := reg, resuming := w.resuming + Ticketed(taken))
    case KeepAlive(index) => NextKeepAlive(w, index, now)
    case ResumeTask(c, g) => NextResume(w, c, g, now)
    case Disconnect(c, g, secs, snapshot, pending) =>
      Act1(w, c, Close(g, secs, snapshot, pending), now).(live := w.live - {(c, g)})
    case DeliverOne(c, d) => NextDeliver(w, c, d, now)
    case Other(c, op) => Act1(w, c, op, now)
  }

  // --- the invariant -----------------------------------------------------------------

  ghost predicate InRegistry(w: World, t: Ticket) {
    t.0 in R.Entries(w.reg) && R.Entries(w.reg)[t.0] == t.1
  }

  /** What is true of each session. */
  ghost predicate SessionOk(w: World, c: ClientId, x: Session) {
    var t := (c, x.generation);
    && x.generation <= w.shard.nextGeneration
    && (x.mailbox.Some? ==> t in w.live && x.offlineQueue == [] && !x.parked)
    && (x.parked ==> x.expiresAt.None? && x.snapshot.Some? && (t in w.resuming || InRegistry(w, t)))
    && (x.parked && x.offlineQueue != [] ==> x.wakePending)
    && (x.wakePending ==> x.parked && (Wake(c) in w.shard.unpark || t in w.resuming))
    && (x.parked ==> c in w.wakes && w.wakes[c] == if x.wakePending then 1 else 0)
  }

  ghost predicate SessionsOk(w: World) {
    forall c | c in w.shard.sessions :: SessionOk(w, c, w.shard.sessions[c])
  }

  /** Each task exists once: running, resuming or parked. */
  ghost predicate TicketsOk(w: World) {
    && w.live !! w.resuming
    && (forall t | t in w.live + w.resuming :: t.1 <= w.shard.nextGeneration)
    && (forall c | c in R.Entries(w.reg) ::
          R.Entries(w.reg)[c] <= w.shard.nextGeneration
          && (c, R.Entries(w.reg)[c]) !in w.live && (c, R.Entries(w.reg)[c]) !in w.resuming)
  }

  /** A queued close names a generation that has ended. */
  ghost predicate ClosesOk(w: World) {
    forall c, h: nat | CloseParked(c, h) in w.shard.unpark ::
      h <= w.shard.nextGeneration && !(c in w.shard.sessions && w.shard.sessions[c].generation == h)
  }

  ghost predicate Inv(w: World) {
    R.Valid(w.reg) && SessionsOk(w) && TicketsOk(w) && ClosesOk(w)
  }

  /** `t` is `s` after an outcome for client `c`: that session, the commands, the counter. */
  ghost predicate After(s: Shard, t: Shard, c: ClientId, o: Outcome, allocates: bool) {
    && t.nextGeneration == (if allocates then s.nextGeneration + 1 else s.nextGeneration)
    && t.unpark == s.unpark + o.cmds
    && t.sessions == (if o.slot.session.Some? then s.sessions[c := o.slot.session.value] else s.sessions - {c})
  }

  lemma StepSessions(s: Shard, c: ClientId, op: Op, now: nat)
    ensures After(s, Step(s, c, op, now), c, Outcomes(s, c, op, now), Allocates(op))
  {
  }

  /** Facts about the other clients survive a step on one client that only adds to what they rely on. */
  lemma OthersOk(w: World, w': World, c: ClientId)
    requires SessionsOk(w)
    requires forall d | d in w'.shard.sessions && d != c :: d in w.shard.sessions && w'.shard.sessions[d] == w.shard.sessions[d]
    requires w'.shard.nextGeneration >= w.shard.nextGeneration
    requires forall d, g: nat | d != c :: ((d, g) in w.live ==> (d, g) in w'.live)
                                     && ((d, g) in w.resuming ==> (d, g) in w'.resuming)
                                     && (InRegistry(w, (d, g)) ==> InRegistry(w', (d, g)))
    requires forall d | d != c :: (Wake(d) in w.shard.unpark ==> Wake(d) in w'.shard.unpark)
                                  && (d in w.wakes ==> d in w'.wakes && w'.wakes[d] == w.wakes[d])
    ensures forall d | d in w'.shard.sessions && d != c :: SessionOk(w', d, w'.shard.sessions[d])
  {
  }

  // --- each action keeps the invariant ------------------------------------------------

  /** An outcome for client `c` that suits `c` and adds no harmful command. */
  lemma AfterKeepsInv(w: World, w': World, c: ClientId, o: Outcome, allocates: bool)
    requires Inv(w) && After(w.shard, w'.shard, c, o, allocates)
    requires R.Valid(w'.reg) && TicketsOk(w')
    requires forall d, g: nat | d != c :: ((d, g) in w.live ==> (d, g) in w'.live)
                                          && ((d, g) in w.resuming ==> (d, g) in w'.resuming)
                                          && (InRegistry(w, (d, g)) ==> InRegistry(w', (d, g)))
    requires forall d | d != c :: d in w.wakes ==> d in w'.wakes && w'.wakes[d] == w.wakes[d]
    requires o.slot.session.Some? ==>
               SessionOk(w', c, o.slot.session.value)
               && ((allocates && o.slot.session.value.generation == w.shard.nextGeneration + 1)
                   || (c in w.shard.sessions && o.slot.session.value.generation == w.shard.sessions[c].generation))
    requires forall cmd | cmd in o.cmds :: cmd == Wake(c) ||
               (c in w.shard.sessions && cmd == CloseParked(c, w.shard.sessions[c].generation)
                && (o.slot.session.Some? ==> o.slot.session.value.generation != w.shard.sessions[c].generation))
    ensures Inv(w')
  {
    assert forall d | Wake(d) in w.shard.unpark :: Wake(d) in w'.shard.unpark;
    OthersOk(w, w', c);
    forall d, h: nat | CloseParked(d, h) in w'.shard.unpark
      ensures h <= w'.shard.nextGeneration && !(d in w'.shard.sessions && w'.shard.sessions[d].generation == h)
    {
      assert CloseParked(d, h) in w.shard.unpark || CloseParked(d, h) in o.cmds;
    }
  }

  lemma ConnectKeeps(w: World, c: ClientId, clean: bool, now: nat)
    requires Inv(w)
    ensures Inv(Next(w, Connect(c, clean), now))
  {
    var w' := Next(w, Connect(c, clean), now);
    var o := Outcomes(w.shard, c, Open(clean), now);
    assert o.slot.session == Some(Fresh(w.shard.nextGeneration + 1));
    StepSessions(w.shard, c, Open(clean), now);
    AfterKeepsInv(w, w', c, o, true);
  }

  /** A displaced connection does not park; it just ends. */
  lemma ParkRefusedKeeps(w: World, conn: R.ParkedConn, snapshot: SessionSnapshot, dupFails: bool, now: nat)
    requires Inv(w) && (conn.client, conn.generation) in w.live && !Flips(w, conn)
    ensures Inv(NextPark(w, conn, snapshot, dupFails, now))
  {
    var op := Park(conn.generation, snapshot);
    StepSessions(w.shard, conn.client, op, now);
    AfterKeepsInv(w, NextPark(w, conn, snapshot, dupFails, now), conn.client, Outcomes(w.shard, conn.client, op, now), false);
  }

  /** The session as parking leaves it. */
  function Sleeping(x: Session, snapshot: SessionSnapshot): Session {
    x.(mailbox := None, parked := true, wakePending := false, snapshot := Some(snapshot), expiresAt := None)
  }

  lemma ParkStep(w: World, conn: R.ParkedConn, snapshot: SessionSnapshot, now: nat)
    requires Flips(w, conn)
    ensures var s, c := w.shard, conn.client;
            var t := Step(s, c, Park(conn.generation, snapshot), now);
            && t.nextGeneration == s.nextGeneration && t.unpark == s.unpark
            && t.sessions == s.sessions[c := Sleeping(s.sessions[c], snapshot)]
  {
    StepSessions(w.shard, conn.client, Park(conn.generation, snapshot), now);
  }

  /** A task has turned into a registry entry, or at once into a resumed task. */
  ghost predicate Laid(w: World, w': World, c: ClientId, g: nat) {
    && (c, g) in w.live && w'.live == w.live - {(c, g)} && w'.wakes == w.wakes[c := 0] && R.Valid(w'.reg)
    && w'.shard.nextGeneration == w.shard.nextGeneration && w'.shard.unpark == w.shard.unpark
    && (|| (w'.resuming == w.resuming + {(c, g)} && w'.reg == w.reg)
        || (w'.resuming == w.resuming && c !in R.Entries(w.reg) && R.Entries(w'.reg) == R.Entries(w.reg)[c := g]))
  }

  lemma LaidTickets(w: World, w': World, c: ClientId, g: nat)
    requires TicketsOk(w) && Laid(w, w', c, g)
    ensures TicketsOk(w')
  {
  }

  lemma SleepKeeps(w: World, w': World, c: ClientId, g: nat, snapshot: SessionSnapshot)
    requires Inv(w) && Laid(w, w', c, g) && c in w.shard.sessions && w.shard.sessions[c].generation == g
    requires w.shard.sessions[c].mailbox.Some?
    requires w'.shard.sessions == w.shard.sessions[c := Sleeping(w.shard.sessions[c], snapshot)]
    ensures Inv(w')
  {
    var x := Sleeping(w.shard.sessions[c], snapshot);
    var o := Outcome(Slot(Some(x), {}, false, false), [], []);
    LaidTickets(w, w', c, g);
    assert SessionOk(w, c, w.shard.sessions[c]);
    assert SessionOk(w', c, x);
    assert w.shard.unpark + [] == w.shard.unpark;
    AfterKeepsInv(w, w', c, o, false);
  }

  lemma ParkFlipsKeeps(w: World, conn: R.ParkedConn, snapshot: SessionSnapshot, dupFails: bool, now: nat)
    requires Inv(w) && (conn.client, conn.generation) in w.live && Flips(w, conn)
    requires !dupFails ==> conn.client !in w.reg.byClient
    ensures Inv(NextPark(w, conn, snapshot, dupFails, now))
  {
    ParkStep(w, conn, snapshot, now);
    if !dupFails { R.ParkEntries(w.reg, conn); }
    SleepKeeps(w, NextPark(w, conn, snapshot, dupFails, now), conn.client, conn.generation, snapshot);
  }

  lemma ResumeKeeps(w: World, c: ClientId, g: nat, now: nat)
    requires Inv(w) && (c, g) in w.resuming
    ensures Inv(Next(w, ResumeTask(c, g), now))
  {
    StepSessions(w.shard, c, Reattach(g), now);
    AfterKeepsInv(w, NextResume(w, c, g, now), c, Outcomes(w.shard, c, Reattach(g), now), false);
  }

  lemma DisconnectKeeps(w: World, c: ClientId, g: nat, secs: u32, snapshot: SessionSnapshot, pending: seq<Delivery>, now: nat)
    requires Inv(w) && (c, g) in w.live
    ensures Inv(Next(w, Disconnect(c, g, secs, snapshot, pending), now))
  {
    var op := Close(g, secs, snapshot, pending);
    StepSessions(w.shard, c, op, now);
    AfterKeepsInv(w, Next(w, Disconnect(c, g, secs, snapshot, pending), now), c, Outcomes(w.shard, c, op, now), false);
  }

  lemma DeliverKeeps(w: World, c: ClientId, d: Delivery, now: nat)
    requires Inv(w)
    ensures Inv(Next(w, DeliverOne(c, d), now))
  {
    StepSessions(w.shard, c, Deliver(d), now);
    AfterKeepsInv(w, NextDeliver(w, c, d, now), c, Outcomes(w.shard, c, Deliver(d), now), false);
  }

  /** The session is ended, or everything but its mailbox and will stays as it was. */
  ghost predicate Mild(v: Slot, c: ClientId, o: Outcome) {
    && (o.slot.session.Some? ==>
          v.session.Some?
          && o.slot.session.value == v.session.value.(mailbox := o.slot.session.value.mailbox,
                                                      pendingWill := o.slot.session.value.pendingWill)
          && (o.slot.session.value.mailbox.Some? ==> v.session.value.mailbox.Some?))
    && (o.cmds != [] ==> o.slot.session.None? && v.session.Some? && o.cmds == [CloseParked(c, v.session.value.generation)])
  }

  lemma PlainIsMild(v: Slot, c: ClientId, g: nat, op: Op, now: nat)
    requires Plain(op)
    ensures Mild(v, c, Act(v, c, g, op, now))
  {
  }

  lemma MildKeepsInv(w: World, w': World, c: ClientId, o: Outcome)
    requires Inv(w) && w' == w.(shard := w'.shard) && After(w.shard, w'.shard, c, o, false)
    requires Mild(SlotOf(w.shard, c), c, o)
    ensures Inv(w')
  {
    AfterKeepsInv(w, w', c, o, false);
  }

  lemma PlainStep(s: Shard, c: ClientId, op: Op, now: nat) returns (o: Outcome)
    requires Plain(op)
    ensures After(s, Step(s, c, op, now), c, o, false) && Mild(SlotOf(s, c), c, o)
  {
    o := Outcomes(s, c, op, now);
    StepSessions(s, c, op, now);
    PlainIsMild(SlotOf(s, c), c, s.nextGeneration + 1, op, now);
  }

  lemma OtherKeeps(w: World, c: ClientId, op: Op, now: nat)
    requires Inv(w) && Plain(op)
    ensures Inv(Next(w, Other(c, op), now))
  {
    var o := PlainStep(w.shard, c, op, now);
    MildKeepsInv(w, Act1(w, c, op, now), c, o);
  }

  /** A suspension ends the parked session of its generation or puts it to rest; else it does nothing. */
  ghost predicate Rested(v: Slot, g: nat, o: Outcome) {
    && o.cmds == []
    && (if v.session.Some? && v.session.value.generation == g && v.session.value.parked then
          o.slot.session.Some? ==>
            o.slot.session.value == v.session.value.(parked := false, wakePending := false, expiresAt := o.slot.session.value.expiresAt)
        else o.slot.session == v.session)
  }

  lemma SuspendStep(s: Shard, c: ClientId, g: nat, secs: u32, now: nat) returns (o: Outcome)
    ensures After(s, Step(s, c, Suspend(g, secs), now), c, o, false) && Rested(SlotOf(s, c), g, o)
  {
    o := Outcomes(s, c, Suspend(g, secs), now);
    StepSessions(s, c, Suspend(g, secs), now);
  }

  lemma RestKeeps(w: World, w': World, c: ClientId, g: nat, o: Outcome)
    requires Inv(w) && w' == w.(shard := w'.shard, reg := w'.reg) && After(w.shard, w'.shard, c, o, false)
    requires Rested(SlotOf(w.shard, c), g, o) && R.Valid(w'.reg)
    requires InRegistry(w, (c, g)) && R.Entries(w'.reg) == R.Entries(w.reg) - {c}
    ensures Inv(w')
  {
    assert TicketsOk(w');
    AfterKeepsInv(w, w', c, o, false);
  }

  lemma KeepAliveKeeps(w: World, index: nat, now: nat)
    requires Inv(w)
    ensures Inv(Next(w, KeepAlive(index), now))
  {
    R.RemoveEntries(w.reg, index);
    var (reg, taken) := R.RemoveAt(w.reg, index);
    if taken.Some? {
      var o := SuspendStep(w.shard, taken.value.client, taken.value.generation, taken.value.expiry, now);
      RestKeeps(w, NextKeepAlive(w, index, now), taken.value.client, taken.value.generation, o);
    }
  }

  /** A registry entry turning into a resumed task. */
  lemma TakingKeeps(w: World, w': World, taken: R.ParkedConn)
    requires Inv(w)
    requires w'.shard == w.shard && w'.live == w.live && w'.wakes == w.wakes
    requires R.Valid(w'.reg) && R.Entries(w'.reg) == R.Entries(w.reg) - {taken.client}
    requires InRegistry(w, (taken.client, taken.generation))
    requires w'.resuming == w.resuming + {(taken.client, taken.generation)}
    ensures Inv(w')
  {
  }

  lemma CompletionKeeps(w: World, userData: nat, now: nat)
    requires Inv(w)
    ensures Inv(Next(w, Completion(userData), now))
  {
    R.TakeByTokenEntries(w.reg, userData);
    var taken := R.TakeByToken(w.reg, userData).1;
    if taken.Some? { TakingKeeps(w, Next(w, Completion(userData), now), taken.value); }
  }

  /** Dropping a command that nobody needs any more. */
  lemma PopKeeps(w: World)
    requires Inv(w) && w.shard.unpark != []
    requires w.shard.unpark[0].Wake? ==>
               var c := w.shard.unpark[0].client;
               c in w.shard.sessions && w.shard.sessions[c].parked ==> (c, w.shard.sessions[c].generation) in w.resuming
    ensures Inv(w.(shard := w.shard.(unpark := w.shard.unpark[1..])))
  {
    assert w.shard.unpark == [w.shard.unpark[0]] + w.shard.unpark[1..];
  }

  lemma WakeKeeps(w: World)
    requires Inv(w) && w.shard.unpark != [] && w.shard.unpark[0].Wake?
    ensures Inv(NextCommand(w))
  {
    var c := w.shard.unpark[0].client;
    R.TakeByClientEntries(w.reg, c, None);
    var (reg, taken) := R.TakeByClient(w.reg, c, None);
    var w1 := w.(reg := reg, resuming := w.resuming + Ticketed(taken));
    if taken.Some? { TakingKeeps(w, w1, taken.value); }
    PopKeeps(w1);
  }

  /** An entry of a generation that has ended may go. */
  lemma ForgetKeeps(w: World, reg: R.Reg, c: ClientId, g: nat)
    requires Inv(w) && CloseParked(c, g) in w.shard.unpark && R.Valid(reg)
    requires R.Entries(reg) == R.Entries(w.reg)
             || (c in R.Entries(w.reg) && R.Entries(w.reg)[c] == g && R.Entries(reg) == R.Entries(w.reg) - {c})
    ensures Inv(w.(reg := reg))
  {
  }

  lemma CloseKeeps(w: World)
    requires Inv(w) && w.shard.unpark != [] && w.shard.unpark[0].CloseParked?
    ensures Inv(NextCommand(w))
  {
    var cmd := w.shard.unpark[0];
    R.TakeByClientEntries(w.reg, cmd.client, Some(cmd.generation));
    var reg := R.TakeByClient(w.reg, cmd.client, Some(cmd.generation)).0;
    assert cmd in w.shard.unpark;
    ForgetKeeps(w, reg, cmd.client, cmd.generation);
    PopKeeps(w.(reg := reg));
  }

  lemma CommandKeeps(w: World, now: nat)
    requires Inv(w) && w.shard.unpark != []
    ensures Inv(Next(w, Command, now))
  {
    if w.shard.unpark[0].Wake? { WakeKeeps(w); } else { CloseKeeps(w); }
  }

  /** Every action keeps the invariant, except a park over the client's old entry, which breaks it. */
  lemma NextKeepsInv(w: World, a: Action, now: nat)
    requires Inv(w) && Enabled(w, a)
    ensures Inv(Next(w, a, now)) <==> NoCollision(w, a)
  {
    match a
    case Connect(c, clean) => ConnectKeeps(w, c, clean, now);
    case ParkIdle(conn, snapshot, dupFails) =>
      if !Flips(w, conn) {
        ParkRefusedKeeps(w, conn, snapshot, dupFails, now);
      } else if NoCollision(w, a) {
        ParkFlipsKeeps(w, conn, snapshot, dupFails, now);
      } else {
        R.ParkKeepsValid(w.reg, conn);
      }
    case Command => CommandKeeps(w, now);
    case Completion(userData) => CompletionKeeps(w, userData, now);
    case KeepAlive(index) => KeepAliveKeeps(w, index, now);
    case ResumeTask(c, g) => ResumeKeeps(w, c, g, now);
    case Disconnect(c, g, secs, snapshot, pending) => DisconnectKeeps(w, c, g, secs, snapshot, pending, now);
    case DeliverOne(c, d) => DeliverKeeps(w, c, d, now);
    case Other(c, op) => OtherKeeps(w, c, op, now);
  }

  // --- whole runs ------------------------------------------------------------------------

  ghost predicate Steps(w: World, w': World, collisions: bool) {
    exists a: Action, now: nat :: Enabled(w, a) && (collisions || NoCollision(w, a)) && w' == Next(w, a, now)
  }

  ghost predicate StepsAt(run: seq<World>, k: nat, collisions: bool) {
    k + 1 < |run| && Steps(run[k], run[k + 1], collisions)
  }

  /** Nothing is connected, parked or queued; sessions may be waiting suspended. */
  ghost predicate Start(w: World) {
    && w.reg == R.EMPTY && w.live == {} && w.resuming == {} && w.shard.unpark == []
    && forall c | c in w.shard.sessions ::
         !w.shard.sessions[c].Online() && !w.shard.sessions[c].wakePending
         && w.shard.sessions[c].generation <= w.shard.nextGeneration
  }

  /** A run; with `collisions` false no client parks while it still has a registry entry. */
  ghost predicate IsRun(run: seq<World>, collisions: bool) {
    |run| >= 1 && Start(run[0]) && forall k | 0 <= k < |run| - 1 :: StepsAt(run, k, collisions)
  }

  /** Every parked session can still be woken, and if messages wait for it, will be: its wake
      is queued or its task is already on the way. At most one wake went out for this stay. */
  ghost predicate NoLostWakeup(w: World) {
    forall c | c in w.shard.sessions && w.shard.sessions[c].parked ::
      var x := w.shard.sessions[c];
      && (InRegistry(w, (c, x.generation)) || (c, x.generation) in w.resuming)
      && (x.offlineQueue != [] ==> Wake(c) in w.shard.unpark || (c, x.generation) in w.resuming)
      && c in w.wakes && w.wakes[c] <= 1
  }

  lemma StepsKeepInv(w: World, w': World)
    requires Inv(w) && Steps(w, w', false)
    ensures Inv(w')
  {
    var a: Action, now: nat :| Enabled(w, a) && NoCollision(w, a) && w' == Next(w, a, now);
    NextKeepsInv(w, a, now);
  }

  lemma {:induction false} ReachableInv(run: seq<World>, n: nat)
    requires IsRun(run, false) && n < |run|
    ensures Inv(run[n])
  {
    if n > 0 {
      ReachableInv(run, n - 1);
      assert StepsAt(run, n - 1, false);
      StepsKeepInv(run[n - 1], run[n]);
    }
  }

  /** The guard is exact over runs: of the runs the code allows, those without a collision are the ones
      in which the invariant holds throughout. */
  lemma SoundRunsDoNotCollide(run: seq<World>)
    requires IsRun(run, true)
    ensures (forall n | 0 <= n < |run| :: Inv(run[n])) <==> IsRun(run, false)
  {
    if IsRun(run, false) {
      forall n | 0 <= n < |run| ensures Inv(run[n]) { ReachableInv(run, n); }
    } else if forall n | 0 <= n < |run| :: Inv(run[n]) {
      var k :| 0 <= k < |run| - 1 && !StepsAt(run, k, false);
      assert StepsAt(run, k, true);
      SoundStep(run[k], run[k + 1]);
    }
  }

  lemma SoundStep(w: World, w': World)
    requires Inv(w) && Inv(w') && Steps(w, w', true)
    ensures Steps(w, w', false)
  {
    var a: Action, now: nat :| Enabled(w, a) && w' == Next(w, a, now);
    NextKeepsInv(w, a, now);
  }

  /** No reachable state has lost a wake-up. */
  lemma WakeupsAreNeverLost(run: seq<World>, n: nat)
    requires IsRun(run, false) && n < |run|
    ensures NoLostWakeup(run[n])
  {
    ReachableInv(run, n);
  }

  /** Once the commands are worked off and the resumed tasks have run, nothing waits for a parked client. */
  lemma DrainedMeansDelivered(run: seq<World>, n: nat)
    requires IsRun(run, false) && n < |run|
    requires run[n].shard.unpark == [] && run[n].resuming == {}
    ensures forall c | c in run[n].shard.sessions && run[n].shard.sessions[c].parked :: run[n].shard.sessions[c].offlineQueue == []
  {
    WakeupsAreNeverLost(run, n);
  }

  // --- why re-parking must wait for the old entry ---------------------------------------

  /** A park over the client's old entry. */
  predicate Collides(w: World, conn: R.ParkedConn) {
    Flips(w, conn) && conn.client in w.reg.byClient
  }

  /** After any collision the completion of the old socket loses the wake-up of the new one: the client
      is parked, and neither the registry nor a resumed task knows it. */
  lemma CollisionLosesWakeup(w: World, conn: R.ParkedConn, snapshot: SessionSnapshot, now: nat)
    requires Inv(w) && Enabled(w, ParkIdle(conn, snapshot, false)) && Collides(w, conn)
    requires w.reg.byClient[conn.client] < R.TAGS - 1
    ensures var i := w.reg.byClient[conn.client];
            && i < |w.reg.tags|
            && var w1 := Next(w, ParkIdle(conn, snapshot, false), now);
            && !NoLostWakeup(Next(w1, Completion(R.Token(i, w.reg.tags[i])), now))
  {
    var c, i := conn.client, w.reg.byClient[conn.client];
    assert R.Occupied(w.reg, i);
    ParkStep(w, conn, snapshot, now);
    var w1 := Next(w, ParkIdle(conn, snapshot, false), now);
    OldTokenResolves(w.reg, conn);
    var w2 := Next(w1, Completion(R.Token(i, w.reg.tags[i])), now);
    assert R.Entries(w.reg)[c] == w.reg.slots[i].value.generation;
    assert w2.shard.sessions[c].parked && c !in R.Entries(w2.reg);
    assert (c, conn.generation) !in w2.resuming;
  }

  /** Parking over an entry leaves the old one in its slot; taking it by its token unlinks the client. */
  lemma OldTokenResolves(r: R.Reg, conn: R.ParkedConn)
    requires R.Valid(r) && conn.client in r.byClient && r.byClient[conn.client] < R.TAGS - 1
    ensures var i := r.byClient[conn.client];
            && R.Occupied(r, i)
            && var (r2, taken) := R.TakeByToken(R.ParkIn(r, conn), R.Token(i, r.tags[i]));
            && taken == r.slots[i] && conn.client !in r2.byClient
  {
    var i := r.byClient[conn.client];
    assert R.Occupied(r, i) && r.slots[i].value.client == conn.client;
    R.TokenParts(i, r.tags[i]);
    if r.free != [] { assert r.free[|r.free| - 1] in r.free; }
    assert R.Token(i, r.tags[i]) != R.CANCEL_TOKEN;
  }

  /** The shard when "c" is its only client: the session, the counter, the queued commands. */
  ghost predicate Lone(w: World, x: Session, g: nat, cmds: seq<UnparkCmd>) {
    w.shard.sessions == map["c" := x] && w.shard.nextGeneration == g && w.shard.unpark == cmds && w.shard.subs == {}
  }

  ghost predicate Last(run: seq<World>, w: World) {
    IsRun(run, true) && run[|run| - 1] == w
  }

  function Asleep(g: nat): Session {
    Fresh(g).(mailbox := None, parked := true, snapshot := Some(EMPTY_SNAPSHOT))
  }

  lemma Extend(run: seq<World>, w: World, a: Action) returns (run': seq<World>)
    requires Last(run, w) && Enabled(w, a)
    ensures Last(run', Next(w, a, 0))
  {
    var w' := Next(w, a, 0);
    run' := run + [w'];
    forall k | 0 <= k < |run'| - 1 ensures StepsAt(run', k, true) {
      if k < |run| - 1 { assert StepsAt(run, k, true); }
    }
  }

  lemma LoneConnect(w: World, x: Session, g: nat, cmds: seq<UnparkCmd>)
    requires Lone(w, x, g, cmds)
    ensures Lone(Next(w, Connect("c", false), 0), Fresh(g + 1), g + 1,
                 cmds + if x.parked then [CloseParked("c", x.generation)] else [])
  {
    StepSessions(w.shard, "c", Open(false), 0);
  }

  lemma LonePark(w: World, conn: R.ParkedConn, cmds: seq<UnparkCmd>)
    requires Lone(w, Fresh(conn.generation), conn.generation, cmds) && conn.client == "c"
    requires ("c", conn.generation) in w.live
    ensures Lone(Next(w, ParkIdle(conn, EMPTY_SNAPSHOT, false), 0), Asleep(conn.generation), conn.generation, cmds)
  {
    StepSessions(w.shard, "c", Park(conn.generation, EMPTY_SNAPSHOT), 0);
  }

  lemma LoneDeliver(w: World, g: nat, cmds: seq<UnparkCmd>, d: Delivery)
    requires Lone(w, Asleep(g), g, cmds)
    ensures Lone(Next(w, DeliverOne("c", d), 0), Asleep(g).(offlineQueue := [d], wakePending := true), g, cmds + [Wake("c")])
  {
    StepSessions(w.shard, "c", Deliver(d), 0);
    assert [] + [d] == [d];
  }

  lemma LoneStaleResume(w: World, x: Session, g: nat, cmds: seq<UnparkCmd>)
    requires Lone(w, x, g, cmds) && x.generation != 1 && ("c", 1) in w.resuming
    ensures Lone(Next(w, ResumeTask("c", 1), 0), x, g, cmds)
  {
    StepSessions(w.shard, "c", Reattach(1), 0);
    assert cmds + [] == cmds;
  }

  lemma ConnectAndPark(run: seq<World>, w: World, x: Session, g: nat, cmds: seq<UnparkCmd>, conn: R.ParkedConn)
    returns (run': seq<World>, w': World)
    requires Last(run, w) && Lone(w, x, g, cmds) && conn.client == "c" && conn.generation == g + 1
    ensures Last(run', w') && w'.reg == R.ParkIn(w.reg, conn) && w'.resuming == w.resuming
    ensures Lone(w', Asleep(g + 1), g + 1, cmds + if x.parked then [CloseParked("c", x.generation)] else [])
  {
    run' := Extend(run, w, Connect("c", false));
    LoneConnect(w, x, g, cmds);
    var w1 := Next(w, Connect("c", false), 0);
    run' := Extend(run', w1, ParkIdle(conn, EMPTY_SNAPSHOT, false));
    LonePark(w1, conn, cmds + if x.parked then [CloseParked("c", x.generation)] else []);
    w' := Next(w1, ParkIdle(conn, EMPTY_SNAPSHOT, false), 0);
  }

  /** "c" connects, parks, reconnects and parks again while its first entry is still there. */
  lemma CollidingPark() returns (run: seq<World>, w: World)
    ensures Last(run, w) && Lone(w, Asleep(2), 2, [CloseParked("c", 1)]) && w.resuming == {}
    ensures var p1, p2 := R.ParkedConn(0, "c", 1, None, 0), R.ParkedConn(1, "c", 2, None, 0);
            w.reg == R.Reg([Some(p1), Some(p2)], [0, 0], [], map["c" := 1])
  {
    var p1, p2 := R.ParkedConn(0, "c", 1, None, 0), R.ParkedConn(1, "c", 2, None, 0);
    var suspended := Fresh(0).(mailbox := None);
    var w0 := World(Shard(map["c" := suspended], 0, {}, map[], map[], {}, {}, [], []), R.EMPTY, {}, {}, map[]);
    var run1, w1 := ConnectAndPark([w0], w0, suspended, 0, [], p1);
    run, w := ConnectAndPark(run1, w1, Asleep(1), 1, [], p2);
  }

  /** Collisions happen: a client reconnects and parks again before its old entry is closed, the old
      socket's completion then unlinks the new entry, and the wake for the message that arrives next
      finds nobody, for good. */
  lemma CollisionStrandsMessage(d: Delivery) returns (run: seq<World>)
    ensures IsRun(run, true)
    ensures var w := run[|run| - 1];
            && w.shard.unpark == [] && w.resuming == {}
            && "c" in w.shard.sessions && w.shard.sessions["c"].parked && w.shard.sessions["c"].offlineQueue == [d]
            && !NoLostWakeup(w)
  {
    var w;
    run, w := LosingRun(d);
    run := Extend(run, w, Command);
    w := Next(w, Command, 0);
    run := Extend(run, w, Command);
    w := Next(w, Command, 0);
    run := Extend(run, w, ResumeTask("c", 1));
    LoneStaleResume(w, Asleep(2).(offlineQueue := [d], wakePending := true), 2, []);
  }

  lemma LosingRun(d: Delivery) returns (run: seq<World>, w: World)
    ensures Last(run, w) && w.reg.byClient == map[] && w.resuming == {("c", 1)}
    ensures Lone(w, Asleep(2).(offlineQueue := [d], wakePending := true), 2, [CloseParked("c", 1), Wake("c")])
  {
    run, w := CollidingPark();
    run := Extend(run, w, Completion(0));
    w := Next(w, Completion(0), 0);
    run := Extend(run, w, DeliverOne("c", d));
    LoneDeliver(w, 2, [CloseParked("c", 1)], d);
    w := Next(w, DeliverOne("c", d), 0);
  }
}
