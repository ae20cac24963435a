/** The write-ahead log task beside a live shard. Whenever the process dies, replaying the
    log over the snapshot gives back the suspended sessions, except where a change was
    still only marked in memory or sat in the batch being written. */
module CrashConsistency {
  import opened Types
  import opened Codec
  import opened SessionCodec
  import opened Wal
  import opened ShardModel
  import Trie

  // --- what a session looks like on disk ------------------------------------------------

  predicate Suspended(v: Slot) {
    v.session.Some? && !v.session.value.Online()
  }

  /** At least a second from its deadline; below that a session is not worth writing. */
  predicate Lasting(x: Session, now: nat) {
    x.expiresAt.Some? ==> x.expiresAt.value >= now + SECOND
  }

  function SubEntry(m: MigratedSub, c: ClientId): Types.Entry {
    Types.Entry(m.filter, Subscription(c, m.qos, m.noLocal, m.retainAsPublished, m.group, m.subId))
  }

  function SubsOf(ps: PersistedSession, c: ClientId): set<Types.Entry> {
    set i | 0 <= i < |ps.subscriptions| :: SubEntry(ps.subscriptions[i], c)
  }

  /** The record holds the session's durable state, up to the packet ids that storing fills in or drops. */
  ghost predicate SameState(ps: PersistedSession, c: ClientId, x: Session, subs: set<Types.Entry>) {
    && ps.clientId == c && SubsOf(ps, c) == subs
    && ps.inflight == HeldInflight(x.Durable().inflight)
    && ps.incomingQos2 == HeldIncoming(x.Durable().incomingQos2)
    && ps.nextPkid == x.Durable().nextPkid
    && ps.offline == HeldOffline(x.offlineQueue)
  }

  /** These are the whole seconds left before the deadline. The largest number stands for a session that
      never expires, and for every deadline at least that far away. */
  predicate LifeLeft(secs: u32, expiresAt: Option<nat>, now: nat) {
    match expiresAt
    case None => secs == SESSION_NEVER_EXPIRES
    case Some(d) =>
      if secs == SESSION_NEVER_EXPIRES then now + secs * SECOND <= d
      else now + secs * SECOND <= d < now + (secs + 1) * SECOND
  }

  /** The life on disk is what the session had left at some moment up to now. */
  ghost predicate LifeKept(ps: PersistedSession, x: Session, now: nat) {
    exists written: nat :: written <= now && LifeLeft(ps.expirySecs, x.expiresAt, written)
  }

  /** What is on disk for a client agrees with its slot: a suspended session is there, anything
      else is not. Nothing is claimed in the last second of a session. */
  ghost predicate Agrees(l: Option<PersistedSession>, c: ClientId, v: Slot, now: nat) {
    if Suspended(v) then
      Lasting(v.session.value, now) ==>
        l.Some? && SameState(l.value, c, v.session.value, v.subs) && LifeKept(l.value, v.session.value, now)
    else l.None?
  }

  predicate IsMarked(v: Slot) {
    v.dirty || v.removed
  }

  // --- the log task ----------------------------------------------------------------------------

  datatype Task = Idle | Appending(batch: seq<Record>) | Saving(captured: Sessions) | Saved

  datatype System = System(shard: Shard, snapshot: Sessions, log: seq<Record>, task: Task, now: nat)

  datatype Move =
    | Operate(c: ClientId, op: Op)
    | Tick
    | TakeBatch
    | AppendDone
    | Capture
    | WriteDone
    | TruncateDone

  /** A session as it is written now. */
  ghost predicate Written(ps: PersistedSession, c: ClientId, x: Session, subs: set<Types.Entry>, now: nat) {
    SameState(ps, c, x, subs) && LifeLeft(ps.expirySecs, x.expiresAt, now)
  }

  /** The batch's last word on a client: a tombstone if removed, its state if dirty and still worth
      writing, else nothing. */
  ghost predicate BatchFor(r: Option<Record>, c: ClientId, v: Slot, now: nat) {
    if v.removed then r == Some(Remove(c))
    else if v.dirty && Suspended(v) && Lasting(v.session.value, now) then
      r.Some? && r.value.Upsert? && Written(r.value.ps, c, v.session.value, v.subs, now)
    else r == None
  }

  ghost predicate BatchOf(batch: seq<Record>, s: Shard, now: nat) {
    forall c :: BatchFor(Last(batch, c), c, SlotOf(s, c), now)
  }

  ghost predicate SavedFor(l: Option<PersistedSession>, c: ClientId, v: Slot, now: nat) {
    if Suspended(v) && Lasting(v.session.value, now) then
      l.Some? && Written(l.value, c, v.session.value, v.subs, now)
    else l == None
  }

  ghost predicate SnapshotOf(m: Sessions, s: Shard, now: nat) {
    forall c :: SavedFor(Lookup(m, c), c, SlotOf(s, c), now)
  }

  /** Nothing that a change of subscriptions could put out of step with the disk. */
  predicate Unpersisted(v: Slot, now: nat) {
    !Suspended(v) || v.dirty || !Lasting(v.session.value, now)
  }

  predicate SameSlot(e: Types.Entry, a: Types.Entry) {
    e.filter == a.filter && Trie.Same(e.sub, a.sub.client, a.sub.group)
  }

  /** Adding these entries changes nothing: they are stored, and nothing else is under their keys. */
  predicate Stored(subs: set<Types.Entry>, added: set<Types.Entry>) {
    added <= subs && forall e, a | e in subs && a in added && SameSlot(e, a) :: e in added
  }

  /** The operation marks the client or leaves its durable state alone. Subscribing does neither when the
      session is suspended: only a change of nothing is safe then. Dropping a live mailbox does neither
      unless the session is in its last second. A parked session must not be closed into its expiry. */
  predicate Logged(v: Slot, c: ClientId, op: Op, now: nat) {
    match op
    case Close(g, secs, _, _) => !(Holds(v, g) && v.session.value.parked && secs != 0)
    case DropMailbox => v.session.Some? && v.session.value.mailbox.Some? ==> !v.removed && !Lasting(v.session.value, now)
    case Subscribe(filter, sub) => Unpersisted(v, now) || Stored(v.subs, {Types.Entry(filter, sub.(client := c))})
    case Unsubscribe(filter, group) => Unpersisted(v, now) || IsNew(v.subs, filter, c, group)
    case Install(m) => Unpersisted(v, now) || Stored(v.subs, RearmAll(m.subscriptions, c))
    case _ => true
  }

  ghost predicate Next(s: System, move: Move, t: System) {
    match move
    case Operate(c, op) => !op.Load? && t == s.(shard := Step(s.shard, c, op, s.now))
    case Tick => t == s.(now := t.now) && t.now >= s.now
    case TakeBatch =>
      && s.task.Idle? && t.task.Appending? && BatchOf(t.task.batch, s.shard, s.now)
      && t == s.(shard := s.shard.(dirty := {}, removed := {}), task := t.task)
    case AppendDone => s.task.Appending? && t == s.(log := s.log + s.task.batch, task := Idle)
    case Capture =>
      && s.task.Idle? && t.task.Saving? && SnapshotOf(t.task.captured, s.shard, s.now)
      && t == s.(task := t.task)
    case WriteDone => s.task.Saving? && t == s.(snapshot := s.task.captured, task := Saved)
    case TruncateDone => s.task.Saved? && t == s.(log := [], task := Idle)
  }

  /** The move is not an operation that changes the client's durable state behind the log's back. */
  predicate Safe(s: System, move: Move, c: ClientId) {
    move.Operate? && move.c == c ==> Logged(SlotOf(s.shard, c), c, move.op, s.now)
  }

  // --- the invariant, one client at a time ------------------------------------------------

  function Pending(s: System): seq<Record> {
    if s.task.Appending? then s.task.batch else []
  }

  /** What would be on disk once the batch in flight is written. */
  function OnDisk(s: System): Sessions {
    Fold(Fold(s.snapshot, s.log), Pending(s))
  }

  /** A parked session has no mailbox; marks are exclusive and say what they should. */
  predicate MarksFit(v: Slot) {
    && (v.session.Some? && v.session.value.parked ==> v.session.value.mailbox.None?)
    && (v.dirty ==> Suspended(v) && !v.removed) && (v.removed ==> !Suspended(v))
  }

  /** The slot's marks fit, and unless it is marked the disk agrees with it. */
  ghost predicate Accounted(l: Option<PersistedSession>, c: ClientId, v: Slot, now: nat) {
    MarksFit(v) && (!IsMarked(v) ==> Agrees(l, c, v, now))
  }

  ghost predicate Consistent(s: System, c: ClientId) {
    var v := SlotOf(s.shard, c);
    && Accounted(Lookup(OnDisk(s), c), c, v, s.now)
    && (s.task.Saving? ==> Accounted(Lookup(s.task.captured, c), c, v, s.now))
    && (s.task.Saved? ==> Accounted(Lookup(s.snapshot, c), c, v, s.now))
  }

  ghost predicate Inv(s: System) {
    forall c :: Consistent(s, c)
  }

  lemma StoredChangesNothing(subs: set<Types.Entry>, added: set<Types.Entry>)
    ensures InsertAll(subs, added) == subs <==> Stored(subs, added)
  {
    if InsertAll(subs, added) == subs {
      forall a | a in added ensures a in subs { assert a in InsertAll(subs, added); }
      forall e, a | e in subs && a in added && SameSlot(e, a) ensures e in added { assert e in InsertAll(subs, added); }
    }
  }

  lemma SubscribeChangesNothing(v: Slot, c: ClientId, filter: string, sub: Subscription)
    ensures ActSubscribe(v, c, filter, sub).slot.subs == v.subs <==> Stored(v.subs, {Types.Entry(filter, sub.(client := c))})
  {
    var e := Types.Entry(filter, sub.(client := c));
    assert ActSubscribe(v, c, filter, sub).slot.subs == InsertAll(v.subs, {e}) by {
      assert forall f :: SameSlot(f, e) <==> f.filter == filter && Trie.Same(f.sub, c, sub.group);
    }
    StoredChangesNothing(v.subs, {e});
  }

  lemma UnsubscribeChangesNothing(v: Slot, c: ClientId, filter: string, group: Option<string>)
    ensures ActUnsubscribe(v, c, filter, group).slot.subs == v.subs <==> IsNew(v.subs, filter, c, group)
  {
    if ActUnsubscribe(v, c, filter, group).slot.subs == v.subs {
      forall e | e in v.subs ensures !(e.filter == filter && Trie.Same(e.sub, c, group)) {
        assert e in ActUnsubscribe(v, c, filter, group).slot.subs;
      }
    }
  }

  /** Changing the subscriptions of a slot keeps it accounted for exactly if there is nothing to put out
      of step, or no change. */
  lemma SubsLogged(l: Option<PersistedSession>, c: ClientId, v: Slot, subs: set<Types.Entry>, now: nat)
    requires Accounted(l, c, v, now)
    ensures Accounted(l, c, v.(subs := subs), now) <==> Unpersisted(v, now) || subs == v.subs
  {
  }

  /** Operations that may attach, detach or end the session. */
  predicate Attaches(op: Op) {
    op.Open? || op.Park? || op.Reattach? || op.Suspend? || op.Close? || op.DropMailbox?
  }

  lemma AttachLogs(l: Option<PersistedSession>, v: Slot, c: ClientId, g: nat, op: Op, now: nat)
    requires Accounted(l, c, v, now) && Attaches(op)
    ensures Accounted(l, c, Act(v, c, g, op, now).slot, now) <==> Logged(v, c, op, now)
  {
  }

  /** Operations on a session's contents. */
  lemma ContentsLogged(l: Option<PersistedSession>, v: Slot, c: ClientId, g: nat, op: Op, now: nat)
    requires Accounted(l, c, v, now) && (op.ArmWill? || op.Sweep? || op.Deliver? || op.Receive? || op.Claimed?)
    ensures Accounted(l, c, Act(v, c, g, op, now).slot, now)
  {
  }

  /** Every operation: the slot stays accounted for exactly if the operation is a logged one. */
  lemma ActLogs(l: Option<PersistedSession>, v: Slot, c: ClientId, g: nat, op: Op, now: nat)
    requires Accounted(l, c, v, now) && !op.Load?
    ensures Accounted(l, c, Act(v, c, g, op, now).slot, now) <==> Logged(v, c, op, now)
  {
    match op
    case Subscribe(filter, sub) =>
      SubscribeChangesNothing(v, c, filter, sub);
      SubsLogged(l, c, v, ActSubscribe(v, c, filter, sub).slot.subs, now);
    case Unsubscribe(filter, group) =>
      UnsubscribeChangesNothing(v, c, filter, group);
      SubsLogged(l, c, v, ActUnsubscribe(v, c, filter, group).slot.subs, now);
    case Install(m) =>
      StoredChangesNothing(v.subs, RearmAll(m.subscriptions, c));
      SubsLogged(l, c, v, ActInstall(v, c, m).slot.subs, now);
    case _ => if Attaches(op) { AttachLogs(l, v, c, g, op, now); } else { ContentsLogged(l, v, c, g, op, now); }
  }

  lemma OperateKeeps(s: System, c: ClientId, op: Op, d: ClientId)
    requires Consistent(s, d) && !op.Load?
    ensures var t := s.(shard := Step(s.shard, c, op, s.now));
            if d == c then Consistent(t, c) <==> Logged(SlotOf(s.shard, c), c, op, s.now) else Consistent(t, d)
  {
    var t := s.(shard := Step(s.shard, c, op, s.now));
    StepIsLocal(s.shard, c, op, s.now, d);
    assert OnDisk(t) == OnDisk(s);
    if d == c {
      var v, g := SlotOf(s.shard, c), s.shard.nextGeneration + 1;
      ActLogs(Lookup(OnDisk(s), c), v, c, g, op, s.now);
      if s.task.Saving? { ActLogs(Lookup(s.task.captured, c), v, c, g, op, s.now); }
      if s.task.Saved? { ActLogs(Lookup(s.snapshot, c), v, c, g, op, s.now); }
    }
  }

  lemma SavedAgrees(l: Option<PersistedSession>, c: ClientId, v: Slot, now: nat)
    requires SavedFor(l, c, v, now)
    ensures Agrees(l, c, v, now)
  {
  }

  lemma BatchAgrees(s: System, t: System, c: ClientId)
    requires Consistent(s, c) && Next(s, TakeBatch, t)
    ensures Consistent(t, c)
  {
    var v := SlotOf(s.shard, c);
    var r := Last(t.task.batch, c);
    assert BatchFor(r, c, v, s.now);
    assert SlotOf(t.shard, c) == v.(dirty := false, removed := false);
    FoldAt(Fold(s.snapshot, s.log), t.task.batch, c);
  }

  lemma AppendKeeps(s: System, t: System, c: ClientId)
    requires Consistent(s, c) && Next(s, AppendDone, t)
    ensures Consistent(t, c)
  {
    FoldAppend(s.snapshot, s.log, s.task.batch);
  }

  lemma WriteKeeps(s: System, t: System, c: ClientId)
    requires Consistent(s, c) && Next(s, WriteDone, t)
    ensures Consistent(t, c)
  {
    FoldAt(s.snapshot, s.log, c);
    FoldAt(t.snapshot, t.log, c);
  }

  lemma TaskKeeps(s: System, move: Move, t: System, c: ClientId)
    requires Consistent(s, c) && Next(s, move, t) && !move.Operate?
    ensures Consistent(t, c)
  {
    match move
    case Tick =>
    case TakeBatch => BatchAgrees(s, t, c);
    case AppendDone => AppendKeeps(s, t, c);
    case Capture =>
      var l, v := Lookup(t.task.captured, c), SlotOf(s.shard, c);
      assert SavedFor(l, c, v, s.now);
      SavedAgrees(l, c, v, s.now);
    case WriteDone => WriteKeeps(s, t, c);
    case TruncateDone =>
  }

  /** Every step of the shard and the log task keeps the disk consistent with a client, except exactly the
      operations that change that client's durable state behind the log's back. */
  lemma NextKeeps(s: System, move: Move, t: System, c: ClientId)
    requires Consistent(s, c) && Next(s, move, t)
    ensures Consistent(t, c) <==> Safe(s, move, c)
  {
    if move.Operate? { OperateKeeps(s, move.c, move.op, c); } else { TaskKeeps(s, move, t, c); }
  }

  // --- runs ------------------------------------------------------------------------------

  /** A shard as start-up leaves it: exactly the sessions on disk, suspended, with nothing marked. */
  ghost predicate Restored(s: System) {
    && s.task.Idle? && s.shard.dirty == {} && s.shard.removed == {}
    && forall c :: LoadedFrom(Lookup(Fold(s.snapshot, s.log), c), c, SlotOf(s.shard, c), s.now)
  }

  function EntriesOf(ps: PersistedSession, c: ClientId): (es: seq<Types.Entry>)
    ensures |es| == |ps.subscriptions| && forall i | 0 <= i < |es| :: es[i] == SubEntry(ps.subscriptions[i], c)
  {
    seq(|ps.subscriptions|, i requires 0 <= i < |ps.subscriptions| => SubEntry(ps.subscriptions[i], c))
  }

  function StateOf(ps: PersistedSession, c: ClientId): MigratedSession {
    MigratedSession(Latest(EntriesOf(ps, c)), ps.inflight, ps.incomingQos2, ps.nextPkid, ps.offline)
  }

  /** The slot holds what loading the record into an empty one gives, under some generation. */
  ghost predicate LoadedFrom(l: Option<PersistedSession>, c: ClientId, v: Slot, now: nat) {
    match l
    case None => v == EMPTY_SLOT
    case Some(ps) =>
      && v.session.Some?
      && v == ActLoad(EMPTY_SLOT, c, v.session.value.generation, ps.expirySecs, StateOf(ps, c), now).slot
  }

  const EMPTY_SLOT := Slot(None, {}, false, false)

  /** No shared subscription carries No Local, as SUBSCRIBE enforces. */
  predicate NoSharedNoLocal(ps: PersistedSession) {
    forall i | 0 <= i < |ps.subscriptions| :: ps.subscriptions[i].group.Some? ==> !ps.subscriptions[i].noLocal
  }

  /** No two subscriptions for the same filter and group, as the index has them. */
  predicate OnePerKey(ps: PersistedSession) {
    forall i, j | 0 <= i < |ps.subscriptions| && 0 <= j < |ps.subscriptions| ::
      ps.subscriptions[i].filter == ps.subscriptions[j].filter && ps.subscriptions[i].group == ps.subscriptions[j].group ==>
        ps.subscriptions[i] == ps.subscriptions[j]
  }

  lemma ListedIsStored(ps: PersistedSession, c: ClientId)
    ensures Latest(EntriesOf(ps, c)) == SubsOf(ps, c) <==> OnePerKey(ps)
  {
    var es := EntriesOf(ps, c);
    LatestIsAll(es);
    LatestIsListed(es);
    assert forall e :: e in SubsOf(ps, c) <==> e in es;
    if forall a, b | a in es && b in es && SameKey(a, b) :: a == b {
      forall i, j | 0 <= i < |es| && 0 <= j < |es| && SameKey(es[i], es[j]) ensures ps.subscriptions[i] == ps.subscriptions[j] {
        assert es[i] == es[j];
      }
    }
  }

  /** Loading a record gives a session the record agrees with, exactly when it lists each filter and
      group once and asks for No Local on no shared subscription. */
  lemma LoadAgrees(ps: PersistedSession, c: ClientId, v: Slot, now: nat)
    requires ps.clientId == c && Held(ps) == ps && ps.expirySecs > 0
    requires LoadedFrom(Some(ps), c, v, now)
    ensures Agrees(Some(ps), c, v, now) <==> NoSharedNoLocal(ps) && OnePerKey(ps)
  {
    var es, kept := SubsOf(ps, c), Latest(EntriesOf(ps, c));
    assert v.subs == RearmAll(kept, c);
    assert LifeLeft(ps.expirySecs, v.session.value.expiresAt, now);
    ListedIsStored(ps, c);
    LatestIsListed(EntriesOf(ps, c));
    if NoSharedNoLocal(ps) {
      forall e | e in kept ensures Rearmed(e, c) == e { assert e in EntriesOf(ps, c); }
      assert RearmAll(kept, c) == kept;
    } else {
      var i :| 0 <= i < |ps.subscriptions| && ps.subscriptions[i].group.Some? && ps.subscriptions[i].noLocal;
      var e := SubEntry(ps.subscriptions[i], c);
      assert e in es;
      assert forall f :: Rearmed(f, c) != e;
      assert e !in RearmAll(kept, c);
    }
  }

  /** A session written at one moment and loaded at another, whatever passed in between, has the time it
      had left, less the fraction of a second that is not stored. */
  lemma RestartKeepsLife(ps: PersistedSession, c: ClientId, x: Session, subs: set<Types.Entry>, written: nat, v: Slot, loaded: nat)
    requires Written(ps, c, x, subs, written) && LoadedFrom(Some(ps), c, v, loaded)
    ensures var y := v.session.value;
            match y.expiresAt
            case None => x.expiresAt.None? || x.expiresAt.value >= written + 0xFFFF_FFFF * SECOND
            case Some(d) => x.expiresAt.Some? && 0 <= (x.expiresAt.value - written) - (d - loaded) < SECOND
  {
  }

  predicate Loadable(m: Sessions) {
    forall c | c in m :: m[c].clientId == c && Held(m[c]) == m[c] && m[c].expirySecs > 0 && NoSharedNoLocal(m[c]) && OnePerKey(m[c])
  }

  lemma RestoredIsConsistent(s: System)
    requires Restored(s) && Loadable(Fold(s.snapshot, s.log))
    ensures Inv(s)
  {
    var m := Fold(s.snapshot, s.log);
    forall c ensures Consistent(s, c) {
      var v := SlotOf(s.shard, c);
      assert LoadedFrom(Lookup(m, c), c, v, s.now);
      assert OnDisk(s) == m;
      if c in m { LoadAgrees(m[c], c, v, s.now); }
    }
  }

  /** What is done to the clients in `careful` is logged. */
  ghost predicate StepsAt(run: seq<System>, k: nat, careful: iset<ClientId>)
    requires k + 1 < |run|
  {
    Steps(run[k], run[k + 1], careful)
  }

  ghost predicate Steps(s: System, t: System, careful: iset<ClientId>) {
    exists move :: Next(s, move, t) && AllSafe(s, move, careful)
  }

  ghost predicate AllSafe(s: System, move: Move, careful: iset<ClientId>) {
    forall c | c in careful :: Safe(s, move, c)
  }

  ghost predicate IsRun(run: seq<System>, careful: iset<ClientId>) {
    && run != [] && Restored(run[0]) && Loadable(Fold(run[0].snapshot, run[0].log))
    && forall k | 0 <= k < |run| - 1 :: StepsAt(run, k, careful)
  }

  lemma {:induction false} RunsAreConsistent(run: seq<System>, k: nat, c: ClientId)
    requires IsRun(run, iset{c}) && k < |run|
    ensures Consistent(run[k], c)
  {
    if k == 0 {
      RestoredIsConsistent(run[0]);
      assert Inv(run[0]);
    } else {
      RunsAreConsistent(run, k - 1, c);
      assert StepsAt(run, k - 1, iset{c});
      var move :| Next(run[k - 1], move, run[k]) && AllSafe(run[k - 1], move, iset{c});
      assert Safe(run[k - 1], move, c);
      NextKeeps(run[k - 1], move, run[k], c);
    }
  }

  /** Whatever happens to other clients, the disk stays consistent with one throughout a run exactly if
      each operation on that one is a logged one. */
  lemma ConsistentRunsAreSafe(run: seq<System>, c: ClientId)
    requires IsRun(run, iset{})
    ensures (forall k | 0 <= k < |run| :: Consistent(run[k], c)) <==> IsRun(run, iset{c})
  {
    if IsRun(run, iset{c}) {
      forall k | 0 <= k < |run| ensures Consistent(run[k], c) { RunsAreConsistent(run, k, c); }
    }
    if forall k | 0 <= k < |run| :: Consistent(run[k], c) {
      forall k | 0 <= k < |run| - 1 ensures StepsAt(run, k, iset{c}) {
        assert StepsAt(run, k, iset{}) && Consistent(run[k], c) && Consistent(run[k + 1], c);
        var move :| Next(run[k], move, run[k + 1]);
        NextKeeps(run[k], move, run[k + 1], c);
      }
    }
  }

  /** Whether a client has a record in the batch. */
  predicate InBatch(batch: seq<Record>, c: ClientId) {
    exists i :: 0 <= i < |batch| && IdOf(batch[i]) == c
  }

  lemma {:induction false} NotInBatch(batch: seq<Record>, n: nat, c: ClientId)
    requires !InBatch(batch, c) && n <= |batch|
    ensures Last(batch[..n], c) == None
  {
    if n > 0 {
      assert batch[..n][..n - 1] == batch[..n - 1] && IdOf(batch[n - 1]) != c;
      NotInBatch(batch, n - 1, c);
    }
  }

  /** However much of a batch is written, a client without a record in it is left as it was. */
  lemma TornBatchSpares(get: Decoder<Record>, batch: seq<Wal.Logged>, cut: nat, base: Sessions, c: ClientId)
    requires Shrinks(get) && AllGood(get, batch) && cut <= |Log(batch)| && !InBatch(Records(batch), c)
    ensures Lookup(Replay(get, Log(batch)[..cut], base).0, c) == Lookup(base, c) == Lookup(Fold(base, Records(batch)), c)
  {
    var n, all := Whole(batch, cut), Records(batch);
    TornReplay(get, batch, cut, base);
    assert Records(batch[..n]) == all[..n];
    NotInBatch(all, n, c);
    NotInBatch(all, |all|, c);
    assert all[..|all|] == all;
    FoldAt(base, all[..n], c);
    FoldAt(base, all, c);
  }

  /** Crash consistency. In every state of every run, if the process dies with any number of bytes of
      the batch in flight written, replaying the file over the snapshot agrees with the shard on every
      client whose own operations were logged and that is neither marked nor in that batch; and such a
      client is not marked both ways. */
  lemma CrashConsistent(run: seq<System>, k: nat, get: Decoder<Record>, log: seq<Wal.Logged>, batch: seq<Wal.Logged>,
                        cut: nat, c: ClientId)
    requires IsRun(run, iset{c}) && k < |run|
    requires Shrinks(get) && AllGood(get, log) && AllGood(get, batch)
    requires Records(log) == run[k].log && Records(batch) == Pending(run[k]) && cut <= |Log(batch)|
    ensures c !in run[k].shard.dirty * run[k].shard.removed
    ensures c !in run[k].shard.dirty + run[k].shard.removed && !InBatch(Pending(run[k]), c) ==>
              Agrees(Lookup(Replay(get, Log(log) + Log(batch)[..cut], run[k].snapshot).0, c), c,
                     SlotOf(run[k].shard, c), run[k].now)
  {
    RunsAreConsistent(run, k, c);
    var s := run[k];
    if c !in s.shard.dirty + s.shard.removed && !InBatch(Pending(s), c) {
      ReplayResumes(get, log, Log(batch)[..cut], s.snapshot);
      TornBatchSpares(get, batch, cut, Fold(s.snapshot, s.log), c);
    }
  }

  // --- changes behind the log's back ---------------------------------------------------------

  /** A connected client that is shed looks suspended in memory and is nowhere on disk. */
  lemma SheddingLosesSession()
    ensures var v := Slot(Some(Fresh(1)), {}, false, false);
            var w := ActDropMailbox(v).slot;
            Agrees(None, "a", v, 0) && !IsMarked(w) && Suspended(w) && !Agrees(None, "a", w, 0)
  {
  }

  /** A connection that was taken over can still subscribe. If its successor has closed and the session
      has been written, the new subscription is live in memory and reaches no log. */
  lemma LateSubscribeIsNotLogged(sub: Subscription)
    ensures var open := Act(Act(EMPTY_SLOT, "a", 1, Open(false), 0).slot, "a", 2, Open(false), 0).slot;
            var closed := Act(open, "a", 3, Close(2, 60, EMPTY_SNAPSHOT, []), 0).slot;
            var written := PersistedSession("a", 60, [], map[], map[], EMPTY_SNAPSHOT.nextPkid, []);
            var v := closed.(dirty := false);
            var w := Act(v, "a", 3, Subscribe("t", sub), 0).slot;
            && closed.dirty && BatchFor(Some(Upsert(written)), "a", closed, 0)
            && Agrees(Some(written), "a", v, 0) && !IsMarked(w)
            && Types.Entry("t", sub.(client := "a")) in w.subs && !Agrees(Some(written), "a", w, 0)
  {
    var open := Act(Act(EMPTY_SLOT, "a", 1, Open(false), 0).slot, "a", 2, Open(false), 0).slot;
    var closed := Act(open, "a", 3, Close(2, 60, EMPTY_SNAPSHOT, []), 0).slot;
    var written := PersistedSession("a", 60, [], map[], map[], EMPTY_SNAPSHOT.nextPkid, []);
    assert closed.session.value.Durable() == EMPTY_SNAPSHOT && closed.session.value.offlineQueue == [] + [];
    assert LifeLeft(60, closed.session.value.expiresAt, 0);
    assert SubsOf(written, "a") == {} == closed.subs;
    assert SameState(written, "a", closed.session.value, closed.subs);
    var w := Act(closed.(dirty := false), "a", 3, Subscribe("t", sub), 0).slot;
    assert Types.Entry("t", sub.(client := "a")) in w.subs;
    assert SubsOf(written, "a") != w.subs;
  }
}
