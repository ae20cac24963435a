/** One shard's session table as a value. Every operation concerns one client, so each is
    defined on that client's part of the table (its slot) together with the messages it
    emits, and lifted to the whole shard once. This is the specification the `ShardState`
    object is proved against, and the transition relation of all whole-run theorems. */
module ShardModel {
  import opened Types
  import Order
  import Trie

  const OFFLINE_QUEUE_LIMIT := 1024
  const MAILBOX_LIMIT := 256
  const SESSION_NEVER_EXPIRES: u32 := 0xFFFF_FFFF
  /** Clock ticks in one second. */
  const SECOND: nat := 1_000_000_000

  // --- data ------------------------------------------------------------------------

  /** A session. `mailbox` is the connected client's queue, `None` while it has no task. */
  datatype Session = Session(
    mailbox: Option<seq<Delivery>>,
    expiresAt: Option<nat>,
    generation: nat,
    snapshot: Option<SessionSnapshot>,
    offlineQueue: seq<Delivery>,
    pendingWill: Option<(Publish, nat)>,
    parked: bool,
    wakePending: bool)
  {
    /** Connected, with or without a running task. */
    predicate Online() {
      mailbox.Some? || parked
    }

    function Durable(): SessionSnapshot {
      if snapshot.Some? then snapshot.value else EMPTY_SNAPSHOT
    }
  }

  datatype UnparkCmd = Wake(client: ClientId) | CloseParked(client: ClientId, generation: nat)

  datatype SharedEvent = Join(group: string, client: ClientId) | Leave(group: string, client: ClientId)

  /** A session packed for another shard or for disk; its subscriptions have no order. */
  datatype MigratedSession = MigratedSession(
    subscriptions: set<Entry>,
    inflight: map<u16, InflightMessage>,
    incomingQos2: map<u16, Publish>,
    nextPkid: u16,
    offline: seq<Delivery>)

  datatype Control =
    | Shared(event: SharedEvent)
    | Claim(client: ClientId, requester: nat, resume: bool)
    | Handoff(client: ClientId, session: Option<MigratedSession>)

  /** A control message on its way out: to every other shard, or to one. */
  datatype Post = ToAll(msg: Control) | To(peer: nat, msg: Control)

  datatype Shard = Shard(
    sessions: map<ClientId, Session>,
    nextGeneration: nat,
    subs: set<Entry>,
    remote: map<string, set<ClientId>>,
    claims: map<ClientId, seq<Option<MigratedSession>>>,
    dirty: set<ClientId>,
    removed: set<ClientId>,
    unpark: seq<UnparkCmd>,
    outbox: seq<Post>)

  /** One client's part of the table. */
  datatype Slot = Slot(session: Option<Session>, subs: set<Entry>, dirty: bool, removed: bool)

  function SlotOf(s: Shard, c: ClientId): Slot {
    Slot(if c in s.sessions then Some(s.sessions[c]) else None,
         (set e | e in s.subs && e.sub.client == c),
         c in s.dirty, c in s.removed)
  }

  function WithSlot(s: Shard, c: ClientId, v: Slot): Shard {
    s.(sessions := if v.session.Some? then s.sessions[c := v.session.value] else s.sessions - {c},
       subs := Trie.TableDropClient(s.subs, c) + v.subs,
       dirty := if v.dirty then s.dirty + {c} else s.dirty - {c},
       removed := if v.removed then s.removed + {c} else s.removed - {c})
  }

  // --- operations --------------------------------------------------------------------

  datatype Op =
    | Open(clean: bool)
    | Park(g: nat, snapshot: SessionSnapshot)
    | Reattach(g: nat)
    | Suspend(g: nat, secs: u32)
    | Close(g: nat, secs: u32, snapshot: SessionSnapshot, pending: seq<Delivery>)
    | Subscribe(filter: string, sub: Subscription)
    | Unsubscribe(filter: string, group: Option<string>)
    | DropMailbox
    | ArmWill(g: nat, will: Publish, secs: u32)
    | Sweep
    | Deliver(d: Delivery)
    | Receive
    | Load(secs: u32, state: MigratedSession)
    | Claimed(requester: nat, resume: bool)
    | Install(state: MigratedSession)

  /** What an operation does: the client's slot after it, the commands it sends to the
      parking task and the control messages it sends to other shards. */
  datatype Outcome = Outcome(slot: Slot, cmds: seq<UnparkCmd>, posts: seq<Post>)

  function Marked(v: Slot, dirty: bool): Slot {
    v.(dirty := dirty, removed := !dirty)
  }

  predicate Holds(v: Slot, g: nat) {
    v.session.Some? && v.session.value.generation == g
  }

  function GroupsIn(subs: set<Entry>): set<string> {
    set e | e in subs && e.sub.group.Some? :: e.sub.group.value
  }

  function Notice(group: string, c: ClientId, join: bool): Post {
    ToAll(Shared(if join then Join(group, c) else Leave(group, c)))
  }

  /** One announcement per group, in sorted order. */
  ghost function Announce(groups: set<string>, c: ClientId, join: bool): (posts: seq<Post>)
    ensures |posts| == |groups|
    ensures forall i | 0 <= i < |posts| :: posts[i] == Notice(Order.Sorted(groups)[i], c, join)
  {
    var names := Order.Sorted(groups);
    seq(|names|, i requires 0 <= i < |names| => Notice(names[i], c, join))
  }

  /** Closing the dormant socket of a parked session. */
  function CloseCmds(v: Slot, c: ClientId): seq<UnparkCmd> {
    if v.session.Some? && v.session.value.parked then [CloseParked(c, v.session.value.generation)] else []
  }

  function Fresh(g: nat): Session {
    Session(Some([]), None, g, None, [], None, false, false)
  }

  ghost function ActOpen(v: Slot, c: ClientId, g: nat, clean: bool): Outcome {
    var cmds := CloseCmds(v, c);
    if v.session.None? then Outcome(v.(session := Some(Fresh(g))), cmds, [])
    else if clean then Outcome(Slot(Some(Fresh(g)), {}, false, true), cmds, [])
    else Outcome(Marked(v.(session := Some(Fresh(g))), false), cmds, Announce(GroupsIn(v.subs), c, true))
  }

  function ActPark(v: Slot, g: nat, snapshot: SessionSnapshot): Outcome {
    if Holds(v, g) && v.session.value.mailbox.Some? then
      Outcome(v.(session := Some(v.session.value.(mailbox := None, parked := true, wakePending := false,
                                                  snapshot := Some(snapshot), expiresAt := None))), [], [])
    else Outcome(v, [], [])
  }

  function ActReattach(v: Slot, g: nat): Outcome {
    if Holds(v, g) && v.session.value.parked then
      Outcome(v.(session := Some(v.session.value.(mailbox := Some([]), parked := false, wakePending := false,
                                                  snapshot := None, offlineQueue := []))), [], [])
    else Outcome(v, [], [])
  }

  function Deadline(secs: u32, now: nat): Option<nat> {
    if secs == SESSION_NEVER_EXPIRES then None else Some(now + secs * SECOND)
  }

  const GONE := Slot(None, {}, false, true)

  ghost function ActSuspend(v: Slot, c: ClientId, g: nat, secs: u32, now: nat): Outcome {
    if Holds(v, g) && v.session.value.parked then
      var x := v.session.value.(parked := false, wakePending := false, expiresAt := Deadline(secs, now));
      Outcome(if secs == 0 then GONE else Marked(v.(session := Some(x)), true),
              [], Announce(GroupsIn(v.subs), c, false))
    else Outcome(v, [], [])
  }

  ghost function ActClose(v: Slot, c: ClientId, g: nat, secs: u32, snapshot: SessionSnapshot,
                          pending: seq<Delivery>, now: nat): Outcome {
    if Holds(v, g) then
      var x := v.session.value;
      var x' := x.(mailbox := None, snapshot := Some(snapshot), offlineQueue := pending + x.offlineQueue,
                   expiresAt := Deadline(secs, now));
      Outcome(if secs == 0 then GONE else Marked(v.(session := Some(x')), true),
              [], Announce(GroupsIn(v.subs), c, false))
    else Outcome(v, [], [])
  }

  /** Whether no stored entry has this filter and group. */
  predicate IsNew(subs: set<Entry>, filter: string, c: ClientId, group: Option<string>) {
    forall e | e in subs :: !(e.filter == filter && Trie.Same(e.sub, c, group))
  }

  function ActSubscribe(v: Slot, c: ClientId, filter: string, sub: Subscription): Outcome {
    Outcome(v.(subs := Trie.TableDrop(v.subs, filter, c, sub.group) + {Entry(filter, sub.(client := c))}), [],
            if sub.group.Some? && IsNew(v.subs, filter, c, sub.group) then [Notice(sub.group.value, c, true)] else [])
  }

  function ActUnsubscribe(v: Slot, c: ClientId, filter: string, group: Option<string>): Outcome {
    var left := Trie.TableDrop(v.subs, filter, c, group);
    Outcome(v.(subs := left), [],
            if group.Some? && left != v.subs && group.value !in GroupsIn(left) then [Notice(group.value, c, false)] else [])
  }

  function ActDropMailbox(v: Slot): Outcome {
    Outcome(if v.session.Some? then v.(session := Some(v.session.value.(mailbox := None))) else v, [], [])
  }

  function ActArmWill(v: Slot, g: nat, will: Publish, secs: u32, now: nat): Outcome {
    Outcome(if Holds(v, g) then v.(session := Some(v.session.value.(pendingWill := Some((will, now + secs * SECOND))))) else v,
            [], [])
  }

  predicate Expired(x: Session, now: nat) {
    x.mailbox.None? && x.expiresAt.Some? && x.expiresAt.value <= now
  }

  function WillFired(x: Session, now: nat): Session {
    if x.pendingWill.Some? && x.pendingWill.value.1 <= now then x.(pendingWill := None) else x
  }

  function ActSweep(v: Slot, now: nat): Outcome {
    Outcome(if v.session.None? then v
            else if Expired(v.session.value, now) then GONE
            else v.(session := Some(WillFired(v.session.value, now))), [], [])
  }

  /** Appends to a bounded queue that drops its oldest element when full. */
  function PushBounded(q: seq<Delivery>, d: Delivery): (r: seq<Delivery>)
    ensures |r| == if |q| < OFFLINE_QUEUE_LIMIT then |q| + 1 else |q|
  {
    (if |q| >= OFFLINE_QUEUE_LIMIT then q[1..] else q) + [d]
  }

  /** The queue keeps the newest messages, in order: what is lost is lost from the front. */
  lemma PushKeepsNewest(q: seq<Delivery>, d: Delivery)
    ensures PushBounded(q, d) == (q + [d])[|q| + 1 - |PushBounded(q, d)|..]
  {
  }

  function ActDeliver(v: Slot, c: ClientId, d: Delivery): Outcome {
    if v.session.None? then Outcome(v, [], [])
    else
      var x := v.session.value;
      if x.mailbox.Some? then
        Outcome(if |x.mailbox.value| < MAILBOX_LIMIT then v.(session := Some(x.(mailbox := Some(x.mailbox.value + [d])))) else v,
                [], [])
      else if x.parked then
        Outcome(v.(session := Some(x.(offlineQueue := PushBounded(x.offlineQueue, d), wakePending := true))),
                if x.wakePending then [] else [Wake(c)], [])
      else if d.qos != AtMostOnce then
        Outcome(Marked(v.(session := Some(x.(offlineQueue := PushBounded(x.offlineQueue, d)))), true), [], [])
      else Outcome(v, [], [])
  }

  /** The connection takes the next delivery from its mailbox. */
  function ActReceive(v: Slot): Outcome {
    if v.session.Some? && v.session.value.mailbox.Some? && v.session.value.mailbox.value != [] then
      Outcome(v.(session := Some(v.session.value.(mailbox := Some(v.session.value.mailbox.value[1..])))), [], [])
    else Outcome(v, [], [])
  }

  /** A subscription as it is stored again: under this client, and No Local never on a shared one. */
  function Rearmed(e: Entry, c: ClientId): Entry {
    Entry(e.filter, e.sub.(client := c, noLocal := e.sub.noLocal && e.sub.group.None?))
  }

  function RearmAll(es: set<Entry>, c: ClientId): set<Entry> {
    set e | e in es :: Rearmed(e, c)
  }

  /** Adds subscriptions, replacing those with the same filter and group. */
  function InsertAll(subs: set<Entry>, added: set<Entry>): set<Entry> {
    (set e | e in subs && forall a | a in added :: !(e.filter == a.filter && Trie.Same(e.sub, a.sub.client, a.sub.group)))
    + added
  }

  predicate SameKey(a: Entry, b: Entry) {
    a.filter == b.filter && a.sub.group == b.sub.group
  }

  /** A client's list of subscriptions as storing them in turn leaves them: the last of each filter and
      group counts. */
  function Latest(es: seq<Entry>): set<Entry> {
    if es == [] then {}
    else
      var last := es[|es| - 1];
      (set e | e in Latest(es[..|es| - 1]) && !SameKey(e, last)) + {last}
  }

  lemma {:induction false} LatestIsListed(es: seq<Entry>)
    ensures forall e | e in Latest(es) :: e in es
    ensures forall a, b | a in Latest(es) && b in Latest(es) && SameKey(a, b) :: a == b
  {
    if es != [] { LatestIsListed(es[..|es| - 1]); }
  }

  /** No later one in the list has its filter and group. */
  predicate IsLast(es: seq<Entry>, i: nat)
    requires i < |es|
  {
    forall j | i < j < |es| :: !SameKey(es[j], es[i])
  }

  /** Of those with the same filter and group, the last one counts. */
  lemma {:induction false} LatestIsLast(es: seq<Entry>, e: Entry)
    ensures e in Latest(es) <==> exists i :: 0 <= i < |es| && es[i] == e && IsLast(es, i)
  {
    if es != [] {
      var n := |es| - 1;
      var front := es[..n];
      LatestIsLast(front, e);
      if i :| 0 <= i < n && front[i] == e && IsLast(front, i) {
        assert es[i] == e && (!SameKey(e, es[n]) ==> IsLast(es, i));
      }
      if e == es[n] { assert IsLast(es, n); }
      if i :| 0 <= i < |es| && es[i] == e && IsLast(es, i) {
        if i < n { assert front[i] == e && IsLast(front, i) && !SameKey(es[n], es[i]); }
      }
    }
  }

  /** Nothing is lost exactly if equal filter and group mean equal subscriptions. */
  lemma {:induction false} LatestIsAll(es: seq<Entry>)
    ensures (forall e | e in es :: e in Latest(es)) <==> forall a, b | a in es && b in es && SameKey(a, b) :: a == b
  {
    LatestIsListed(es);
    if es != [] && forall a, b | a in es && b in es && SameKey(a, b) :: a == b {
      var front := es[..|es| - 1];
      assert es == front + [es[|es| - 1]];
      assert forall e | e in front :: e in es;
      LatestIsAll(front);
    }
  }

  /** A persisted session comes back suspended, under a new generation. */
  function ActLoad(v: Slot, c: ClientId, g: nat, secs: u32, m: MigratedSession, now: nat): Outcome {
    Outcome(v.(session := Some(Session(None, Deadline(secs, now), g,
                                       Some(SessionSnapshot(m.inflight, m.incomingQos2, m.nextPkid)), m.offline,
                                       None, false, false)),
               subs := InsertAll(v.subs, RearmAll(m.subscriptions, c))), [], [])
  }

  /** A session's durable state, without its expiry. */
  function Packed(x: Session, subs: set<Entry>): MigratedSession {
    var d := x.Durable();
    MigratedSession(subs, d.inflight, d.incomingQos2, d.nextPkid, x.offlineQueue)
  }

  /** What a shard hands to a claimant. */
  function HandedOver(v: Slot, resume: bool): Option<MigratedSession> {
    if v.session.Some? && v.session.value.mailbox.None? && resume then Some(Packed(v.session.value, v.subs)) else None
  }

  function ActClaimed(v: Slot, c: ClientId, requester: nat, resume: bool): Outcome {
    Outcome(if v.session.Some? then GONE else v, CloseCmds(v, c), [To(requester, Handoff(c, HandedOver(v, resume)))])
  }

  ghost function ActInstall(v: Slot, c: ClientId, m: MigratedSession): Outcome {
    var v' := v.(subs := InsertAll(v.subs, RearmAll(m.subscriptions, c)));
    Outcome(v', [], Announce(GroupsIn(v'.subs), c, true))
  }

  /** One operation on a slot; `g` is the generation a new session would get. */
  ghost function Act(v: Slot, c: ClientId, g: nat, op: Op, now: nat): Outcome {
    match op
    case Open(clean) => ActOpen(v, c, g, clean)
    case Park(h, snapshot) => ActPark(v, h, snapshot)
    case Reattach(h) => ActReattach(v, h)
    case Suspend(h, secs) => ActSuspend(v, c, h, secs, now)
    case Close(h, secs, snapshot, pending) => ActClose(v, c, h, secs, snapshot, pending, now)
    case Subscribe(filter, sub) => ActSubscribe(v, c, filter, sub)
    case Unsubscribe(filter, group) => ActUnsubscribe(v, c, filter, group)
    case DropMailbox => ActDropMailbox(v)
    case ArmWill(h, will, secs) => ActArmWill(v, h, will, secs, now)
    case Sweep => ActSweep(v, now)
    case Deliver(d) => ActDeliver(v, c, d)
    case Receive => ActReceive(v)
    case Load(secs, m) => ActLoad(v, c, g, secs, m, now)
    case Claimed(requester, resume) => ActClaimed(v, c, requester, resume)
    case Install(m) => ActInstall(v, c, m)
  }

  /** The operations that use up a generation number. */
  predicate Allocates(op: Op) {
    op.Open? || op.Load?
  }

  ghost function Outcomes(s: Shard, c: ClientId, op: Op, now: nat): Outcome {
    Act(SlotOf(s, c), c, s.nextGeneration + 1, op, now)
  }

  /** One operation on the shard, for one client, at a clock reading. */
  ghost function Step(s: Shard, c: ClientId, op: Op, now: nat): Shard {
    var o := Outcomes(s, c, op, now);
    WithSlot(s, c, o.slot).(nextGeneration := if Allocates(op) then s.nextGeneration + 1 else s.nextGeneration,
                            unpark := s.unpark + o.cmds,
                            outbox := s.outbox + o.posts)
  }

  // --- mesh input --------------------------------------------------------------------

  function ViewJoin(remote: map<string, set<ClientId>>, group: string, c: ClientId): map<string, set<ClientId>> {
    remote[group := (if group in remote then remote[group] else {}) + {c}]
  }

  function ViewLeave(remote: map<string, set<ClientId>>, group: string, c: ClientId): map<string, set<ClientId>> {
    if group !in remote then remote
    else if remote[group] - {c} == {} then remote - {group}
    else remote[group := remote[group] - {c}]
  }

  function ApplyShared(s: Shard, e: SharedEvent): Shard {
    match e
    case Join(group, c) => s.(remote := ViewJoin(s.remote, group, c))
    case Leave(group, c) => s.(remote := ViewLeave(s.remote, group, c))
  }

  function OnHandoff(s: Shard, c: ClientId, session: Option<MigratedSession>): Shard {
    if c in s.claims then s.(claims := s.claims[c := s.claims[c] + [session]]) else s
  }

  // --- every operation is local to its client ------------------------------------------

  predicate OwnSubs(v: Slot, c: ClientId) {
    forall e | e in v.subs :: e.sub.client == c
  }

  lemma ActOwnsSubs(v: Slot, c: ClientId, g: nat, op: Op, now: nat)
    requires OwnSubs(v, c)
    ensures OwnSubs(Act(v, c, g, op, now).slot, c)
  {
  }

  /** An operation replaces its client's slot and leaves every other slot alone. */
  lemma StepIsLocal(s: Shard, c: ClientId, op: Op, now: nat, d: ClientId)
    ensures SlotOf(Step(s, c, op, now), d) == if d == c then Outcomes(s, c, op, now).slot else SlotOf(s, d)
  {
    ActOwnsSubs(SlotOf(s, c), c, s.nextGeneration + 1, op, now);
    WithSlotIsLocal(s, c, Outcomes(s, c, op, now).slot, d);
  }

  lemma WithSlotIsLocal(s: Shard, c: ClientId, v: Slot, d: ClientId)
    requires OwnSubs(v, c)
    ensures SlotOf(WithSlot(s, c, v), d) == if d == c then v else SlotOf(s, d)
  {
  }
}
