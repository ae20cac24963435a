/** The shard object. Its methods change the session table, the topic index and the queues in
    place; each is proved to be one step of `ShardModel` (or a run of steps) on what the object
    stands for. */
module ShardState {
  import opened Types
  import opened Deliveries
  import opened ShardModel
  import opened Generations
  import opened SessionCodec
  import opened Wal
  import opened Codec
  import CrashConsistency
  import DiskReader
  import Order
  import Routing
  import SharedPick
  import Topics
  import opened Trie
  import opened Wills

  // --- steps as field updates ----------------------------------------------------------------

  function Mark(s: Shard, c: ClientId, dirty: bool): Shard {
    if dirty then s.(dirty := s.dirty + {c}, removed := s.removed - {c})
    else s.(dirty := s.dirty - {c}, removed := s.removed + {c})
  }

  /** Only the session changes. */
  lemma SlotSession(s: Shard, c: ClientId, x: Session)
    ensures WithSlot(s, c, SlotOf(s, c).(session := Some(x))) == s.(sessions := s.sessions[c := x])
  {
    SlotSubs(s, c);
  }

  lemma SlotMarked(s: Shard, c: ClientId, x: Session, dirty: bool)
    ensures WithSlot(s, c, Marked(SlotOf(s, c).(session := Some(x)), dirty)) == Mark(s.(sessions := s.sessions[c := x]), c, dirty)
  {
    SlotSubs(s, c);
  }

  lemma SlotSubs(s: Shard, c: ClientId)
    ensures TableDropClient(s.subs, c) + SlotOf(s, c).subs == s.subs
  {
    forall e ensures e in TableDropClient(s.subs, c) + SlotOf(s, c).subs <==> e in s.subs {}
  }

  lemma SlotGone(s: Shard, c: ClientId)
    ensures WithSlot(s, c, GONE) == Mark(s.(sessions := s.sessions - {c}, subs := TableDropClient(s.subs, c)), c, false)
  {
  }

  lemma SlotCleaned(s: Shard, c: ClientId, x: Session)
    ensures WithSlot(s, c, Slot(Some(x), {}, false, true))
         == Mark(s.(sessions := s.sessions[c := x], subs := TableDropClient(s.subs, c)), c, false)
  {
  }

  lemma SlotNewSubs(s: Shard, c: ClientId, subs: set<Entry>)
    ensures WithSlot(s, c, SlotOf(s, c).(subs := subs)) == s.(subs := TableDropClient(s.subs, c) + subs)
  {
    assert c in s.sessions ==> s.sessions[c := s.sessions[c]] == s.sessions;
    assert c !in s.sessions ==> s.sessions - {c} == s.sessions;
  }

  lemma SlotUnchanged(s: Shard, c: ClientId)
    ensures WithSlot(s, c, SlotOf(s, c)) == s
  {
    WithOwnSlot(s, c);
  }

  lemma OwnDrop(t: set<Entry>, c: ClientId, filter: string, group: Option<string>)
    ensures TableDropClient(t, c) + TableDrop(OwnEntries(t, c), filter, c, group) == TableDrop(t, filter, c, group)
  {
  }

  function Unparked(s: Shard, c: ClientId): Shard {
    if c in s.sessions && s.sessions[c].parked then
      s.(unpark := s.unpark + [CloseParked(c, s.sessions[c].generation)],
         sessions := s.sessions[c := s.sessions[c].(parked := false, wakePending := false)])
    else s
  }

  function AsSet(es: seq<Entry>): set<Entry> {
    set e | e in es
  }

  /** What follows puts another session, or none, in its place. */
  lemma UnparkedThen(s: Shard, c: ClientId, x: Session)
    ensures Unparked(s, c).unpark == s.unpark + CloseCmds(SlotOf(s, c), c)
    ensures Unparked(s, c).sessions[c := x] == s.sessions[c := x] && Unparked(s, c).sessions - {c} == s.sessions - {c}
    ensures c in s.sessions ==> c in Unparked(s, c).sessions && Unparked(s, c).sessions[c].Durable() == s.sessions[c].Durable()
  {
  }

  lemma OpenAnew(s: Shard, c: ClientId, clean: bool)
    requires c !in s.sessions
    ensures Step(s, c, Open(clean), 0)
         == s.(nextGeneration := s.nextGeneration + 1, sessions := s.sessions[c := Fresh(s.nextGeneration + 1)])
  {
    SlotSession(s, c, Fresh(s.nextGeneration + 1));
  }

  lemma OpenOver(s: Shard, c: ClientId)
    requires c in s.sessions
    ensures Step(s, c, Open(true), 0)
         == Mark(s.(nextGeneration := s.nextGeneration + 1, sessions := s.sessions[c := Fresh(s.nextGeneration + 1)],
                    subs := TableDropClient(s.subs, c), unpark := s.unpark + CloseCmds(SlotOf(s, c), c)), c, false)
  {
    SlotCleaned(s, c, Fresh(s.nextGeneration + 1));
  }

  lemma OpenAgain(s: Shard, c: ClientId)
    requires c in s.sessions
    ensures Step(s, c, Open(false), 0)
         == Mark(s.(nextGeneration := s.nextGeneration + 1, sessions := s.sessions[c := Fresh(s.nextGeneration + 1)],
                    unpark := s.unpark + CloseCmds(SlotOf(s, c), c),
                    outbox := s.outbox + Announce(GroupsIn(OwnEntries(s.subs, c)), c, true)), c, false)
  {
    SlotMarked(s, c, Fresh(s.nextGeneration + 1), false);
  }

  lemma CloseStep(s: Shard, c: ClientId, op: Op, now: nat)
    requires op.Close? && Current(s, c, op.g)
    ensures var posts := Announce(GroupsIn(OwnEntries(s.subs, c)), c, false);
            var x := s.sessions[c].(mailbox := None, snapshot := Some(op.snapshot),
                                    offlineQueue := op.pending + s.sessions[c].offlineQueue, expiresAt := Deadline(op.secs, now));
            Step(s, c, op, now) == (if op.secs == 0 then WithSlot(s, c, GONE)
                                    else Mark(s.(sessions := s.sessions[c := x]), c, true)).(outbox := s.outbox + posts)
  {
    var x := s.sessions[c].(mailbox := None, snapshot := Some(op.snapshot),
                            offlineQueue := op.pending + s.sessions[c].offlineQueue, expiresAt := Deadline(op.secs, now));
    SlotMarked(s, c, x, true);
  }

  lemma SuspendStep(s: Shard, c: ClientId, g: nat, secs: u32, now: nat)
    requires Current(s, c, g) && s.sessions[c].parked
    ensures var posts := Announce(GroupsIn(OwnEntries(s.subs, c)), c, false);
            var x := s.sessions[c].(parked := false, wakePending := false, expiresAt := Deadline(secs, now));
            Step(s, c, Suspend(g, secs), now) == (if secs == 0 then WithSlot(s, c, GONE)
                                                  else Mark(s.(sessions := s.sessions[c := x]), c, true)).(outbox := s.outbox + posts)
  {
    SlotMarked(s, c, s.sessions[c].(parked := false, wakePending := false, expiresAt := Deadline(secs, now)), true);
  }

  lemma ClaimStep(s: Shard, c: ClientId, requester: nat, resume: bool)
    ensures var out := s.outbox + [To(requester, Handoff(c, HandedOver(SlotOf(s, c), resume)))];
            Step(s, c, Claimed(requester, resume), 0)
            == if c in s.sessions
               then WithSlot(s, c, GONE).(outbox := out, unpark := s.unpark + CloseCmds(SlotOf(s, c), c))
               else s.(outbox := out)
  {
    SlotUnchanged(s, c);
  }

  /** A Join, for the client's first subscription of this filter in the group. */
  function Joining(own: set<Entry>, c: ClientId, filter: string, group: Option<string>): seq<Post> {
    if group.Some? && IsNew(own, filter, c, group) then [Notice(group.value, c, true)] else []
  }

  lemma SubscribeStep(s: Shard, c: ClientId, filter: string, sub: Subscription)
    ensures Step(s, c, Op.Subscribe(filter, sub), 0)
         == s.(subs := TableDrop(s.subs, filter, c, sub.group) + {Entry(filter, sub.(client := c))},
               outbox := s.outbox + Joining(OwnEntries(s.subs, c), c, filter, sub.group))
  {
    var own := OwnEntries(s.subs, c);
    var after := TableDrop(own, filter, c, sub.group) + {Entry(filter, sub.(client := c))};
    OwnDrop(s.subs, c, filter, sub.group);
    SlotNewSubs(s, c, after);
    SlotSubs(s, c);
    assert TableDropClient(s.subs, c) + after == TableDrop(s.subs, filter, c, sub.group) + {Entry(filter, sub.(client := c))};
  }

  /** A Leave, once the client's last subscription in the group is gone. */
  function Leaving(before: set<Entry>, left: set<Entry>, c: ClientId, group: Option<string>): seq<Post> {
    if group.Some? && left != before && group.value !in GroupsIn(OwnEntries(left, c)) then [Notice(group.value, c, false)] else []
  }

  lemma UnsubscribeStep(s: Shard, c: ClientId, filter: string, group: Option<string>)
    ensures Step(s, c, Op.Unsubscribe(filter, group), 0)
         == s.(subs := TableDrop(s.subs, filter, c, group),
               outbox := s.outbox + Leaving(s.subs, TableDrop(s.subs, filter, c, group), c, group))
  {
    var own := OwnEntries(s.subs, c);
    var left := TableDrop(own, filter, c, group);
    OwnDrop(s.subs, c, filter, group);
    SlotNewSubs(s, c, left);
    SlotSubs(s, c);
    assert OwnEntries(TableDrop(s.subs, filter, c, group), c) == left;
  }

  function Notices(groups: seq<string>, c: ClientId, join: bool): (posts: seq<Post>)
    ensures |posts| == |groups| && forall i | 0 <= i < |groups| :: posts[i] == Notice(groups[i], c, join)
  {
    seq(|groups|, i requires 0 <= i < |groups| => Notice(groups[i], c, join))
  }

  lemma NoticesAnnounce(names: set<string>, c: ClientId, join: bool)
    ensures Notices(Order.Sorted(names), c, join) == Announce(names, c, join)
  {
  }

  /** One more subscription of a list is stored over what the list before it left. */
  lemma RearmMore(t: set<Entry>, es: seq<Entry>, i: nat, c: ClientId)
    requires i < |es|
    ensures var f := Rearmed(es[i], c);
            TableDrop(InsertAll(t, RearmAll(Latest(es[..i]), c)), f.filter, c, f.sub.group) + {f}
            == InsertAll(t, RearmAll(Latest(es[..i + 1]), c))
  {
    var f, kept := Rearmed(es[i], c), set e | e in Latest(es[..i]) && !SameKey(e, es[i]);
    assert es[..i + 1][..i] == es[..i];
    assert RearmAll(Latest(es[..i + 1]), c) == RearmAll(kept, c) + {f};
    RearmKept(Latest(es[..i]), kept, es[i], c);
    InsertMore(t, RearmAll(Latest(es[..i]), c), RearmAll(kept, c), f, c);
  }

  lemma RearmKept(all: set<Entry>, kept: set<Entry>, e: Entry, c: ClientId)
    requires kept == set x | x in all && !SameKey(x, e)
    ensures RearmAll(kept, c) == set a | a in RearmAll(all, c) && !SameKey(a, e)
  {
    forall a | a in RearmAll(all, c) && !SameKey(a, e) ensures a in RearmAll(kept, c) {
      var x :| x in all && Rearmed(x, c) == a;
      assert x in kept;
    }
  }

  lemma InsertMore(t: set<Entry>, added: set<Entry>, kept: set<Entry>, f: Entry, c: ClientId)
    requires f.sub.client == c && forall a | a in added :: a.sub.client == c
    requires kept == set a | a in added && !SameKey(a, f)
    ensures TableDrop(InsertAll(t, added), f.filter, c, f.sub.group) + {f} == InsertAll(t, kept + {f})
  {
  }

  lemma OwnInsert(t: set<Entry>, added: set<Entry>, c: ClientId)
    requires forall a | a in added :: a.sub.client == c
    ensures TableDropClient(t, c) + InsertAll(OwnEntries(t, c), added) == InsertAll(t, added)
    ensures OwnEntries(InsertAll(t, added), c) == InsertAll(OwnEntries(t, c), added)
  {
  }

  lemma InstallStep(s: Shard, c: ClientId, m: MigratedSession)
    ensures var subs := InsertAll(s.subs, RearmAll(m.subscriptions, c));
            Step(s, c, Install(m), 0) == s.(subs := subs, outbox := s.outbox + Announce(GroupsIn(OwnEntries(subs, c)), c, true))
  {
    var added := RearmAll(m.subscriptions, c);
    var own := InsertAll(OwnEntries(s.subs, c), added);
    OwnInsert(s.subs, added, c);
    SlotNewSubs(s, c, own);
    assert Outcomes(s, c, Install(m), 0) == Outcome(SlotOf(s, c).(subs := own), [], Announce(GroupsIn(own), c, true));
    assert s.unpark + [] == s.unpark;
  }

  /** Loading into an empty slot fills that slot from the record and touches no other. */
  lemma LoadsInto(s: Shard, ps: PersistedSession, now: nat)
    requires SlotOf(s, ps.clientId) == CrashConsistency.EMPTY_SLOT
    ensures var c := ps.clientId;
            var t := Step(s, c, Load(ps.expirySecs, CrashConsistency.StateOf(ps, c)), now);
            && CrashConsistency.LoadedFrom(Some(ps), c, SlotOf(t, c), now)
            && forall d | d != c :: SlotOf(t, d) == SlotOf(s, d)
  {
    var c, op := ps.clientId, Load(ps.expirySecs, CrashConsistency.StateOf(ps, ps.clientId));
    StepIsLocal(s, c, op, now, c);
    forall d | d != c ensures SlotOf(Step(s, c, op, now), d) == SlotOf(s, d) { StepIsLocal(s, c, op, now, d); }
  }

  ghost predicate LoadedSoFar(m: Sessions, left: set<ClientId>, s: Shard, now: nat) {
    forall c :: if c in left then SlotOf(s, c) == CrashConsistency.EMPTY_SLOT
                else CrashConsistency.LoadedFrom(Lookup(m, c), c, SlotOf(s, c), now)
  }

  lemma LoadedMore(m: Sessions, left: set<ClientId>, s: Shard, c: ClientId, now: nat)
    requires LoadedSoFar(m, left, s, now) && c in left && c in m && m[c].clientId == c
    ensures LoadedSoFar(m, left - {c}, Step(s, c, Load(m[c].expirySecs, CrashConsistency.StateOf(m[c], c)), now), now)
  {
    LoadsInto(s, m[c], now);
  }

  /** The table with one record from disk loaded. */
  function WithLoaded(s: Shard, ps: PersistedSession, now: nat): Shard {
    var c := ps.clientId;
    s.(nextGeneration := s.nextGeneration + 1, subs := InsertAll(s.subs, RearmAll(Latest(CrashConsistency.EntriesOf(ps, c)), c)),
       sessions := s.sessions[c := Session(None, Deadline(ps.expirySecs, now), s.nextGeneration + 1,
                                           Some(SessionSnapshot(ps.inflight, ps.incomingQos2, ps.nextPkid)), ps.offline,
                                           None, false, false)])
  }

  lemma LoadStep(s: Shard, ps: PersistedSession, now: nat)
    ensures Step(s, ps.clientId, Load(ps.expirySecs, CrashConsistency.StateOf(ps, ps.clientId)), now) == WithLoaded(s, ps, now)
  {
    OwnInsert(s.subs, RearmAll(Latest(CrashConsistency.EntriesOf(ps, ps.clientId)), ps.clientId), ps.clientId);
  }

  // --- runs over several clients -----------------------------------------------------------------

  ghost function StepAll(s: Shard, clients: seq<ClientId>, op: Op, now: nat): Shard {
    if clients == [] then s
    else Step(StepAll(s, clients[..|clients| - 1], op, now), clients[|clients| - 1], op, now)
  }

  function AllDue(sessions: map<ClientId, Session>, clients: seq<ClientId>, now: nat): seq<Publish>
    requires forall c | c in clients :: c in sessions
  {
    if clients == [] then []
    else var n := |clients| - 1; AllDue(sessions, clients[..n], now) + DueWill(sessions[clients[n]], now)
  }

  function AllOwed(sessions: map<ClientId, Session>, clients: seq<ClientId>): seq<Publish>
    requires forall c | c in clients :: c in sessions
  {
    if clients == [] then []
    else var n := |clients| - 1; AllOwed(sessions, clients[..n]) + OwedWill(sessions[clients[n]])
  }

  lemma WillsMore(sessions: map<ClientId, Session>, clients: seq<ClientId>, i: nat, now: nat)
    requires i < |clients| && forall d | d in clients :: d in sessions
    ensures AllDue(sessions, clients[..i + 1], now) == AllDue(sessions, clients[..i], now) + DueWill(sessions[clients[i]], now)
    ensures AllOwed(sessions, clients[..i + 1]) == AllOwed(sessions, clients[..i]) + OwedWill(sessions[clients[i]])
  {
    assert clients[..i + 1][..i] == clients[..i];
  }

  /** The sessions past their deadline. */
  function Ending(sessions: map<ClientId, Session>, now: nat): set<ClientId> {
    set c | c in sessions && Expired(sessions[c], now)
  }

  function Fired(sessions: map<ClientId, Session>, now: nat): map<ClientId, Session> {
    map c | c in sessions :: WillFired(sessions[c], now)
  }

  /** What a sweep publishes, client by client. */
  function PerClient(s: Shard, clients: seq<ClientId>, now: nat): seq<Publish> {
    if clients == [] then []
    else var n := |clients| - 1; PerClient(s, clients[..n], now) + SweepPublishes(SlotOf(s, clients[n]), now)
  }

  function Expiring(s: Shard, clients: seq<ClientId>, now: nat): seq<ClientId>
    requires forall c | c in clients :: c in s.sessions
  {
    if clients == [] then []
    else
      var n := |clients| - 1;
      Expiring(s, clients[..n], now) + if Expired(s.sessions[clients[n]], now) then [clients[n]] else []
  }

  lemma {:induction false} ExpiringLists(s: Shard, clients: seq<ClientId>, now: nat)
    requires Distinct(clients) && forall c | c in clients :: c in s.sessions
    ensures Distinct(Expiring(s, clients, now))
    ensures forall c :: c in Expiring(s, clients, now) <==> c in clients && Expired(s.sessions[c], now)
  {
    if clients != [] {
      var n := |clients| - 1;
      assert clients == clients[..n] + [clients[n]];
      ExpiringLists(s, clients[..n], now);
    }
  }

  lemma OneClientSplits(s: Shard, c: ClientId, now: nat)
    requires c in s.sessions
    ensures SweepPublishes(SlotOf(s, c), now)
         == DueWill(s.sessions[c], now) + if Expired(s.sessions[c], now) then OwedWill(Fired(s.sessions, now)[c]) else []
  {
  }

  lemma {:induction false} PerClientSplits(s: Shard, clients: seq<ClientId>, now: nat)
    requires forall c | c in clients :: c in s.sessions
    ensures forall c | c in Expiring(s, clients, now) :: c in s.sessions
    ensures multiset(PerClient(s, clients, now))
         == multiset(AllDue(s.sessions, clients, now)) + multiset(AllOwed(Fired(s.sessions, now), Expiring(s, clients, now)))
  {
    if clients != [] {
      var n := |clients| - 1;
      PerClientSplits(s, clients[..n], now);
      OneClientSplits(s, clients[n], now);
      ExpiringMore(s, clients, now);
    }
  }

  lemma ExpiringMore(s: Shard, clients: seq<ClientId>, now: nat)
    requires clients != [] && (forall c | c in clients :: c in s.sessions)
    requires forall c | c in Expiring(s, clients[..|clients| - 1], now) :: c in s.sessions
    ensures forall c | c in Expiring(s, clients, now) :: c in s.sessions
    ensures var n := |clients| - 1;
            AllOwed(Fired(s.sessions, now), Expiring(s, clients, now))
            == AllOwed(Fired(s.sessions, now), Expiring(s, clients[..n], now))
               + if Expired(s.sessions[clients[n]], now) then OwedWill(Fired(s.sessions, now)[clients[n]]) else []
  {
    var before, c := Expiring(s, clients[..|clients| - 1], now), clients[|clients| - 1];
    assert (before + [c])[..|before|] == before;
    assert before + [] == before;
  }

  lemma {:induction false} OwedJoins(sessions: map<ClientId, Session>, a: seq<ClientId>, b: seq<ClientId>)
    requires forall c | c in a + b :: c in sessions
    ensures forall c | c in a :: c in sessions
    ensures forall c | c in b :: c in sessions
    ensures AllOwed(sessions, a + b) == AllOwed(sessions, a) + AllOwed(sessions, b)
    decreases |b|
  {
    assert forall c | c in a :: c in a + b;
    assert forall c | c in b :: c in a + b;
    if b == [] {
      assert a + b == a;
    } else {
      assert (a + b)[..|a + b| - 1] == a + b[..|b| - 1];
      OwedJoins(sessions, a, b[..|b| - 1]);
    }
  }

  lemma OwedWithout(sessions: map<ClientId, Session>, b: seq<ClientId>, i: nat)
    requires i < |b| && forall c | c in b :: c in sessions
    ensures forall c | c in b[..i] + b[i + 1..] :: c in sessions
    ensures multiset(AllOwed(sessions, b)) == multiset(AllOwed(sessions, b[..i] + b[i + 1..])) + multiset(OwedWill(sessions[b[i]]))
  {
    assert b == b[..i] + ([b[i]] + b[i + 1..]);
    OwedJoins(sessions, b[..i], [b[i]] + b[i + 1..]);
    OwedJoins(sessions, [b[i]], b[i + 1..]);
    OwedJoins(sessions, b[..i], b[i + 1..]);
    assert AllOwed(sessions, [b[i]]) == [] + OwedWill(sessions[b[i]]);
  }

  ghost predicate SameMembers(a: seq<ClientId>, b: seq<ClientId>) {
    forall c :: c in a <==> c in b
  }

  lemma WithoutOne(b: seq<ClientId>, i: nat) returns (rest: seq<ClientId>)
    requires Distinct(b) && i < |b|
    ensures rest == b[..i] + b[i + 1..] && Distinct(rest) && forall c :: c in rest <==> c in b && c != b[i]
  {
    rest := b[..i] + b[i + 1..];
    assert b == b[..i] + [b[i]] + b[i + 1..];
  }

  /** Two listings of the same, each without the first of one of them. */
  lemma BothWithout(a: seq<ClientId>, b: seq<ClientId>) returns (i: nat, c: seq<ClientId>, d: seq<ClientId>)
    requires Distinct(a) && Distinct(b) && SameMembers(a, b) && a != []
    ensures i < |b| && b[i] == a[0] && c == a[..0] + a[1..] && d == b[..i] + b[i + 1..]
    ensures Distinct(c) && Distinct(d) && SameMembers(c, d) && |c| < |a|
  {
    assert a[0] in b;
    i :| 0 <= i < |b| && b[i] == a[0];
    c := WithoutOne(a, 0);
    d := WithoutOne(b, i);
  }

  /** The order of the clients does not matter to what they owe in all. */
  lemma {:induction false} OwedInAnyOrder(sessions: map<ClientId, Session>, a: seq<ClientId>, b: seq<ClientId>)
    requires Distinct(a) && Distinct(b) && SameMembers(a, b) && (forall c | c in a :: c in sessions) && forall c | c in b :: c in sessions
    ensures multiset(AllOwed(sessions, a)) == multiset(AllOwed(sessions, b))
    decreases |a|
  {
    if a == [] {
      assert forall c :: c !in b;
    } else {
      var i, c, d := BothWithout(a, b);
      OwedWithout(sessions, a, 0);
      OwedWithout(sessions, b, i);
      OwedInAnyOrder(sessions, c, d);
    }
  }

  /** A sweep's two walks publish, in all, what each client's own sweep does. */
  lemma SweepIsPerClient(s: Shard, order: seq<ClientId>, ended: seq<ClientId>, now: nat)
    requires IsListing(order, s.sessions.Keys) && IsListing(ended, Ending(s.sessions, now))
    ensures forall c | c in ended :: c in Fired(s.sessions, now)
    ensures multiset(AllDue(s.sessions, order, now) + AllOwed(Fired(s.sessions, now), ended)) == multiset(PerClient(s, order, now))
  {
    PerClientSplits(s, order, now);
    ExpiringLists(s, order, now);
    OwedInAnyOrder(Fired(s.sessions, now), ended, Expiring(s, order, now));
  }

  /** The table without these clients, and their end logged. */
  function Ended(s: Shard, gone: set<ClientId>): Shard {
    s.(sessions := s.sessions - gone, subs := (set e | e in s.subs && e.sub.client !in gone),
       dirty := s.dirty - gone, removed := s.removed + gone)
  }

  function Upto(ids: seq<ClientId>, i: nat): set<ClientId>
    requires i <= |ids|
  {
    set k | 0 <= k < i :: ids[k]
  }

  lemma EndedMore(s: Shard, ids: seq<ClientId>, i: nat)
    requires i < |ids|
    ensures WithSlot(Ended(s, Upto(ids, i)), ids[i], GONE) == Ended(s, Upto(ids, i + 1))
  {
    assert Upto(ids, i + 1) == Upto(ids, i) + {ids[i]};
  }

  lemma EndedSpares(s: Shard, ids: seq<ClientId>, i: nat)
    requires Distinct(ids) && i < |ids| && ids[i] in s.sessions
    ensures ids[i] in Ended(s, Upto(ids, i)).sessions && Ended(s, Upto(ids, i)).sessions[ids[i]] == s.sessions[ids[i]]
  {
  }

  /** The sessions with the wills of the first `i` of these taken. */
  function FiredUpto(sessions: map<ClientId, Session>, ids: seq<ClientId>, i: nat, now: nat): map<ClientId, Session>
    requires i <= |ids|
  {
    map c | c in sessions :: if c in Upto(ids, i) then WillFired(sessions[c], now) else sessions[c]
  }

  lemma FiredMore(sessions: map<ClientId, Session>, ids: seq<ClientId>, i: nat, now: nat)
    requires Distinct(ids) && i < |ids| && ids[i] in sessions
    ensures FiredUpto(sessions, ids, i, now)[ids[i]] == sessions[ids[i]]
    ensures FiredUpto(sessions, ids, i + 1, now) == FiredUpto(sessions, ids, i, now)[ids[i] := WillFired(sessions[ids[i]], now)]
  {
    assert Upto(ids, i + 1) == Upto(ids, i) + {ids[i]};
  }

  lemma UptoAll(ids: seq<ClientId>, all: set<ClientId>)
    requires IsListing(ids, all)
    ensures Upto(ids, |ids|) == all && Upto(ids, 0) == {}
  {
  }

  /** The whole table after a sweep: wills fired, expired sessions gone. */
  function Swept(s: Shard, now: nat): Shard {
    Ended(s.(sessions := Fired(s.sessions, now)), Ending(s.sessions, now))
  }

  /** A sweep does to every client what the operation does to one. */
  lemma SweptAt(s: Shard, c: ClientId, g: nat, now: nat)
    ensures SlotOf(Swept(s, now), c) == Act(SlotOf(s, c), c, g, Sweep, now).slot
  {
  }

  /** The session table after these mailboxes have been dropped. */
  function Shed(sessions: map<ClientId, Session>, clients: seq<ClientId>): map<ClientId, Session> {
    map c | c in sessions :: if c in clients then sessions[c].(mailbox := None) else sessions[c]
  }

  lemma ShedMore(sessions: map<ClientId, Session>, clients: seq<ClientId>, c: ClientId)
    requires c in sessions
    ensures Shed(sessions, clients + [c]) == Shed(sessions, clients)[c := Shed(sessions, clients)[c].(mailbox := None)]
  {
    forall d ensures d in clients + [c] <==> d in clients || d == c {}
  }

  lemma {:induction false} ShedIsSteps(s: Shard, clients: seq<ClientId>)
    requires forall c | c in clients :: c in s.sessions
    ensures StepAll(s, clients, DropMailbox, 0) == s.(sessions := Shed(s.sessions, clients))
  {
    if clients == [] {
      assert Shed(s.sessions, []) == s.sessions;
    } else {
      var n := |clients| - 1;
      ShedIsSteps(s, clients[..n]);
      var t, c := StepAll(s, clients[..n], DropMailbox, 0), clients[n];
      SlotSession(t, c, t.sessions[c].(mailbox := None));
      ShedMore(s.sessions, clients[..n], c);
      assert clients[..n] + [c] == clients;
    }
  }

  // --- routing ------------------------------------------------------------------------------------

  ghost function SendAll(s: Shard, sends: seq<Routing.Send>): Shard {
    if sends == [] then s
    else
      var last := sends[|sends| - 1];
      Step(SendAll(s, sends[..|sends| - 1]), last.client, Deliver(last.delivery), 0)
  }

  lemma SendAllMore(s: Shard, sends: seq<Routing.Send>, send: Routing.Send)
    ensures SendAll(s, sends + [send]) == Step(SendAll(s, sends), send.client, Deliver(send.delivery), 0)
  {
    assert (sends + [send])[..|sends|] == sends;
  }

  /** The groups in turn; a group without a recipient here sends nothing. */
  ghost function SendSome(s: Shard, sends: seq<Option<Routing.Send>>): Shard {
    if sends == [] then s
    else
      var before, last := SendSome(s, sends[..|sends| - 1]), sends[|sends| - 1];
      if last.Some? then Step(before, last.value.client, Deliver(last.value.delivery), 0) else before
  }

  lemma SendSomeMore(s: Shard, sends: seq<Option<Routing.Send>>, send: Option<Routing.Send>, t: Shard)
    requires t == if send.Some? then Step(SendSome(s, sends), send.value.client, Deliver(send.value.delivery), 0) else SendSome(s, sends)
    ensures SendSome(s, sends + [send]) == t
  {
    assert (sends + [send])[..|sends|] == sends;
  }

  /** What is sent to one client, in order. */
  function SentTo(sends: seq<Option<Routing.Send>>, c: ClientId): seq<Delivery> {
    if sends == [] then []
    else
      var n := |sends| - 1;
      SentTo(sends[..n], c) + (if sends[n].Some? && sends[n].value.client == c then [sends[n].value.delivery] else [])
  }

  function AllSome(sends: seq<Routing.Send>): seq<Option<Routing.Send>> {
    seq(|sends|, i requires 0 <= i < |sends| => Some(sends[i]))
  }

  lemma {:induction false} SendSomeAt(s: Shard, sends: seq<Option<Routing.Send>>, c: ClientId)
    ensures SlotOf(SendSome(s, sends), c) == Gathered(SlotOf(s, c), c, SentTo(sends, c))
  {
    if sends != [] {
      var n := |sends| - 1;
      SendSomeAt(s, sends[..n], c);
      assert SentTo(sends[..n], c) + [] == SentTo(sends[..n], c);
      if sends[n].Some? {
        StepIsLocal(SendSome(s, sends[..n]), sends[n].value.client, Deliver(sends[n].value.delivery), 0, c);
        GatheredMore(SlotOf(s, c), c, SentTo(sends[..n], c), sends[n].value.delivery);
      }
    }
  }

  lemma {:induction false} SendAllIsSome(s: Shard, sends: seq<Routing.Send>)
    ensures SendAll(s, sends) == SendSome(s, AllSome(sends))
  {
    if sends != [] {
      var n := |sends| - 1;
      assert AllSome(sends)[..n] == AllSome(sends[..n]);
      SendAllIsSome(s, sends[..n]);
    }
  }

  /** Every client gathers what was sent to it, the ordinary copies before those of its groups. */
  lemma RoutedReaches(s: Shard, ordinary: seq<Routing.Send>, shared: seq<Option<Routing.Send>>, c: ClientId)
    ensures SlotOf(SendSome(SendAll(s, ordinary), shared), c)
         == Gathered(SlotOf(s, c), c, SentTo(AllSome(ordinary), c) + SentTo(shared, c))
  {
    SendAllIsSome(s, ordinary);
    SendSomeAt(s, AllSome(ordinary), c);
    SendSomeAt(SendAll(s, ordinary), shared, c);
    GatheredAgain(SlotOf(s, c), c, SentTo(AllSome(ordinary), c), SentTo(shared, c));
  }

  /** Nobody connects or disconnects, and the view of other shards stays. */
  ghost predicate KeepsConnections(s: Shard, t: Shard) {
    && s.remote == t.remote && s.sessions.Keys == t.sessions.Keys
    && forall c | c in s.sessions :: s.sessions[c].Online() == t.sessions[c].Online()
  }

  lemma KeepsTogether(s: Shard, t: Shard, u: Shard)
    requires KeepsConnections(s, t) && KeepsConnections(t, u)
    ensures KeepsConnections(s, u)
  {
  }

  lemma DeliverKeepsConnections(s: Shard, c: ClientId, d: Delivery)
    ensures KeepsConnections(s, Step(s, c, Deliver(d), 0))
  {
    var t := Step(s, c, Deliver(d), 0);
    forall e ensures (e in s.sessions <==> e in t.sessions) && (e in s.sessions ==> s.sessions[e].Online() == t.sessions[e].Online()) {
      StepIsLocal(s, c, Deliver(d), 0, e);
      assert SlotOf(t, e).session.Some? <==> e in t.sessions;
      assert SlotOf(s, e).session.Some? <==> e in s.sessions;
    }
  }

  lemma {:induction false} SendAllKeeps(s: Shard, sends: seq<Routing.Send>)
    ensures KeepsConnections(s, SendAll(s, sends))
  {
    if sends != [] {
      var n := |sends| - 1;
      SendAllKeeps(s, sends[..n]);
      DeliverKeepsConnections(SendAll(s, sends[..n]), sends[n].client, sends[n].delivery);
      KeepsTogether(s, SendAll(s, sends[..n]), SendAll(s, sends));
    }
  }

  function GroupNames(found: map<Routing.Key, Routing.Match>): set<string> {
    set key | key in found && key.0.Some? :: key.0.value
  }

  function CursorOf(cursors: map<string, nat>, g: string): nat {
    if g in cursors then cursors[g] else 0
  }

  function GroupIds(found: map<Routing.Key, Routing.Match>, g: string): set<ClientId> {
    set key | key in found && key.0 == Some(g) :: key.1
  }

  function OnlineOf(sessions: map<ClientId, Session>, ids: set<ClientId>): set<ClientId> {
    set c | c in ids && c in sessions && sessions[c].Online()
  }

  /** What the shard knows of a group when a publish has been matched. */
  function Known(s: Shard, found: map<Routing.Key, Routing.Match>, g: string, cursor: nat): SharedPick.Local {
    var ids := GroupIds(found, g);
    SharedPick.Local(ids, OnlineOf(s.sessions, ids), SharedPick.View(s, g), cursor)
  }

  /** A group's cursor after a publish has been routed. */
  function Turned(s: Shard, cursors: map<string, nat>, found: map<Routing.Key, Routing.Match>, g: string): nat {
    if g in GroupNames(found) then SharedPick.NextCursor(Known(s, found, g, CursorOf(cursors, g))) else CursorOf(cursors, g)
  }

  /** The cursors when the first `i` groups have been served. */
  ghost predicate TurnedUpto(s: Shard, before: map<string, nat>, now: map<string, nat>, found: map<Routing.Key, Routing.Match>,
                             names: seq<string>, i: nat)
    requires i <= |names|
  {
    forall g :: CursorOf(now, g) == if g in Upto(names, i) then Turned(s, before, found, g) else CursorOf(before, g)
  }

  /** The next group is still where it was, and the deliveries so far do not change what is known of it. */
  lemma TurnedNext(s: Shard, t: Shard, before: map<string, nat>, now: map<string, nat>, found: map<Routing.Key, Routing.Match>,
                   names: seq<string>, i: nat)
    requires i < |names| && Distinct(names) && TurnedUpto(s, before, now, found, names, i) && KeepsConnections(s, t)
    requires names[i] in GroupNames(found)
    ensures CursorOf(now, names[i]) == CursorOf(before, names[i])
    ensures Turned(s, before, found, names[i]) == SharedPick.NextCursor(Known(t, found, names[i], CursorOf(now, names[i])))
  {
    assert names[i] !in Upto(names, i);
    SameKnown(s, t, found, names[i], CursorOf(before, names[i]));
  }

  lemma TurnedMore(s: Shard, before: map<string, nat>, was: map<string, nat>, now: map<string, nat>,
                   found: map<Routing.Key, Routing.Match>, names: seq<string>, i: nat)
    requires i < |names| && TurnedUpto(s, before, was, found, names, i)
    requires CursorOf(now, names[i]) == Turned(s, before, found, names[i])
    requires forall h | h != names[i] :: CursorOf(now, h) == CursorOf(was, h)
    ensures TurnedUpto(s, before, now, found, names, i + 1)
  {
    assert Upto(names, i + 1) == Upto(names, i) + {names[i]};
  }

  lemma SameKnown(s: Shard, t: Shard, found: map<Routing.Key, Routing.Match>, g: string, cursor: nat)
    requires KeepsConnections(s, t)
    ensures Known(s, found, g, cursor) == Known(t, found, g, cursor)
  {
  }

  lemma PickIsCandidate(l: SharedPick.Local, hash: nat)
    requires l.online <= l.ids && SharedPick.Pick(l, hash).Some?
    ensures SharedPick.Pick(l, hash).value in l.ids
  {
  }

  /** A group's delivery: to the member this shard picks, with the options collapsed for it. */
  ghost function SendFor(g: string, s: Shard, cursors: map<string, nat>, found: map<Routing.Key, Routing.Match>, p: Publish,
                         wasRetained: bool, hash: nat): Option<Routing.Send>
  {
    var l := Known(s, found, g, CursorOf(cursors, g));
    match SharedPick.Pick(l, hash)
    case None => None
    case Some(c) =>
      PickIsCandidate(l, hash);
      Some(Routing.Send(c, Routing.Made(found[(Some(g), c)], p, wasRetained)))
  }

  /** Each group's delivery is the one this shard picks for it. */
  ghost predicate AllPicked(order: seq<string>, sends: seq<Option<Routing.Send>>, s: Shard, cursors: map<string, nat>,
                            found: map<Routing.Key, Routing.Match>, p: Publish, wasRetained: bool, hash: nat)
  {
    |order| == |sends| && forall i | 0 <= i < |order| :: sends[i] == SendFor(order[i], s, cursors, found, p, wasRetained, hash)
  }

  lemma AllPickedMore(order: seq<string>, sends: seq<Option<Routing.Send>>, g: string, send: Option<Routing.Send>, s: Shard,
                      cursors: map<string, nat>, found: map<Routing.Key, Routing.Match>, p: Publish, wasRetained: bool, hash: nat)
    requires AllPicked(order, sends, s, cursors, found, p, wasRetained, hash)
    requires send == SendFor(g, s, cursors, found, p, wasRetained, hash)
    ensures AllPicked(order + [g], sends + [send], s, cursors, found, p, wasRetained, hash)
  {
  }

  lemma SameSendFor(g: string, s: Shard, t: Shard, a: map<string, nat>, b: map<string, nat>, found: map<Routing.Key, Routing.Match>,
                    p: Publish, wasRetained: bool, hash: nat)
    requires KeepsConnections(s, t) && CursorOf(a, g) == CursorOf(b, g)
    ensures SendFor(g, s, a, found, p, wasRetained, hash) == SendFor(g, t, b, found, p, wasRetained, hash)
  {
    SameKnown(s, t, found, g, CursorOf(a, g));
  }

  lemma SameAllPicked(order: seq<string>, sends: seq<Option<Routing.Send>>, s: Shard, t: Shard, cursors: map<string, nat>,
                      found: map<Routing.Key, Routing.Match>, p: Publish, wasRetained: bool, hash: nat)
    requires AllPicked(order, sends, t, cursors, found, p, wasRetained, hash) && KeepsConnections(s, t)
    ensures AllPicked(order, sends, s, cursors, found, p, wasRetained, hash)
  {
    forall i | 0 <= i < |order| ensures sends[i] == SendFor(order[i], s, cursors, found, p, wasRetained, hash) {
      SameSendFor(order[i], s, t, cursors, cursors, found, p, wasRetained, hash);
    }
  }

  /** What `route` knows of a group is what the shard table says: the pick theorems speak of this. */
  lemma KnownIsLocal(root: Node, s: Shard, found: map<Routing.Key, Routing.Match>, g: string, topic: string, cursor: nat)
    requires Trie.Valid(root) && s.subs == Table(root) && Topics.WildcardFree(topic) && ValidFilters(Table(root))
    requires Routing.Collapsed(found, Match(root, Topics.Split(topic), WildAllowed(topic)))
    ensures Known(s, found, g, cursor) == SharedPick.LocalOf(s, g, topic, cursor)
  {
    var subs := Match(root, Topics.Split(topic), WildAllowed(topic));
    var ids := GroupIds(found, g);
    forall c ensures c in ids <==> c in SharedPick.Candidates(s, g, topic) {
      var key: Routing.Key := (Some(g), c);
      assert c in ids <==> key in found;
      assert key in found <==> Routing.HasKey(subs, key);
      KeyIsCandidate(root, s, g, topic, c);
    }
    assert ids == SharedPick.Candidates(s, g, topic);
  }

  lemma KeyIsCandidate(root: Node, s: Shard, g: string, topic: string, c: ClientId)
    requires Trie.Valid(root) && s.subs == Table(root) && Topics.WildcardFree(topic) && ValidFilters(Table(root))
    ensures Routing.HasKey(Match(root, Topics.Split(topic), WildAllowed(topic)), (Some(g), c)) <==> c in SharedPick.Candidates(s, g, topic)
  {
    var subs := Match(root, Topics.Split(topic), WildAllowed(topic));
    var key: Routing.Key := (Some(g), c);
    if Routing.HasKey(subs, key) {
      var k :| 0 <= k < |subs| && Routing.KeyOf(subs[k]) == key;
      MatchIsTableScan(root, topic, subs[k]);
      var f :| Entry(f, subs[k]) in Table(root) && Topics.Matches(f, topic);
      assert Entry(f, subs[k]) in s.subs;
    }
    if c in SharedPick.Candidates(s, g, topic) {
      var e :| e in s.subs && e.sub.group == Some(g) && Topics.Matches(e.filter, topic) && e.sub.client == c;
      assert e == Entry(e.filter, e.sub);
      MatchIsTableScan(root, topic, e.sub);
      var k :| 0 <= k < |subs| && subs[k] == e.sub;
    }
  }

  class ShardState {
    const trie: TopicTrie
    var sessions: map<ClientId, Session>
    var nextGeneration: nat
    var remote: map<string, set<ClientId>>
    var claims: map<ClientId, seq<Option<MigratedSession>>>
    var dirty: set<ClientId>
    var removed: set<ClientId>
    var unpark: seq<UnparkCmd>
    var outbox: seq<Post>
    /** Round-robin positions of purely local groups. */
    var cursors: map<string, nat>

    ghost predicate Valid()
      reads this, trie
    {
      trie.Ok()
    }

    /** The table this object stands for. */
    ghost function View(): Shard
      reads this, trie
    {
      Shard(sessions, nextGeneration, Table(trie.root), remote, claims, dirty, removed, unpark, outbox)
    }

    constructor ()
      ensures Valid() && fresh(trie)
      ensures View() == Shard(map[], 0, {}, map[], map[], {}, {}, [], [])
    {
      trie := new TopicTrie();
      sessions, nextGeneration, remote, claims, dirty, removed, unpark, outbox := map[], 0, map[], map[], {}, {}, [], [];
      cursors := map[];
    }

    // --- helpers -------------------------------------------------------------------------

    method WalDirty(c: ClientId)
      modifies this`dirty, this`removed
      ensures View() == Mark(old(View()), c, true)
    {
      removed := removed - {c};
      dirty := dirty + {c};
    }

    method WalRemoved(c: ClientId)
      modifies this`dirty, this`removed
      ensures View() == Mark(old(View()), c, false)
    {
      dirty := dirty - {c};
      removed := removed + {c};
    }

    method SharedGroupsOf(c: ClientId) returns (groups: seq<string>)
      requires Valid()
      ensures groups == Order.Sorted(GroupsIn(OwnEntries(View().subs, c)))
    {
      var subs := trie.ClientSubscriptions(c);
      ghost var own := OwnEntries(View().subs, c);
      assert forall e :: e in subs <==> e in own;
      var names := set e | e in subs && e.sub.group.Some? :: e.sub.group.value;
      assert names == GroupsIn(own);
      groups := Order.Sort(names);
    }

    /** One announcement per group, to every peer. */
    method Broadcast(groups: seq<string>, c: ClientId, join: bool)
      modifies this`outbox
      ensures View() == old(View()).(outbox := old(outbox) + Notices(groups, c, join))
    {
      ghost var posts := Notices(groups, c, join);
      for i := 0 to |groups|
        invariant outbox == old(outbox) + posts[..i]
      {
        outbox := outbox + [Notice(groups[i], c, join)];
        assert posts[..i + 1] == posts[..i] + [posts[i]];
      }
      assert posts[..|groups|] == posts;
    }

    /** The client is a connected member of its groups. */
    method Rejoin(c: ClientId)
      requires Valid()
      modifies this`outbox
      ensures Valid()
      ensures View() == old(View()).(outbox := old(outbox) + Announce(GroupsIn(OwnEntries(old(View()).subs, c)), c, true))
    {
      var groups := SharedGroupsOf(c);
      NoticesAnnounce(GroupsIn(OwnEntries(View().subs, c)), c, true);
      Broadcast(groups, c, true);
    }

    /** Tells the parking task to close a parked session's socket; the session is no longer parked. */
    method SignalCloseParked(c: ClientId)
      modifies this`unpark, this`sessions
      ensures View() == Unparked(old(View()), c)
    {
      if c !in sessions || !sessions[c].parked { return; }
      unpark := unpark + [CloseParked(c, sessions[c].generation)];
      sessions := sessions[c := sessions[c].(parked := false, wakePending := false)];
    }

    /** Ends a session with its subscriptions, and logs that. */
    method Discard(c: ClientId) returns (taken: seq<Entry>)
      requires Valid()
      modifies this`sessions, this`dirty, this`removed, trie
      ensures Valid()
      ensures View() == WithSlot(old(View()), c, GONE)
      ensures forall e :: e in taken <==> e in OwnEntries(old(View()).subs, c)
    {
      SlotGone(View(), c);
      sessions := sessions - {c};
      taken := trie.TakeClient(c);
      WalRemoved(c);
    }

    // --- sessions -----------------------------------------------------------------------------

    /** CONNECT: opens, resumes or takes over the session. */
    method OpenSession(c: ClientId, clean: bool) returns (h: SessionHandle)
      requires Valid()
      modifies this, trie
      ensures Valid()
      ensures View() == Step(old(View()), c, Open(clean), 0)
      ensures h == HandleOf(old(View()), c, clean)
    {
      if c !in sessions {
        OpenAnew(View(), c, clean);
        nextGeneration := nextGeneration + 1;
        sessions := sessions[c := Fresh(nextGeneration)];
        h := SessionHandle(false, nextGeneration, EMPTY_SNAPSHOT, []);
      } else if clean {
        h := ReplaceSession(c);
      } else {
        h := ResumeSession(c);
      }
    }

    /** Clean Start: the old session goes, with its subscriptions and its durable record. */
    method ReplaceSession(c: ClientId) returns (h: SessionHandle)
      requires Valid() && c in sessions
      modifies this, trie
      ensures Valid()
      ensures View() == Step(old(View()), c, Open(true), 0)
      ensures h == HandleOf(old(View()), c, true)
    {
      ghost var s := View();
      OpenOver(s, c);
      UnparkedThen(s, c, Fresh(nextGeneration + 1));
      SignalCloseParked(c);
      nextGeneration := nextGeneration + 1;
      var _ := trie.TakeClient(c);
      WalRemoved(c);
      sessions := sessions[c := Fresh(nextGeneration)];
      h := SessionHandle(false, nextGeneration, EMPTY_SNAPSHOT, []);
    }

    /** A new connection has the session, and gets its durable state. */
    method TakeUp(c: ClientId) returns (h: SessionHandle)
      requires Valid() && c in sessions
      modifies this`sessions, this`unpark, this`nextGeneration
      ensures Valid() && h == HandleOf(old(View()), c, false)
      ensures View() == old(View()).(nextGeneration := nextGeneration, sessions := old(sessions)[c := Fresh(nextGeneration)],
                                     unpark := old(unpark) + CloseCmds(SlotOf(old(View()), c), c))
      ensures nextGeneration == old(nextGeneration) + 1
    {
      UnparkedThen(View(), c, Fresh(nextGeneration + 1));
      SignalCloseParked(c);
      nextGeneration := nextGeneration + 1;
      h := SessionHandle(true, nextGeneration, sessions[c].Durable(), sessions[c].offlineQueue);
      sessions := sessions[c := Fresh(nextGeneration)];
    }

    /** The client is a member of its groups again, and its record on disk is out of date. */
    method ResumeSession(c: ClientId) returns (h: SessionHandle)
      requires Valid() && c in sessions
      modifies this, trie
      ensures Valid()
      ensures View() == Step(old(View()), c, Open(false), 0)
      ensures h == HandleOf(old(View()), c, false)
    {
      OpenAgain(View(), c);
      h := TakeUp(c);
      Rejoin(c);
      WalRemoved(c);
    }

    /** The connection gives up its task and keeps its session connected. */
    method ParkSession(c: ClientId, g: nat, snapshot: SessionSnapshot) returns (ok: bool)
      requires Valid()
      modifies this`sessions
      ensures Valid() && View() == Step(old(View()), c, Park(g, snapshot), 0)
      ensures ok <==> Current(old(View()), c, g) && old(sessions)[c].mailbox.Some?
    {
      if c !in sessions || sessions[c].generation != g || sessions[c].mailbox.None? {
        SlotUnchanged(View(), c);
        return false;
      }
      var x := sessions[c].(mailbox := None, parked := true, wakePending := false, snapshot := Some(snapshot), expiresAt := None);
      SlotSession(View(), c, x);
      sessions := sessions[c := x];
      ok := true;
    }

    /** The woken connection takes its session back, with everything queued meanwhile. */
    method ReattachParked(c: ClientId, g: nat) returns (r: Option<(SessionSnapshot, seq<Delivery>)>)
      requires Valid()
      modifies this`sessions
      ensures Valid() && View() == Step(old(View()), c, Reattach(g), 0)
      ensures r.Some? <==> Current(old(View()), c, g) && old(sessions)[c].parked
      ensures r.Some? ==> r.value == (old(sessions)[c].Durable(), old(sessions)[c].offlineQueue)
    {
      if c !in sessions || sessions[c].generation != g || !sessions[c].parked {
        SlotUnchanged(View(), c);
        return None;
      }
      r := Some((sessions[c].Durable(), sessions[c].offlineQueue));
      var x := sessions[c].(mailbox := Some([]), parked := false, wakePending := false, snapshot := None, offlineQueue := []);
      SlotSession(View(), c, x);
      sessions := sessions[c := x];
    }

    /** A parked connection that will not come back: its session is suspended or ends. */
    method SuspendParked(c: ClientId, g: nat, secs: u32, now: nat) returns (ok: bool)
      requires Valid()
      modifies this, trie
      ensures Valid() && View() == Step(old(View()), c, Suspend(g, secs), now)
      ensures ok <==> Current(old(View()), c, g) && old(sessions)[c].parked
    {
      ghost var s := View();
      var groups := SharedGroupsOf(c);
      if c !in sessions || sessions[c].generation != g || !sessions[c].parked {
        SlotUnchanged(s, c);
        return false;
      }
      SuspendStep(s, c, g, secs, now);
      if secs == 0 {
        var _ := Discard(c);
      } else {
        var x := sessions[c].(parked := false, wakePending := false, expiresAt := Deadline(secs, now));
        sessions := sessions[c := x];
        WalDirty(c);
      }
      NoticesAnnounce(GroupsIn(OwnEntries(s.subs, c)), c, false);
      Broadcast(groups, c, false);
      ok := true;
    }

    /** The connection's socket closed. */
    method CloseSession(c: ClientId, g: nat, secs: u32, snapshot: SessionSnapshot, pending: seq<Delivery>, now: nat) returns (owned: bool)
      requires Valid()
      modifies this, trie
      ensures Valid() && View() == Step(old(View()), c, Close(g, secs, snapshot, pending), now)
      ensures owned <==> Current(old(View()), c, g)
    {
      ghost var s := View();
      var groups := SharedGroupsOf(c);
      if c !in sessions || sessions[c].generation != g {
        SlotUnchanged(s, c);
        return false;
      }
      CloseStep(s, c, Close(g, secs, snapshot, pending), now);
      if secs == 0 {
        var _ := Discard(c);
      } else {
        var x := sessions[c].(mailbox := None, snapshot := Some(snapshot), offlineQueue := pending + sessions[c].offlineQueue,
                              expiresAt := Deadline(secs, now));
        sessions := sessions[c := x];
        WalDirty(c);
      }
      NoticesAnnounce(GroupsIn(OwnEntries(s.subs, c)), c, false);
      Broadcast(groups, c, false);
      owned := true;
    }

    method ArmWill(c: ClientId, g: nat, will: Publish, secs: u32, now: nat)
      requires Valid()
      modifies this`sessions
      ensures Valid() && View() == Step(old(View()), c, Op.ArmWill(g, will, secs), now)
    {
      if c in sessions && sessions[c].generation == g {
        var x := sessions[c].(pendingWill := Some((will, now + secs * SECOND)));
        SlotSession(View(), c, x);
        sessions := sessions[c := x];
      } else {
        SlotUnchanged(View(), c);
      }
    }

    // --- subscriptions ---------------------------------------------------------------------------

    method Subscribe(c: ClientId, filter: string, sub: Subscription) returns (isNew: bool)
      requires Valid()
      modifies this`outbox, trie
      ensures Valid() && View() == Step(old(View()), c, Op.Subscribe(filter, sub), 0)
      ensures isNew == IsNew(OwnEntries(old(View()).subs, c), filter, c, sub.group)
    {
      SubscribeStep(View(), c, filter, sub);
      ghost var own := OwnEntries(View().subs, c);
      isNew := trie.Add(filter, sub.(client := c));
      assert isNew == IsNew(own, filter, c, sub.group);
      if isNew && sub.group.Some? { outbox := outbox + [Notice(sub.group.value, c, true)]; }
    }

    method Unsubscribe(c: ClientId, filter: string, group: Option<string>) returns (gone: bool)
      requires Valid()
      modifies this`outbox, trie
      ensures Valid() && View() == Step(old(View()), c, Op.Unsubscribe(filter, group), 0)
      ensures gone <==> View().subs != old(View()).subs
    {
      UnsubscribeStep(View(), c, filter, group);
      gone := trie.Delete(filter, c, group);
      if gone && group.Some? {
        var groups := SharedGroupsOf(c);
        if group.value !in groups { outbox := outbox + [Notice(group.value, c, false)]; }
      }
    }

    // --- delivery ---------------------------------------------------------------------------------

    /** Hands one message to a client: its mailbox, its parked queue with one wake-up, or its offline queue. */
    method DeliverTo(c: ClientId, d: Delivery)
      requires Valid()
      modifies this`sessions, this`dirty, this`removed, this`unpark
      ensures Valid() && View() == Step(old(View()), c, Deliver(d), 0)
    {
      ghost var s := View();
      SlotUnchanged(s, c);
      if c !in sessions { return; }
      var x := sessions[c];
      if x.mailbox.Some? {
        if |x.mailbox.value| < MAILBOX_LIMIT {
          x := x.(mailbox := Some(x.mailbox.value + [d]));
          SlotSession(s, c, x);
          sessions := sessions[c := x];
        }
      } else if x.parked {
        var wake := !x.wakePending;
        x := x.(offlineQueue := PushBounded(x.offlineQueue, d), wakePending := true);
        SlotSession(s, c, x);
        sessions := sessions[c := x];
        if wake { unpark := unpark + [Wake(c)]; }
      } else if d.qos != AtMostOnce {
        x := x.(offlineQueue := PushBounded(x.offlineQueue, d));
        SlotMarked(s, c, x, true);
        sessions := sessions[c := x];
        WalDirty(c);
      }
    }

    method DeliverAll(sends: seq<Routing.Send>)
      requires Valid()
      modifies this`sessions, this`dirty, this`removed, this`unpark
      ensures Valid() && View() == SendAll(old(View()), sends)
    {
      ghost var s := View();
      for i := 0 to |sends|
        invariant Valid() && View() == SendAll(s, sends[..i])
      {
        SendAllMore(s, sends[..i], sends[i]);
        assert sends[..i] + [sends[i]] == sends[..i + 1];
        DeliverTo(sends[i].client, sends[i].delivery);
      }
      assert sends[..|sends|] == sends;
    }

    /** Routes one publish: a copy to each ordinary subscriber, then one member of each shared group. */
    method Route(p: Publish, publisher: Option<ClientId>, wasRetained: bool, hasher: (string, seq<byte>) -> nat)
      returns (ghost found: map<Routing.Key, Routing.Match>, ghost ordinary: seq<Routing.Send>,
               ghost order: seq<string>, ghost shared: seq<Option<Routing.Send>>)
      requires Valid()
      modifies this`sessions, this`dirty, this`removed, this`unpark, this`cursors
      ensures Valid()
      ensures Routing.Collapsed(found, Match(trie.root, Topics.Split(p.topic), WildAllowed(p.topic)))
      ensures Routing.Ordinary(ordinary, found, p, publisher, wasRetained)
      ensures IsListing(order, GroupNames(found))
      ensures AllPicked(order, shared, old(View()), old(cursors), found, p, wasRetained, hasher(p.topic, p.payload))
      ensures View() == SendSome(SendAll(old(View()), ordinary), shared)
      ensures forall g :: CursorOf(cursors, g) == Turned(old(View()), old(cursors), found, g)
    {
      var hash := hasher(p.topic, p.payload);
      ghost var s := View();
      var matches := trie.Matching(p.topic);
      var buckets := Routing.Collapse(matches);
      var sends := Routing.FanOut(buckets, p, publisher, wasRetained);
      found, ordinary := buckets, sends;
      DeliverAll(sends);
      ghost var mid := View();
      SendAllKeeps(s, ordinary);
      order, shared := RouteShared(p, wasRetained, hash, buckets);
      SameAllPicked(order, shared, s, mid, old(cursors), found, p, wasRetained, hash);
      forall g ensures Turned(s, old(cursors), found, g) == Turned(mid, old(cursors), found, g) {
        SameKnown(s, mid, found, g, CursorOf(old(cursors), g));
      }
    }

    method RouteShared(p: Publish, wasRetained: bool, hash: nat, found: map<Routing.Key, Routing.Match>)
      returns (ghost order: seq<string>, ghost shared: seq<Option<Routing.Send>>)
      requires Valid()
      modifies this`sessions, this`dirty, this`removed, this`unpark, this`cursors
      ensures Valid()
      ensures IsListing(order, GroupNames(found))
      ensures AllPicked(order, shared, old(View()), old(cursors), found, p, wasRetained, hash)
      ensures View() == SendSome(old(View()), shared)
      ensures forall g :: CursorOf(cursors, g) == Turned(old(View()), old(cursors), found, g)
    {
      ghost var s := View();
      var names := ListNames(GroupNames(found));
      order, shared := names, [];
      assert names[..0] == [];
      for i := 0 to |names|
        invariant Valid() && AllPicked(names[..i], shared, s, old(cursors), found, p, wasRetained, hash)
        invariant TurnedUpto(s, old(cursors), cursors, found, names, i)
        invariant View() == SendSome(s, shared) && KeepsConnections(s, View())
      {
        ghost var before := View();
        ghost var was := cursors;
        TurnedNext(s, before, old(cursors), was, found, names, i);
        SameSendFor(names[i], s, before, old(cursors), cursors, found, p, wasRetained, hash);
        var send := RouteGroup(names[i], p, wasRetained, hash, found);
        TurnedMore(s, old(cursors), was, cursors, found, names, i);
        SendSomeMore(s, shared, send, View());
        AllPickedMore(names[..i], shared, names[i], send, s, old(cursors), found, p, wasRetained, hash);
        assert names[..i] + [names[i]] == names[..i + 1];
        KeepsTogether(s, before, View());
        shared := shared + [send];
      }
      assert names[..|names|] == names;
      UptoAll(names, GroupNames(found));
    }

    /** Picks a group's recipient, if it is ours, and delivers to it. */
    method RouteGroup(g: string, p: Publish, wasRetained: bool, hash: nat, found: map<Routing.Key, Routing.Match>)
      returns (send: Option<Routing.Send>)
      requires Valid()
      modifies this`sessions, this`dirty, this`removed, this`unpark, this`cursors
      ensures Valid() && send == SendFor(g, old(View()), old(cursors), found, p, wasRetained, hash)
      ensures View() == (if send.Some? then Step(old(View()), send.value.client, Deliver(send.value.delivery), 0) else old(View()))
      ensures KeepsConnections(old(View()), View())
      ensures CursorOf(cursors, g) == SharedPick.NextCursor(Known(old(View()), found, g, CursorOf(old(cursors), g)))
      ensures forall h | h != g :: CursorOf(cursors, h) == CursorOf(old(cursors), h)
    {
      ghost var s := View();
      var picked := PickRecipient(g, found, hash);
      if picked.None? { return None; }
      var c := picked.value;
      var d := Routing.Made(found[(Some(g), c)], p, wasRetained);
      DeliverKeepsConnections(s, c, d);
      DeliverTo(c, d);
      send := Some(Routing.Send(c, d));
    }

    method PickRecipient(g: string, found: map<Routing.Key, Routing.Match>, hash: nat) returns (picked: Option<ClientId>)
      modifies this`cursors
      ensures picked == SharedPick.Pick(Known(old(View()), found, g, CursorOf(old(cursors), g)), hash)
      ensures picked.Some? ==> (Some(g), picked.value) in found
      ensures CursorOf(cursors, g) == SharedPick.NextCursor(Known(old(View()), found, g, CursorOf(old(cursors), g)))
      ensures forall h | h != g :: CursorOf(cursors, h) == CursorOf(old(cursors), h)
    {
      var ids := GroupIds(found, g);
      var l := SharedPick.Local(ids, OnlineOf(sessions, ids), if g in remote then remote[g] else {}, if g in cursors then cursors[g] else 0);
      assert l == Known(View(), found, g, CursorOf(cursors, g));
      var next;
      picked, next := PickFrom(l, hash);
      assert picked.Some? ==> picked.value in GroupIds(found, g);
      if ids != {} && l.remote == {} { cursors := cursors[g := next]; }
    }

    // --- sweeping, shedding --------------------------------------------------------------------------

    /** Ends one session, with the will it still owes. */
    method EndOne(c: ClientId) returns (owed: seq<Publish>)
      requires Valid() && c in sessions
      modifies this`sessions, this`dirty, this`removed, trie
      ensures Valid() && View() == WithSlot(old(View()), c, GONE) && owed == OwedWill(old(sessions)[c])
    {
      owed := if sessions[c].pendingWill.Some? then [sessions[c].pendingWill.value.0] else [];
      var _ := Discard(c);
    }

    /** Ends the sessions past their deadline, with the wills they still owe. */
    method EndExpired(now: nat) returns (wills: seq<Publish>, ghost order: seq<ClientId>)
      requires Valid()
      modifies this`sessions, this`dirty, this`removed, trie
      ensures Valid() && View() == Ended(old(View()), Ending(old(sessions), now))
      ensures IsListing(order, Ending(old(sessions), now)) && wills == AllOwed(old(sessions), order)
    {
      ghost var s := View();
      var expired := ListNames(set c | c in sessions && Expired(sessions[c], now));
      wills, order := [], expired;
      UptoAll(expired, Ending(s.sessions, now));
      assert View() == Ended(s, {});
      assert forall c | c in Ending(s.sessions, now) :: c in s.sessions;
      for i := 0 to |expired|
        invariant Valid() && View() == Ended(s, Upto(expired, i)) && wills == AllOwed(s.sessions, expired[..i])
      {
        EndedSpares(s, expired, i);
        EndedMore(s, expired, i);
        WillsMore(s.sessions, expired, i, now);
        var owed := EndOne(expired[i]);
        wills := wills + owed;
      }
      assert expired[..|expired|] == expired;
    }

    /** Fires the wills now due, then ends every session past its deadline, publishing what it still owes. */
    method SweepExpired(now: nat) returns (wills: seq<Publish>, ghost order: seq<ClientId>, ghost ended: seq<ClientId>)
      requires Valid()
      modifies this`sessions, this`dirty, this`removed, trie
      ensures Valid() && View() == Swept(old(View()), now)
      ensures IsListing(order, old(sessions).Keys) && IsListing(ended, Ending(old(sessions), now))
      ensures forall c | c in ended :: c in Fired(old(sessions), now)
      ensures wills == AllDue(old(sessions), order, now) + AllOwed(Fired(old(sessions), now), ended)
    {
      var due, owed;
      sessions, due, order := FireWills(sessions, now);
      assert Ending(sessions, now) == Ending(old(sessions), now);
      owed, ended := EndExpired(now);
      wills := due + owed;
    }

    /** Drops live mailboxes, at most `max` of them. */
    method ShedConnections(max: nat) returns (shed: nat, ghost order: seq<ClientId>)
      requires Valid()
      modifies this`sessions
      ensures Valid() && View() == StepAll(old(View()), order, DropMailbox, 0)
      ensures Distinct(order) && shed == |order| <= max
      ensures forall c | c in order :: c in old(sessions) && old(sessions)[c].mailbox.Some?
      ensures shed < max ==> forall c | c in sessions :: sessions[c].mailbox.None?
    {
      ghost var s := View();
      shed, order := 0, [];
      var left := sessions.Keys;
      while left != {} && shed < max
        invariant left <= s.sessions.Keys && Distinct(order) && shed == |order| <= max
        invariant sessions == Shed(s.sessions, order)
        invariant forall c | c in left :: c !in order
        invariant forall c | c in order :: c in s.sessions && s.sessions[c].mailbox.Some?
        invariant forall c | c in sessions && c !in left :: sessions[c].mailbox.None?
        decreases |left|
      {
        var c :| c in left;
        left := left - {c};
        if sessions[c].mailbox.Some? {
          ShedMore(s.sessions, order, c);
          sessions := sessions[c := sessions[c].(mailbox := None)];
          shed, order := shed + 1, order + [c];
        }
      }
      ShedIsSteps(s, order);
    }

    // --- persistence -----------------------------------------------------------------------------------

    /** A suspended session as the log will hold it, unless it is about to expire. */
    method PersistOne(c: ClientId, now: nat) returns (r: Option<PersistedSession>)
      requires Valid()
      ensures CrashConsistency.SavedFor(AsRead(r), c, SlotOf(View(), c), now)
    {
      if c !in sessions || sessions[c].mailbox.Some? || sessions[c].parked { return None; }
      var x := sessions[c];
      var secs := Remaining(x.expiresAt, now);
      if secs == 0 { return None; }
      var own := trie.ClientSubscriptions(c);
      var subs := AsMigrated(own);
      var d := x.Durable();
      var ps := PersistedSession(c, secs, subs, d.inflight, d.incomingQos2, d.nextPkid, x.offlineQueue);
      MigratedBack(own, OwnEntries(View().subs, c), c, Held(ps));
      r := Some(ps);
    }

    /** The records of the dirty sessions still worth writing. */
    method EncodeDirty(codec: PacketCodec, now: nat) returns (out: Bytes, ghost batch: seq<Logged>)
      requires Valid() && dirty !! removed
      ensures out == Log(batch) && AllEncoded(codec, batch) && BatchUpto(codec, Records(batch), View(), dirty, now)
    {
      var names := ListNames(dirty);
      UptoAll(names, dirty);
      out, batch := [], [];
      for i := 0 to |names|
        invariant out == Log(batch) && AllEncoded(codec, batch) && BatchUpto(codec, Records(batch), View(), Upto(names, i), now)
      {
        assert names[i] !in Upto(names, i) && Upto(names, i + 1) == Upto(names, i) + {names[i]};
        var r, e := EncodeOne(codec, names[i], now);
        BatchMore(codec, batch, e, View(), Upto(names, i), names[i], now);
        if r.Some? {
          LogMore(batch, e.value);
          out, batch := out + Put32(r.value), batch + [e.value];
        }
      }
    }

    /** One dirty session's record, unless it is not worth writing or the packet library refuses it. */
    method EncodeOne(codec: PacketCodec, c: ClientId, now: nat) returns (body: Option<Bytes>, ghost e: Option<Logged>)
      requires Valid() && c in dirty && c !in removed
      ensures match e case None => body == None case Some(x) => body == Some(x.body) && IdOf(x.record) == c && Encoded(codec, x)
      ensures LoggedAs(codec, OneRecord(e), c, SlotOf(View(), c), now)
    {
      body, e := None, None;
      var ps := PersistOne(c, now);
      if ps.Some? {
        ghost var w;
        body, w := EncodeUpsert(codec, ps.value);
        e := PutUpsert(codec, w);
        assert Describes(w, c, SlotOf(View(), c), now);
      }
    }

    /** Drains the marks into one batch of bytes: tombstones, then the state of dirty sessions. It is
        what the log should hold, unless a session was skipped because it could not be written. */
    method TakeWalBatch(codec: PacketCodec, now: nat) returns (bytes: Option<Bytes>, ghost batch: seq<Logged>)
      requires Valid() && dirty !! removed
      modifies this`dirty, this`removed
      ensures Valid() && View() == old(View()).(dirty := {}, removed := {})
      ensures bytes == (if batch == [] then None else Some(Log(batch))) && AllEncoded(codec, batch)
      ensures forall c :: LoggedAs(codec, Last(Records(batch), c), c, SlotOf(old(View()), c), now)
      ensures CrashConsistency.BatchOf(Records(batch), old(View()), now)
         <==> forall c :: !Skipped(codec, Last(Records(batch), c), c, SlotOf(old(View()), c), now)
    {
      var ids := ListNames(removed);
      var gone := EncodeRemovals(ids);
      var kept;
      kept, batch := EncodeDirty(codec, now);
      BatchesJoin(codec, ids, batch, View(), now);
      batch := Tombstones(ids) + batch;
      bytes := if gone + kept == [] then None else Some(gone + kept);
      dirty, removed := {}, {};
    }

    /** The suspended sessions worth writing, for a snapshot. */
    method PersistSessions(now: nat) returns (m: map<ClientId, PersistedSession>)
      requires Valid()
      ensures CrashConsistency.SnapshotOf(m, View(), now)
    {
      m := map[];
      var left := sessions.Keys;
      while left != {}
        invariant left <= sessions.Keys
        invariant forall c | c !in left :: CrashConsistency.SavedFor(Lookup(m, c), c, SlotOf(View(), c), now)
        invariant forall c | c in left :: c !in m
        decreases |left|
      {
        var c :| c in left;
        left := left - {c};
        var ps := PersistOne(c, now);
        if ps.Some? { m := m[c := Held(ps.value)]; }
      }
    }

    method StoreOne(e: Entry)
      requires Valid()
      modifies trie
      ensures Valid()
      ensures View() == old(View()).(subs := TableDrop(old(View()).subs, e.filter, e.sub.client, e.sub.group) + {e})
    {
      var _ := trie.Add(e.filter, e.sub);
      assert e == Entry(e.filter, e.sub);
    }

    /** Stores a list of subscriptions under a client, No Local cleared on shared ones. */
    method Rearm(c: ClientId, es: seq<Entry>)
      requires Valid()
      modifies trie
      ensures Valid() && View() == old(View()).(subs := InsertAll(old(View()).subs, RearmAll(Latest(es), c)))
    {
      ghost var t := View().subs;
      assert es[..0] == [] && InsertAll(t, RearmAll({}, c)) == t;
      for i := 0 to |es|
        invariant Valid() && View() == old(View()).(subs := InsertAll(t, RearmAll(Latest(es[..i]), c)))
      {
        RearmMore(t, es, i, c);
        StoreOne(Rearmed(es[i], c));
      }
      assert es[..|es|] == es;
    }

    /** One session from disk, suspended under a new generation. */
    method LoadOne(ps: PersistedSession, now: nat)
      requires Valid()
      modifies this`sessions, this`nextGeneration, trie
      ensures Valid()
      ensures View() == WithLoaded(old(View()), ps, now)
    {
      var c := ps.clientId;
      Rearm(c, CrashConsistency.EntriesOf(ps, c));
      Enrol(c, Deadline(ps.expirySecs, now), SessionSnapshot(ps.inflight, ps.incomingQos2, ps.nextPkid), ps.offline);
    }

    /** A suspended session under a new generation. */
    method Enrol(c: ClientId, expiresAt: Option<nat>, snapshot: SessionSnapshot, offline: seq<Delivery>)
      requires Valid()
      modifies this`sessions, this`nextGeneration
      ensures Valid()
      ensures View() == old(View()).(nextGeneration := old(nextGeneration) + 1,
                                     sessions := old(sessions)[c := Session(None, expiresAt, old(nextGeneration) + 1, Some(snapshot),
                                                                            offline, None, false, false)])
    {
      nextGeneration := nextGeneration + 1;
      sessions := sessions[c := Session(None, expiresAt, nextGeneration, Some(snapshot), offline, None, false, false)];
    }

    /** Start-up: an empty shard takes in what was on disk, which is where every run of `CrashConsistency` begins. */
    method LoadSessions(m: map<ClientId, PersistedSession>, now: nat)
      requires Valid() && View().sessions == map[] && View().subs == {} && dirty == {} && removed == {}
      requires forall c | c in m :: m[c].clientId == c
      modifies this`sessions, this`nextGeneration, trie
      ensures Valid() && dirty == {} && removed == {}
      ensures forall c :: CrashConsistency.LoadedFrom(Lookup(m, c), c, SlotOf(View(), c), now)
    {
      var left := m.Keys;
      while left != {}
        invariant Valid() && left <= m.Keys && dirty == {} && removed == {}
        invariant LoadedSoFar(m, left, View(), now)
        decreases |left|
      {
        var c :| c in left;
        LoadedMore(m, left, View(), c, now);
        LoadStep(View(), m[c], now);
        left := left - {c};
        LoadOne(m[c], now);
      }
    }

    // --- mesh ----------------------------------------------------------------------------------------

    method ApplySharedEvent(e: SharedEvent)
      modifies this`remote
      ensures View() == ApplyShared(old(View()), e)
    {
      match e
      case Join(group, c) =>
        remote := remote[group := (if group in remote then remote[group] else {}) + {c}];
      case Leave(group, c) =>
        if group in remote {
          var left := remote[group] - {c};
          remote := if left == {} then remote - {group} else remote[group := left];
        }
    }

    /** A peer claims a client's session: it is packed and forgotten, or dropped. */
    method HandleClaim(c: ClientId, requester: nat, resume: bool)
      requires Valid()
      modifies this, trie
      ensures Valid() && View() == Step(old(View()), c, Claimed(requester, resume), 0)
    {
      ghost var s := View();
      ClaimStep(s, c, requester, resume);
      UnparkedThen(s, c, Fresh(0));
      SignalCloseParked(c);
      var reply := None;
      if c in sessions {
        var x := sessions[c];
        var taken := Discard(c);
        assert AsSet(taken) == OwnEntries(s.subs, c);
        if x.mailbox.None? && resume { reply := Some(Packed(x, AsSet(taken))); }
      }
      outbox := outbox + [To(requester, Handoff(c, reply))];
    }

    /** A migrated session's subscriptions, stored in the order the message lists them, become those of
        the session just opened; the connection gets the rest. */
    method InstallMigrated(c: ClientId, m: MigratedSession, listed: seq<Entry>)
      returns (snapshot: SessionSnapshot, offline: seq<Delivery>)
      requires Valid() && m.subscriptions == Latest(listed)
      modifies this`outbox, trie
      ensures Valid() && View() == Step(old(View()), c, Install(m), 0)
      ensures snapshot == SessionSnapshot(m.inflight, m.incomingQos2, m.nextPkid) && offline == m.offline
    {
      ghost var s := View();
      InstallStep(s, c, m);
      Rearm(c, listed);
      Rejoin(c);
      snapshot, offline := SessionSnapshot(m.inflight, m.incomingQos2, m.nextPkid), m.offline;
    }

    method OnHandoffReply(c: ClientId, session: Option<MigratedSession>)
      modifies this`claims
      ensures View() == OnHandoff(old(View()), c, session)
    {
      if c in claims { claims := claims[c := claims[c] + [session]]; }
    }
  }

  method FireWill(x: Session, now: nat) returns (y: Session, due: seq<Publish>)
    ensures y == WillFired(x, now) && due == DueWill(x, now)
  {
    if x.pendingWill.Some? && x.pendingWill.value.1 <= now {
      return x.(pendingWill := None), [x.pendingWill.value.0];
    }
    return x, [];
  }

  /** Takes every will whose time has come; the sessions live on. */
  method FireWills(was: map<ClientId, Session>, now: nat)
    returns (sessions: map<ClientId, Session>, wills: seq<Publish>, ghost order: seq<ClientId>)
    ensures sessions == Fired(was, now) && IsListing(order, was.Keys) && wills == AllDue(was, order, now)
  {
    var names := ListNames(was.Keys);
    sessions, wills, order := was, [], names;
    UptoAll(names, was.Keys);
    assert forall c | c in names :: c in was.Keys;
    for i := 0 to |names|
      invariant sessions == FiredUpto(was, names, i, now) && wills == AllDue(was, names[..i], now)
    {
      WillsMore(was, names, i, now);
      FiredMore(was, names, i, now);
      var x, due := FireWill(sessions[names[i]], now);
      sessions, wills := sessions[names[i] := x], wills + due;
    }
    assert names[..|names|] == names;
  }

  method PickFrom(l: SharedPick.Local, hash: nat) returns (picked: Option<ClientId>, next: nat)
    requires l.online <= l.ids
    ensures picked == SharedPick.Pick(l, hash) && next == SharedPick.NextCursor(l)
    ensures picked.Some? ==> picked.value in l.ids
  {
    picked, next := SharedPick.PickMember(l, hash);
    if picked.Some? { PickIsCandidate(l, hash); }
  }

  /** The names of a set, in an order of no importance. */
  method ListNames(names: set<string>) returns (xs: seq<string>)
    ensures IsListing(xs, names)
  {
    xs := [];
    var left := names;
    while left != {}
      invariant left <= names && IsListing(xs, names - left)
      decreases |left|
    {
      var x :| x in left;
      ListingMore(xs, names - left, x);
      assert names - left + {x} == names - (left - {x});
      xs, left := xs + [x], left - {x};
    }
    assert names - {} == names;
  }

  lemma ListingMore<T>(xs: seq<T>, s: set<T>, x: T)
    requires IsListing(xs, s) && x !in s
    ensures IsListing(xs + [x], s + {x})
  {
    assert forall y | y in s :: y in xs;
    assert (xs + [x])[|xs|] == x;
  }

  /** Whole seconds to a deadline not yet passed, in 32 bits. */
  function Remaining(expiresAt: Option<nat>, now: nat): (secs: u32)
    ensures secs == 0 <==> expiresAt.Some? && expiresAt.value < now + SECOND
    ensures secs > 0 ==> CrashConsistency.LifeLeft(secs, expiresAt, now)
  {
    match expiresAt
    case None => SESSION_NEVER_EXPIRES
    case Some(d) =>
      if d <= now then 0
      else var left := (d - now) / SECOND; if left < SESSION_NEVER_EXPIRES then left else SESSION_NEVER_EXPIRES
  }

  function AsMigrated(es: seq<Entry>): (ms: seq<MigratedSub>)
    ensures |ms| == |es|
    ensures forall i | 0 <= i < |es| :: ms[i] == MigratedSub(es[i].filter, es[i].sub.qos, es[i].sub.noLocal,
                                                             es[i].sub.retainAsPublished, es[i].sub.group, es[i].sub.subId)
  {
    seq(|es|, i requires 0 <= i < |es| => MigratedSub(es[i].filter, es[i].sub.qos, es[i].sub.noLocal,
                                                      es[i].sub.retainAsPublished, es[i].sub.group, es[i].sub.subId))
  }

  lemma MigratedBack(es: seq<Entry>, own: set<Entry>, c: ClientId, ps: PersistedSession)
    requires IsListing(es, own) && (forall e | e in own :: e.sub.client == c) && ps.subscriptions == AsMigrated(es)
    ensures CrashConsistency.SubsOf(ps, c) == own
  {
    forall i | 0 <= i < |es| ensures CrashConsistency.SubEntry(ps.subscriptions[i], c) == es[i] { assert es[i] in own; }
    forall e | e in own ensures e in CrashConsistency.SubsOf(ps, c) {
      var i :| 0 <= i < |es| && es[i] == e;
      assert CrashConsistency.SubEntry(ps.subscriptions[i], c) == e;
    }
  }

  function AsRead(ps: Option<PersistedSession>): Option<PersistedSession> {
    if ps.Some? then Some(Held(ps.value)) else None
  }

  /** The walk writes the client's session as it is now. */
  ghost predicate Describes(w: Walked, c: ClientId, v: Slot, now: nat) {
    v.session.Some? && WalkOf(w, w.ps) && CrashConsistency.Written(Held(w.ps), c, v.session.value, v.subs, now)
  }

  /** A dirty session that cannot be written is skipped, and its mark is lost. */
  ghost predicate Skipped(codec: PacketCodec, r: Option<Record>, c: ClientId, v: Slot, now: nat) {
    && r == None && v.dirty && !v.removed && CrashConsistency.Suspended(v) && CrashConsistency.Lasting(v.session.value, now)
    && exists w :: Describes(w, c, v, now) && PutUpsert(codec, w).None?
  }

  ghost predicate LoggedAs(codec: PacketCodec, r: Option<Record>, c: ClientId, v: Slot, now: nat) {
    CrashConsistency.BatchFor(r, c, v, now) || Skipped(codec, r, c, v, now)
  }

  /** The dirty clients done so far have their records, and nobody else has one. */
  ghost predicate BatchUpto(codec: PacketCodec, recs: seq<Record>, s: Shard, done: set<ClientId>, now: nat) {
    forall c :: if c in done then LoggedAs(codec, Last(recs, c), c, SlotOf(s, c), now) else Last(recs, c) == None
  }

  function OneRecord(e: Option<Logged>): Option<Record> {
    if e.Some? then Some(e.value.record) else None
  }

  lemma BatchMore(codec: PacketCodec, batch: seq<Logged>, e: Option<Logged>, s: Shard, done: set<ClientId>, c: ClientId, now: nat)
    requires BatchUpto(codec, Records(batch), s, done, now) && c !in done
    requires (e.Some? ==> IdOf(e.value.record) == c) && LoggedAs(codec, OneRecord(e), c, SlotOf(s, c), now)
    ensures BatchUpto(codec, Records(if e.Some? then batch + [e.value] else batch), s, done + {c}, now)
  {
    if e.Some? { RecordsMore(batch, e.value); }
  }

  lemma {:induction false} LastJoins(a: seq<Record>, b: seq<Record>, c: ClientId)
    ensures Last(a + b, c) == if Last(b, c).Some? then Last(b, c) else Last(a, c)
    decreases |b|
  {
    if b == [] {
      assert a + b == a;
    } else {
      var n := |b| - 1;
      assert (a + b)[..|a| + n] == a + b[..n] && (a + b)[|a| + n] == b[n];
      LastJoins(a, b[..n], c);
    }
  }

  lemma LogJoins(a: seq<Logged>, b: seq<Logged>)
    ensures Log(a + b) == Log(a) + Log(b) && Records(a + b) == Records(a) + Records(b)
  {
    LogSplits(a + b, |a|);
    assert (a + b)[..|a|] == a && (a + b)[|a|..] == b;
  }

  /** Tombstones and the records of dirty sessions together are the batch. */
  lemma BatchesJoin(codec: PacketCodec, ids: seq<ClientId>, kept: seq<Logged>, s: Shard, now: nat)
    requires IsListing(ids, s.removed) && AllEncoded(codec, kept)
    requires BatchUpto(codec, Records(kept), s, s.dirty, now) && s.dirty !! s.removed
    ensures var batch := Tombstones(ids) + kept;
            && Log(batch) == Log(Tombstones(ids)) + Log(kept) && (batch == [] <==> Log(batch) == [])
            && AllEncoded(codec, batch)
            && (forall c :: LoggedAs(codec, Last(Records(batch), c), c, SlotOf(s, c), now))
  {
    LogJoins(Tombstones(ids), kept);
    forall c ensures LoggedAs(codec, Last(Records(Tombstones(ids) + kept), c), c, SlotOf(s, c), now) {
      TombstoneFor(ids, c);
      LastJoins(Records(Tombstones(ids)), Records(kept), c);
    }
  }

  /** The body of an Upsert. */
  method EncodeUpsert(codec: PacketCodec, ps: PersistedSession) returns (body: Option<Bytes>, ghost w: Walked)
    ensures WalkOf(w, ps)
    ensures match PutUpsert(codec, w) case None => body == None case Some(e) => body == Some(e.body) && e.record == Upsert(Held(ps))
  {
    var b;
    b, w := DiskReader.EncodeSession(codec, ps);
    body := if b.Some? then Some([1] + b.value) else None;
  }

  lemma LogMore(es: seq<Logged>, e: Logged)
    ensures Log(es + [e]) == Log(es) + Put32(e.body)
  {
    LogSplits(es + [e], |es|);
    assert (es + [e])[..|es|] == es && (es + [e])[|es|..] == [e];
    assert Log([e]) == Put32(e.body) + [];
  }

  lemma RecordsMore(es: seq<Logged>, e: Logged)
    ensures forall c :: Last(Records(es + [e]), c) == if c == IdOf(e.record) then Some(e.record) else Last(Records(es), c)
  {
    LastMore(Records(es), e.record);
    assert Records(es + [e]) == Records(es) + [e.record];
  }

  function Tombstones(ids: seq<ClientId>): (es: seq<Logged>)
    ensures |es| == |ids| && forall i | 0 <= i < |ids| :: es[i] == PutRemove(ids[i])
  {
    seq(|ids|, i requires 0 <= i < |ids| => PutRemove(ids[i]))
  }

  lemma {:induction false} TombstoneFor(ids: seq<ClientId>, c: ClientId)
    ensures Last(Records(Tombstones(ids)), c) == if c in ids then Some(Remove(c)) else None
  {
    if ids != [] {
      var n := |ids| - 1;
      var rs := Records(Tombstones(ids));
      assert rs[..n] == Records(Tombstones(ids[..n])) && rs[n] == Remove(ids[n]);
      assert ids == ids[..n] + [ids[n]];
      TombstoneFor(ids[..n], c);
    }
  }

  /** Tombstones, framed. */
  method EncodeRemovals(ids: seq<ClientId>) returns (out: Bytes)
    ensures out == Log(Tombstones(ids))
  {
    out := [];
    assert Tombstones(ids[..0]) == [];
    for i := 0 to |ids|
      invariant out == Log(Tombstones(ids[..i]))
    {
      LogMore(Tombstones(ids[..i]), PutRemove(ids[i]));
      assert Tombstones(ids[..i + 1]) == Tombstones(ids[..i]) + [PutRemove(ids[i])];
      out := out + Put32([2] + PutStr(ids[i]));
    }
    assert ids[..|ids|] == ids;
  }

  lemma LastMore(rs: seq<Record>, r: Record)
    ensures forall id :: Last(rs + [r], id) == if IdOf(r) == id then Some(r) else Last(rs, id)
  {
    assert (rs + [r])[..|rs|] == rs;
  }
}
