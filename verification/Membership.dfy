/** Replicated group membership: every shard announces its members' joins and leaves to
    every other shard over FIFO queues. Once the queues drain, each shard's view of a group
    is exactly the connected members the other shards hold. */
module Membership {
  import opened Types
  import opened ShardModel
  import Order
  import Trie

  // --- announcements against membership, one client at a time ---------------------------

  predicate Online(v: Slot) {
    v.session.Some? && v.session.value.Online()
  }

  /** The client is a connected member of the group. */
  predicate MemberIn(v: Slot, group: string) {
    Online(v) && group in GroupsIn(v.subs)
  }

  /** A session table entry as the operations leave it. */
  predicate Fits(v: Slot, c: ClientId) {
    && OwnSubs(v, c)
    && (v.session.None? ==> v.subs == {})
    && (v.session.Some? && v.session.value.parked ==> v.session.value.mailbox.None? && v.session.value.expiresAt.None?)
  }

  function SharedOf(posts: seq<Post>): seq<SharedEvent> {
    if posts == [] then []
    else (if posts[0].ToAll? && posts[0].msg.Shared? then [posts[0].msg.event] else []) + SharedOf(posts[1..])
  }

  /** What one event, and a queue of them, does to the bit "`c` is in my view of `group`". */
  predicate After(e: SharedEvent, bit: bool, group: string, c: ClientId) {
    if e.group == group && e.client == c then e.Join? else bit
  }

  predicate AfterAll(es: seq<SharedEvent>, bit: bool, group: string, c: ClientId) {
    if es == [] then bit else AfterAll(es[1..], After(es[0], bit, group, c), group, c)
  }

  lemma {:induction false} AfterAppend(es: seq<SharedEvent>, fs: seq<SharedEvent>, bit: bool, group: string, c: ClientId)
    ensures AfterAll(es + fs, bit, group, c) == AfterAll(fs, AfterAll(es, bit, group, c), group, c)
    decreases |es|
  {
    if es == [] {
      assert es + fs == fs;
    } else {
      assert (es + fs)[1..] == es[1..] + fs;
      AfterAppend(es[1..], fs, After(es[0], bit, group, c), group, c);
    }
  }

  lemma {:induction false} AfterNames(names: seq<string>, posts: seq<Post>, c: ClientId, join: bool, bit: bool, group: string)
    requires |posts| == |names| && forall i | 0 <= i < |posts| :: posts[i] == Notice(names[i], c, join)
    ensures AfterAll(SharedOf(posts), bit, group, c) == if group in names then join else bit
    decreases |names|
  {
    if names != [] {
      var e := posts[0].msg.event;
      assert SharedOf(posts) == [e] + SharedOf(posts[1..]);
      assert SharedOf(posts)[1..] == SharedOf(posts[1..]);
      AfterNames(names[1..], posts[1..], c, join, After(e, bit, group, c), group);
    }
  }

  lemma AfterAnnounce(groups: set<string>, c: ClientId, join: bool, bit: bool, group: string)
    ensures AfterAll(SharedOf(Announce(groups, c, join)), bit, group, c) == if group in groups then join else bit
  {
    AfterNames(Order.Sorted(groups), Announce(groups, c, join), c, join, bit, group);
  }

  lemma AfterOne(p: Post, bit: bool, group: string, c: ClientId)
    requires p.ToAll? && p.msg.Shared?
    ensures AfterAll(SharedOf([p]), bit, group, c) == After(p.msg.event, bit, group, c)
  {
    assert SharedOf([p]) == [p.msg.event];
  }

  /** The peers are told of every change of membership. */
  ghost predicate Told(v: Slot, c: ClientId, o: Outcome) {
    forall group :: AfterAll(SharedOf(o.posts), MemberIn(v, group), group, c) == MemberIn(o.slot, group)
  }

  predicate InGroups(v: Slot) {
    Online(v) && GroupsIn(v.subs) != {}
  }

  /** When an operation tells the peers all they need. The exceptions are the operations that end a
      connected membership without a Leave, and those that announce a Join for a client that is not
      connected. */
  predicate Announced(v: Slot, c: ClientId, op: Op) {
    match op
    case Open(clean) => clean ==> !InGroups(v)
    case Close(g, secs, _, _) => !(Holds(v, g) && v.session.value.parked && secs > 0 && InGroups(v))
    case Subscribe(filter, sub) => Online(v) || sub.group.None? || !IsNew(v.subs, filter, c, sub.group)
    case DropMailbox => InGroups(v) ==> v.session.value.parked
    case Load(_, _) => !InGroups(v)
    case Claimed(_, _) => !InGroups(v)
    case Install(m) => Online(v) || GroupsIn(InsertAll(v.subs, RearmAll(m.subscriptions, c))) == {}
    case _ => true
  }

  lemma SomeGroup(groups: set<string>) returns (g: string)
    requires groups != {}
    ensures g in groups
  {
    g :| g in groups;
  }

  /** Operations without announcements tell exactly when they change no membership. */
  lemma SilentTells(v: Slot, c: ClientId, o: Outcome)
    requires SharedOf(o.posts) == []
    ensures Told(v, c, o) <==> forall group :: MemberIn(v, group) == MemberIn(o.slot, group)
  {
    if Told(v, c, o) {
      forall group ensures MemberIn(v, group) == MemberIn(o.slot, group) {
        assert AfterAll(SharedOf(o.posts), MemberIn(v, group), group, c) == MemberIn(o.slot, group);
      }
    }
  }

  lemma OpenTells(v: Slot, c: ClientId, g: nat, clean: bool)
    requires Fits(v, c)
    ensures Told(v, c, ActOpen(v, c, g, clean)) <==> Announced(v, c, Open(clean))
  {
    var o := ActOpen(v, c, g, clean);
    if v.session.Some? && !clean {
      forall group ensures AfterAll(SharedOf(o.posts), MemberIn(v, group), group, c) == MemberIn(o.slot, group) {
        AfterAnnounce(GroupsIn(v.subs), c, true, MemberIn(v, group), group);
      }
    } else {
      SilentTells(v, c, o);
      if InGroups(v) {
        var group := SomeGroup(GroupsIn(v.subs));
        assert MemberIn(v, group) && !MemberIn(o.slot, group);
      }
    }
  }

  lemma LeavingTells(v: Slot, c: ClientId, o: Outcome)
    requires o.posts == Announce(GroupsIn(v.subs), c, false)
    requires forall group | MemberIn(o.slot, group) :: group in GroupsIn(v.subs)
    requires Online(o.slot) ==> o.slot.subs == v.subs
    ensures Told(v, c, o) <==> !InGroups(o.slot)
  {
    forall group
      ensures AfterAll(SharedOf(o.posts), MemberIn(v, group), group, c) == (MemberIn(v, group) && group !in GroupsIn(v.subs))
    {
      AfterAnnounce(GroupsIn(v.subs), c, false, MemberIn(v, group), group);
    }
    if InGroups(o.slot) {
      var group := SomeGroup(GroupsIn(o.slot.subs));
      assert MemberIn(o.slot, group);
      assert AfterAll(SharedOf(o.posts), MemberIn(v, group), group, c) != MemberIn(o.slot, group);
    }
  }

  lemma SuspendTells(v: Slot, c: ClientId, g: nat, secs: u32, now: nat)
    requires Fits(v, c)
    ensures Told(v, c, ActSuspend(v, c, g, secs, now))
  {
    var o := ActSuspend(v, c, g, secs, now);
    if o.slot == v { SilentTells(v, c, Outcome(v, [], [])); }
    if Holds(v, g) && v.session.value.parked { LeavingTells(v, c, o); }
  }

  lemma CloseTells(v: Slot, c: ClientId, op: Op, now: nat)
    requires Fits(v, c) && op.Close?
    ensures Told(v, c, ActClose(v, c, op.g, op.secs, op.snapshot, op.pending, now)) <==> Announced(v, c, op)
  {
    var o := ActClose(v, c, op.g, op.secs, op.snapshot, op.pending, now);
    if Holds(v, op.g) { LeavingTells(v, c, o); } else { SilentTells(v, c, o); }
  }

  lemma SubscribedGroups(subs: set<Entry>, c: ClientId, filter: string, sub: Subscription, group: string)
    requires forall e | e in subs :: e.sub.client == c
    ensures var added := Trie.TableDrop(subs, filter, c, sub.group) + {Entry(filter, sub.(client := c))};
            group in GroupsIn(added) <==> group in GroupsIn(subs) || sub.group == Some(group)
    ensures !IsNew(subs, filter, c, sub.group) && sub.group == Some(group) ==> group in GroupsIn(subs)
  {
    var added := Trie.TableDrop(subs, filter, c, sub.group) + {Entry(filter, sub.(client := c))};
    if group in GroupsIn(subs) {
      var e :| e in subs && e.sub.group == Some(group);
      if e !in Trie.TableDrop(subs, filter, c, sub.group) {
        assert Entry(filter, sub.(client := c)) in added;
      } else {
        assert e in added;
      }
    }
    if sub.group == Some(group) { assert Entry(filter, sub.(client := c)) in added; }
  }

  lemma SubscribeTells(v: Slot, c: ClientId, filter: string, sub: Subscription)
    requires Fits(v, c)
    ensures Told(v, c, ActSubscribe(v, c, filter, sub)) <==> Announced(v, c, Subscribe(filter, sub))
  {
    var o := ActSubscribe(v, c, filter, sub);
    forall group
      ensures AfterAll(SharedOf(o.posts), MemberIn(v, group), group, c)
           == (MemberIn(v, group) || (o.posts != [] && sub.group == Some(group)))
    {
      if o.posts != [] { AfterOne(o.posts[0], MemberIn(v, group), group, c); }
      SubscribedGroups(v.subs, c, filter, sub, group);
    }
    forall group ensures MemberIn(o.slot, group) <==> MemberIn(v, group) || (Online(v) && sub.group == Some(group)) {
      SubscribedGroups(v.subs, c, filter, sub, group);
    }
    forall group ensures MemberIn(v, group) || !(Online(v) && sub.group == Some(group)) || o.posts != [] {
      SubscribedGroups(v.subs, c, filter, sub, group);
    }
    if !Announced(v, c, Subscribe(filter, sub)) {
      assert !MemberIn(o.slot, sub.group.value);
    }
  }

  lemma UnsubscribeTells(v: Slot, c: ClientId, filter: string, group: Option<string>)
    requires Fits(v, c)
    ensures Told(v, c, ActUnsubscribe(v, c, filter, group))
  {
    var o := ActUnsubscribe(v, c, filter, group);
    var left := o.slot.subs;
    forall name
      ensures AfterAll(SharedOf(o.posts), MemberIn(v, name), name, c) == MemberIn(o.slot, name)
    {
      if o.posts != [] { AfterOne(o.posts[0], MemberIn(v, name), name, c); }
      if name in GroupsIn(v.subs) && name !in GroupsIn(left) {
        var e :| e in v.subs && e.sub.group == Some(name);
        assert e !in left;
      }
    }
  }

  lemma JoiningTells(v: Slot, c: ClientId, o: Outcome)
    requires o.posts == Announce(GroupsIn(o.slot.subs), c, true) && o.slot.session == v.session
    requires GroupsIn(v.subs) <= GroupsIn(o.slot.subs)
    ensures Told(v, c, o) <==> Online(v) || GroupsIn(o.slot.subs) == {}
  {
    var groups := GroupsIn(o.slot.subs);
    forall group ensures AfterAll(SharedOf(o.posts), MemberIn(v, group), group, c) == (group in groups) {
      AfterAnnounce(groups, c, true, MemberIn(v, group), group);
    }
    if !Online(v) && groups != {} {
      var group := SomeGroup(groups);
      assert AfterAll(SharedOf(o.posts), MemberIn(v, group), group, c) != MemberIn(o.slot, group);
    }
  }

  lemma InstallTells(v: Slot, c: ClientId, m: MigratedSession)
    ensures Told(v, c, ActInstall(v, c, m)) <==> Announced(v, c, Install(m))
  {
    var added := RearmAll(m.subscriptions, c);
    forall group | group in GroupsIn(v.subs) ensures group in GroupsIn(InsertAll(v.subs, added)) {
      InstallKeepsGroup(v.subs, added, c, group);
    }
    JoiningTells(v, c, ActInstall(v, c, m));
  }

  lemma InstallKeepsGroup(subs: set<Entry>, added: set<Entry>, c: ClientId, group: string)
    requires group in GroupsIn(subs)
    ensures group in GroupsIn(InsertAll(subs, added))
  {
    var e :| e in subs && e.sub.group == Some(group);
    if e !in InsertAll(subs, added) {
      var a :| a in added && e.filter == a.filter && Trie.Same(e.sub, a.sub.client, a.sub.group);
      assert a in InsertAll(subs, added);
    }
  }

  /** The remaining operations announce nothing; they tell exactly when no connected member drops out. */
  lemma QuietTells(v: Slot, c: ClientId, g: nat, op: Op, now: nat)
    requires Fits(v, c)
    requires op.DropMailbox? || op.Load? || op.Claimed? || op.Park? || op.Reattach? || op.ArmWill? || op.Sweep? || op.Deliver? || op.Receive?
    ensures Told(v, c, Act(v, c, g, op, now)) <==> Announced(v, c, op)
  {
    var o := Act(v, c, g, op, now);
    assert SharedOf(o.posts) == [] by {
      if o.posts != [] { assert SharedOf(o.posts[1..]) == []; }
    }
    SilentTells(v, c, o);
    if !Announced(v, c, op) {
      var group := SomeGroup(GroupsIn(v.subs));
      assert MemberIn(v, group) && !MemberIn(o.slot, group);
    }
  }

  /** An operation's announcements carry the peers' view of every group from the old membership to the
      new one, if and only if it is not one of the exceptions. */
  lemma ActTells(v: Slot, c: ClientId, g: nat, op: Op, now: nat)
    requires Fits(v, c)
    ensures Told(v, c, Act(v, c, g, op, now)) <==> Announced(v, c, op)
  {
    match op
    case Open(clean) => OpenTells(v, c, g, clean);
    case Suspend(h, secs) => SuspendTells(v, c, h, secs, now);
    case Close(_, _, _, _) => CloseTells(v, c, op, now);
    case Subscribe(filter, sub) => SubscribeTells(v, c, filter, sub);
    case Unsubscribe(filter, group) => UnsubscribeTells(v, c, filter, group);
    case Install(m) => InstallTells(v, c, m);
    case _ => QuietTells(v, c, g, op, now);
  }

  // --- the network ------------------------------------------------------------------------

  /** `queues[i][j]` holds what shard `i` sent and shard `j` has not yet applied. */
  datatype Net = Net(nodes: seq<Shard>, queues: seq<seq<seq<SharedEvent>>>)

  predicate WellFormed(n: Net) {
    |n.queues| == |n.nodes| && forall i | 0 <= i < |n.nodes| :: |n.queues[i]| == |n.nodes|
  }

  /** What a run may do to a client: anything announced, with only a connected client subscribing or
      having a migrated session installed, and only a running connection closing its session. */
  predicate Allowed(v: Slot, c: ClientId, op: Op) {
    && Announced(v, c, op)
    && (op.Subscribe? || op.Install? ==> Online(v))
    && (op.Close? && Holds(v, op.g) ==> !v.session.value.parked)
  }

  function Sent(row: seq<seq<SharedEvent>>, i: nat, es: seq<SharedEvent>): (r: seq<seq<SharedEvent>>)
    ensures |r| == |row| && forall j | 0 <= j < |row| :: r[j] == if j == i then row[j] else row[j] + es
  {
    seq(|row|, j requires 0 <= j < |row| => if j == i then row[j] else row[j] + es)
  }

  ghost function Operate(n: Net, i: nat, c: ClientId, op: Op, now: nat): Net
    requires WellFormed(n) && i < |n.nodes|
  {
    Replaced(n, i, Step(n.nodes[i], c, op, now), SharedOf(Outcomes(n.nodes[i], c, op, now).posts))
  }

  /** A shard's next state, with the events it sends to every peer. */
  function Replaced(n: Net, i: nat, s: Shard, es: seq<SharedEvent>): Net
    requires WellFormed(n) && i < |n.nodes|
  {
    Net(n.nodes[i := s], n.queues[i := Sent(n.queues[i], i, es)])
  }

  function Receive(n: Net, i: nat, j: nat): Net
    requires WellFormed(n) && i < |n.nodes| && j < |n.nodes| && n.queues[i][j] != []
  {
    Net(n.nodes[j := ApplyShared(n.nodes[j], n.queues[i][j][0])],
        n.queues[i := n.queues[i][j := n.queues[i][j][1..]]])
  }

  /** Each client stays on its home shard. */
  ghost predicate Steps(n: Net, t: Net, home: ClientId -> nat) {
    WellFormed(n) && (OperateStep(n, t, home) || ReceiveStep(n, t))
  }

  ghost predicate OperateStep(n: Net, t: Net, home: ClientId -> nat)
    requires WellFormed(n)
  {
    exists c, op, now ::
      home(c) < |n.nodes| && Allowed(SlotOf(n.nodes[home(c)], c), c, op) && t == Operate(n, home(c), c, op, now)
  }

  ghost predicate ReceiveStep(n: Net, t: Net)
    requires WellFormed(n)
  {
    exists i: nat, j: nat :: i < |n.nodes| && j < |n.nodes| && n.queues[i][j] != [] && t == Receive(n, i, j)
  }

  predicate InView(s: Shard, group: string, c: ClientId) {
    group in s.remote && c in s.remote[group]
  }

  predicate Member(s: Shard, group: string, c: ClientId) {
    MemberIn(SlotOf(s, c), group)
  }

  /** Everything in a queue concerns clients of its sender. */
  ghost predicate Homed(q: seq<SharedEvent>, i: nat, home: ClientId -> nat) {
    forall k | 0 <= k < |q| :: home(q[k].client) == i
  }

  /** A shard's view of a client elsewhere, once what is queued is applied, is its membership; of its
      own clients it has none. */
  ghost predicate Synced(n: Net, home: ClientId -> nat, j: nat, group: string, c: ClientId)
    requires WellFormed(n) && j < |n.nodes|
  {
    if home(c) < |n.nodes| && home(c) != j then
      AfterAll(n.queues[home(c)][j], InView(n.nodes[j], group, c), group, c) == Member(n.nodes[home(c)], group, c)
    else !InView(n.nodes[j], group, c)
  }

  ghost predicate NodeOk(s: Shard, i: nat, home: ClientId -> nat) {
    forall c :: Fits(SlotOf(s, c), c) && (home(c) != i ==> SlotOf(s, c).session.None?)
  }

  ghost predicate Inv(n: Net, home: ClientId -> nat) {
    && WellFormed(n)
    && (forall i | 0 <= i < |n.nodes| :: NodeOk(n.nodes[i], i, home))
    && (forall i, j | 0 <= i < |n.nodes| && 0 <= j < |n.nodes| :: Homed(n.queues[i][j], i, home))
    && (forall i | 0 <= i < |n.nodes| :: n.queues[i][i] == [])
    && (forall j, group, c | 0 <= j < |n.nodes| :: Synced(n, home, j, group, c))
  }

  lemma ActFits(v: Slot, c: ClientId, g: nat, op: Op, now: nat)
    requires Fits(v, c) && Allowed(v, c, op)
    ensures Fits(Act(v, c, g, op, now).slot, c)
  {
  }

  lemma {:induction false} AnnouncedHomed(names: seq<string>, posts: seq<Post>, c: ClientId, join: bool, i: nat, home: ClientId -> nat)
    requires |posts| == |names| && (forall k | 0 <= k < |posts| :: posts[k] == Notice(names[k], c, join)) && home(c) == i
    ensures Homed(SharedOf(posts), i, home)
    decreases |names|
  {
    if names != [] { AnnouncedHomed(names[1..], posts[1..], c, join, i, home); }
  }

  lemma PostsHomed(v: Slot, c: ClientId, g: nat, op: Op, now: nat, home: ClientId -> nat)
    ensures Homed(SharedOf(Act(v, c, g, op, now).posts), home(c), home)
  {
    var o := Act(v, c, g, op, now);
    var i := home(c);
    match op
    case Open(clean) => AnnouncedHomed(Order.Sorted(GroupsIn(v.subs)), Announce(GroupsIn(v.subs), c, true), c, true, i, home);
    case Suspend(_, _) => AnnouncedHomed(Order.Sorted(GroupsIn(v.subs)), Announce(GroupsIn(v.subs), c, false), c, false, i, home);
    case Close(_, _, _, _) => AnnouncedHomed(Order.Sorted(GroupsIn(v.subs)), Announce(GroupsIn(v.subs), c, false), c, false, i, home);
    case Install(m) =>
      AnnouncedHomed(Order.Sorted(GroupsIn(o.slot.subs)), Announce(GroupsIn(o.slot.subs), c, true), c, true, i, home);
    case _ => AtMostOneHomed(o.posts, c, i, home);
  }

  lemma AtMostOneHomed(posts: seq<Post>, c: ClientId, i: nat, home: ClientId -> nat)
    requires |posts| <= 1 && home(c) == i
    requires forall k | 0 <= k < |posts| :: posts[k].ToAll? && posts[k].msg.Shared? ==> posts[k].msg.event.client == c
    ensures Homed(SharedOf(posts), i, home)
  {
    if posts != [] { assert SharedOf(posts[1..]) == []; }
  }

  lemma NodeStaysOk(s: Shard, i: nat, home: ClientId -> nat, c: ClientId, op: Op, now: nat)
    requires NodeOk(s, i, home) && home(c) == i && Allowed(SlotOf(s, c), c, op)
    ensures NodeOk(Step(s, c, op, now), i, home)
  {
    forall d ensures Fits(SlotOf(Step(s, c, op, now), d), d) && (home(d) != i ==> SlotOf(Step(s, c, op, now), d).session.None?) {
      StepIsLocal(s, c, op, now, d);
      assert Fits(SlotOf(s, d), d);
      if d == c { ActFits(SlotOf(s, c), c, s.nextGeneration + 1, op, now); }
    }
  }

  lemma {:induction false} OthersUntouched(q: seq<SharedEvent>, bit: bool, group: string, c: ClientId, i: nat, home: ClientId -> nat)
    requires Homed(q, i, home) && home(c) != i
    ensures AfterAll(q, bit, group, c) == bit
    decreases |q|
  {
    if q != [] { OthersUntouched(q[1..], After(q[0], bit, group, c), group, c, i, home); }
  }

  /** An operation announces nothing about other clients. */
  lemma OnlyAbout(v: Slot, c: ClientId, g: nat, op: Op, now: nat, bit: bool, group: string, d: ClientId)
    requires d != c
    ensures AfterAll(SharedOf(Act(v, c, g, op, now).posts), bit, group, d) == bit
  {
    var mine: ClientId -> nat := (x: ClientId) => if x == c then 0 else 1;
    PostsHomed(v, c, g, op, now, mine);
    OthersUntouched(SharedOf(Act(v, c, g, op, now).posts), bit, group, d, 0, mine);
  }

  /** The announcements carry the client's old membership to its new one, and say nothing of others. */
  ghost predicate TellsOf(posts: seq<Post>, was: bool, now: bool, group: string, d: ClientId) {
    AfterAll(SharedOf(posts), was, group, d) == now
  }

  lemma TellsSelf(v: Slot, c: ClientId, g: nat, op: Op, now: nat, group: string)
    requires Fits(v, c) && Announced(v, c, op)
    ensures TellsOf(Act(v, c, g, op, now).posts, MemberIn(v, group), MemberIn(Act(v, c, g, op, now).slot, group), group, c)
  {
    ActTells(v, c, g, op, now);
  }

  lemma TellsOthers(v: Slot, c: ClientId, g: nat, op: Op, now: nat, group: string, d: ClientId, was: bool)
    requires d != c
    ensures TellsOf(Act(v, c, g, op, now).posts, was, was, group, d)
  {
    OnlyAbout(v, c, g, op, now, was, group, d);
  }

  lemma SlotTells(s: Shard, t: Shard, posts: seq<Post>, slot: Slot, c: ClientId, group: string)
    requires SlotOf(t, c) == slot && TellsOf(posts, MemberIn(SlotOf(s, c), group), MemberIn(slot, group), group, c)
    ensures TellsOf(posts, Member(s, group, c), Member(t, group, c), group, c)
  {
  }

  lemma StepTellsSelf(s: Shard, c: ClientId, op: Op, now: nat, group: string)
    requires Fits(SlotOf(s, c), c) && Announced(SlotOf(s, c), c, op)
    ensures TellsOf(Outcomes(s, c, op, now).posts, Member(s, group, c), Member(Step(s, c, op, now), group, c), group, c)
  {
    StepIsLocal(s, c, op, now, c);
    TellsSelf(SlotOf(s, c), c, s.nextGeneration + 1, op, now, group);
    SlotTells(s, Step(s, c, op, now), Outcomes(s, c, op, now).posts, Outcomes(s, c, op, now).slot, c, group);
  }

  lemma StepTellsOthers(s: Shard, c: ClientId, op: Op, now: nat, group: string, d: ClientId)
    requires d != c
    ensures TellsOf(Outcomes(s, c, op, now).posts, Member(s, group, d), Member(Step(s, c, op, now), group, d), group, d)
  {
    StepIsLocal(s, c, op, now, d);
    TellsOthers(SlotOf(s, c), c, s.nextGeneration + 1, op, now, group, d, Member(s, group, d));
  }

  /** On the sending shard, the announcements carry every client's old membership to its new one. */
  lemma StepTells(s: Shard, c: ClientId, op: Op, now: nat, group: string, d: ClientId)
    requires Fits(SlotOf(s, c), c) && Announced(SlotOf(s, c), c, op)
    ensures TellsOf(Outcomes(s, c, op, now).posts, Member(s, group, d), Member(Step(s, c, op, now), group, d), group, d)
  {
    if d == c { StepTellsSelf(s, c, op, now, group); } else { StepTellsOthers(s, c, op, now, group, d); }
  }

  lemma SendingSyncs(n: Net, home: ClientId -> nat, i: nat, s: Shard, es: seq<SharedEvent>, j: nat, group: string, d: ClientId)
    requires Inv(n, home) && i < |n.nodes| && j < |n.nodes| && s.remote == n.nodes[i].remote
    requires AfterAll(es, Member(n.nodes[i], group, d), group, d) == Member(s, group, d)
    ensures WellFormed(Replaced(n, i, s, es)) && Synced(Replaced(n, i, s, es), home, j, group, d)
  {
    assert Synced(n, home, j, group, d);
    if home(d) == i && i != j { AfterAppend(n.queues[i][j], es, InView(n.nodes[j], group, d), group, d); }
  }

  lemma SendingKeeps(n: Net, home: ClientId -> nat, i: nat, s: Shard, es: seq<SharedEvent>)
    requires Inv(n, home) && i < |n.nodes| && s.remote == n.nodes[i].remote
    requires NodeOk(s, i, home) && Homed(es, i, home)
    requires forall group, d :: AfterAll(es, Member(n.nodes[i], group, d), group, d) == Member(s, group, d)
    ensures Inv(Replaced(n, i, s, es), home)
  {
    var t := Replaced(n, i, s, es);
    forall j, group, d | 0 <= j < |n.nodes| ensures Synced(t, home, j, group, d) {
      SendingSyncs(n, home, i, s, es, j, group, d);
    }
    forall a, b | 0 <= a < |t.nodes| && 0 <= b < |t.nodes| ensures Homed(t.queues[a][b], a, home) {
      assert Homed(n.queues[a][b], a, home);
    }
  }

  lemma OperateKeeps(n: Net, home: ClientId -> nat, c: ClientId, op: Op, now: nat)
    requires Inv(n, home) && home(c) < |n.nodes| && Allowed(SlotOf(n.nodes[home(c)], c), c, op)
    ensures Inv(Operate(n, home(c), c, op, now), home)
  {
    var i, s := home(c), n.nodes[home(c)];
    NodeStaysOk(s, i, home, c, op, now);
    PostsHomed(SlotOf(s, c), c, s.nextGeneration + 1, op, now, home);
    var t, es := Step(s, c, op, now), SharedOf(Outcomes(s, c, op, now).posts);
    forall group, d ensures AfterAll(es, Member(s, group, d), group, d) == Member(t, group, d) {
      StepTells(s, c, op, now, group, d);
    }
    SendingKeeps(n, home, i, t, es);
  }

  lemma AppliedView(s: Shard, e: SharedEvent, group: string, c: ClientId)
    ensures InView(ApplyShared(s, e), group, c) == After(e, InView(s, group, c), group, c)
    ensures SlotOf(ApplyShared(s, e), c) == SlotOf(s, c)
  {
  }

  lemma ReceiveSyncs(n: Net, home: ClientId -> nat, a: nat, b: nat, j: nat, group: string, d: ClientId)
    requires Inv(n, home) && a < |n.nodes| && b < |n.nodes| && n.queues[a][b] != [] && j < |n.nodes|
    ensures WellFormed(Receive(n, a, b)) && Synced(Receive(n, a, b), home, j, group, d)
  {
    var e := n.queues[a][b][0];
    assert Synced(n, home, j, group, d);
    assert Homed(n.queues[a][b], a, home);
    AppliedView(n.nodes[b], e, group, d);
  }

  lemma ReceiveKeeps(n: Net, home: ClientId -> nat, a: nat, b: nat)
    requires Inv(n, home) && a < |n.nodes| && b < |n.nodes| && n.queues[a][b] != []
    ensures Inv(Receive(n, a, b), home)
  {
    var t, e := Receive(n, a, b), n.queues[a][b][0];
    forall j, group, d | 0 <= j < |n.nodes| ensures Synced(t, home, j, group, d) {
      ReceiveSyncs(n, home, a, b, j, group, d);
    }
    forall c ensures Fits(SlotOf(t.nodes[b], c), c) && (home(c) != b ==> SlotOf(t.nodes[b], c).session.None?) {
      AppliedView(n.nodes[b], e, "", c);
      assert NodeOk(n.nodes[b], b, home) && Fits(SlotOf(n.nodes[b], c), c);
    }
    forall i, j | 0 <= i < |t.nodes| && 0 <= j < |t.nodes| ensures Homed(t.queues[i][j], i, home) {
      assert Homed(n.queues[i][j], i, home);
    }
  }

  ghost predicate Initial(n: Net, home: ClientId -> nat) {
    && WellFormed(n)
    && (forall i, j | 0 <= i < |n.nodes| && 0 <= j < |n.nodes| :: n.queues[i][j] == [])
    && (forall i | 0 <= i < |n.nodes| :: NodeOk(n.nodes[i], i, home) && n.nodes[i].remote == map[])
    && (forall i, c | 0 <= i < |n.nodes| :: !Online(SlotOf(n.nodes[i], c)))
  }

  ghost predicate StepsAt(run: seq<Net>, k: nat, home: ClientId -> nat)
    requires k + 1 < |run|
  {
    Steps(run[k], run[k + 1], home)
  }

  ghost predicate IsRun(run: seq<Net>, home: ClientId -> nat) {
    run != [] && Initial(run[0], home) && forall k | 0 <= k < |run| - 1 :: StepsAt(run, k, home)
  }

  lemma StepKeeps(n: Net, t: Net, home: ClientId -> nat)
    requires Inv(n, home) && Steps(n, t, home)
    ensures Inv(t, home)
  {
    if OperateStep(n, t, home) {
      var c, op, now :| home(c) < |n.nodes| && Allowed(SlotOf(n.nodes[home(c)], c), c, op) && t == Operate(n, home(c), c, op, now);
      OperateKeeps(n, home, c, op, now);
    } else {
      var i: nat, j: nat :| i < |n.nodes| && j < |n.nodes| && n.queues[i][j] != [] && t == Receive(n, i, j);
      ReceiveKeeps(n, home, i, j);
    }
  }

  lemma {:induction false} RunsKeepInv(run: seq<Net>, home: ClientId -> nat, k: nat)
    requires IsRun(run, home) && k < |run|
    ensures Inv(run[k], home)
  {
    if k > 0 {
      RunsKeepInv(run, home, k - 1);
      assert StepsAt(run, k - 1, home);
      StepKeeps(run[k - 1], run[k], home);
    } else {
      forall j, group, c | 0 <= j < |run[0].nodes| ensures Synced(run[0], home, j, group, c) {}
    }
  }

  predicate Drained(n: Net)
    requires WellFormed(n)
  {
    forall i, j | 0 <= i < |n.nodes| && 0 <= j < |n.nodes| :: n.queues[i][j] == []
  }

  /** Membership convergence: in every state of every run whose queues are empty, a shard's view of a
      group is exactly the connected members held by the other shards. */
  lemma ViewsConverge(run: seq<Net>, home: ClientId -> nat, k: nat, j: nat, group: string, c: ClientId)
    requires IsRun(run, home) && k < |run| && WellFormed(run[k]) && Drained(run[k]) && j < |run[k].nodes|
    ensures InView(run[k].nodes[j], group, c)
       <==> exists i :: 0 <= i < |run[k].nodes| && i != j && Member(run[k].nodes[i], group, c)
  {
    RunsKeepInv(run, home, k);
    var n := run[k];
    assert Synced(n, home, j, group, c);
    forall i | 0 <= i < |n.nodes| && Member(n.nodes[i], group, c) ensures home(c) == i {
      assert NodeOk(n.nodes[i], i, home) && Fits(SlotOf(n.nodes[i], c), c);
    }
  }

  /** Clean Start over a connected member sends no Leave: the peers keep it in the group for good. */
  lemma CleanStartForgetsLeave()
    ensures var sub := Subscription("a", AtLeastOnce, false, false, Some("g"), None);
            var v := Slot(Some(Fresh(1)), {Entry("t", sub)}, false, false);
            var o := ActOpen(v, "a", 2, true);
            MemberIn(v, "g") && !MemberIn(o.slot, "g") && AfterAll(SharedOf(o.posts), true, "g", "a")
  {
    var sub := Subscription("a", AtLeastOnce, false, false, Some("g"), None);
    var v := Slot(Some(Fresh(1)), {Entry("t", sub)}, false, false);
    assert Entry("t", sub) in v.subs;
  }
}
