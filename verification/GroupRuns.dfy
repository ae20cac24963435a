/** Shared groups on a running mesh: when a message reaches exactly one member, over every state of
    every run whose queues are empty. */
module GroupRuns {
  import opened Types
  import opened ShardModel
  import opened SharedPick
  import opened GroupFilters
  import M = Membership
  import Order
  import Topics

  /** The shard's connected members of the group, whatever their filters. */
  function Members(s: Shard, group: string): set<ClientId> {
    set e | e in s.subs && e.sub.group == Some(group) && M.Online(SlotOf(s, e.sub.client)) :: e.sub.client
  }

  lemma MembersAre(s: Shard, group: string, c: ClientId)
    ensures c in Members(s, group) <==> M.Member(s, group, c)
  {
    if c in Members(s, group) {
      var e :| e in s.subs && e.sub.group == Some(group) && M.Online(SlotOf(s, e.sub.client)) && e.sub.client == c;
      assert e in SlotOf(s, c).subs;
    }
    if M.Member(s, group, c) {
      var e :| e in SlotOf(s, c).subs && e.sub.group == Some(group);
      assert e in s.subs && e.sub.client == c;
    }
  }

  ghost function AllMembers(n: M.Net, group: string): (ms: seq<set<ClientId>>)
    ensures |ms| == |n.nodes| && forall i | 0 <= i < |ms| :: ms[i] == Members(n.nodes[i], group)
  {
    seq(|n.nodes|, i requires 0 <= i < |n.nodes| => Members(n.nodes[i], group))
  }

  lemma OnlineIsNamed(s: Shard, group: string, topic: string, cursor: nat)
    ensures LocalOf(s, group, topic, cursor).online <= Members(s, group)
  {
    forall c | c in LocalOf(s, group, topic, cursor).online ensures c in Members(s, group) {
      var e :| e in s.subs && e.sub.group == Some(group) && Topics.Matches(e.filter, topic) && e.sub.client == c;
    }
  }

  lemma ViewIsByName(run: seq<M.Net>, home: ClientId -> nat, k: nat, group: string, j: nat, c: ClientId)
    requires M.IsRun(run, home) && k < |run| && M.WellFormed(run[k]) && M.Drained(run[k]) && j < |run[k].nodes|
    ensures c in View(run[k].nodes[j], group) <==> NamedElsewhere(AllMembers(run[k], group), j, c)
  {
    M.ViewsConverge(run, home, k, j, group, c);
    var n, ms := run[k], AllMembers(run[k], group);
    forall i | 0 <= i < |n.nodes| ensures c in ms[i] <==> M.Member(n.nodes[i], group, c) { MembersAre(n.nodes[i], group, c); }
  }

  lemma MembersAreApart(run: seq<M.Net>, home: ClientId -> nat, k: nat, group: string, a: nat, b: nat)
    requires M.IsRun(run, home) && k < |run| && a < |run[k].nodes| && b < |run[k].nodes| && a != b
    ensures Disjoint(AllMembers(run[k], group), a, b)
  {
    M.RunsKeepInv(run, home, k);
    var n := run[k];
    assert M.NodeOk(n.nodes[a], a, home) && M.NodeOk(n.nodes[b], b, home);
    forall c | c in Members(n.nodes[a], group) ensures c !in Members(n.nodes[b], group) {
      MembersAre(n.nodes[a], group, c);
      MembersAre(n.nodes[b], group, c);
      assert M.Fits(SlotOf(n.nodes[a], c), c);
    }
  }

  lemma NetIsByName(run: seq<M.Net>, home: ClientId -> nat, k: nat, group: string, topic: string, cursors: seq<nat>)
    requires M.IsRun(run, home) && k < |run| && M.WellFormed(run[k]) && M.Drained(run[k]) && |cursors| == |run[k].nodes|
    ensures ByName(Locals(run[k], group, topic, cursors), AllMembers(run[k], group))
  {
    var n, ls, ms := run[k], Locals(run[k], group, topic, cursors), AllMembers(run[k], group);
    forall i | 0 <= i < |ls| ensures ls[i].online <= ms[i] { OnlineIsNamed(n.nodes[i], group, topic, cursors[i]); }
    forall i, j | 0 <= i < |ls| && 0 <= j < |ls| && i != j ensures Disjoint(ms, i, j) {
      MembersAreApart(run, home, k, group, i, j);
    }
    forall j | 0 <= j < |ls| ensures SeesNames(ls, ms, j) {
      forall c ensures c in ls[j].remote <==> NamedElsewhere(ms, j, c) { ViewIsByName(run, home, k, group, j, c); }
    }
  }

  /** A shared group on a running mesh. In every drained state of every run with a connected member whose
      filter matches: each message on the topic is picked by exactly one shard, whatever its hash, if and
      only if no shard holding such a member sees a connected member elsewhere whose filters do not match. */
  lemma GroupPicksOnceExactlyWhen(run: seq<M.Net>, home: ClientId -> nat, k: nat, group: string, topic: string, cursors: seq<nat>)
    requires M.IsRun(run, home) && k < |run| && M.WellFormed(run[k]) && M.Drained(run[k]) && |cursors| == |run[k].nodes|
    requires Connected(Locals(run[k], group, topic, cursors))
    ensures var ls, ms := Locals(run[k], group, topic, cursors), AllMembers(run[k], group);
            (forall hash: nat :: PicksOnce(ls, hash)) <==> forall i | 0 <= i < |ls| :: !SeesMismatch(ls, ms, i)
  {
    NetIsByName(run, home, k, group, topic, cursors);
    PicksOnceExactlyWhen(Locals(run[k], group, topic, cursors), AllMembers(run[k], group));
  }

  // --- a mesh that misses and repeats ---------------------------------------------------------

  function Sub(c: ClientId): Subscription {
    Subscription(c, AtLeastOnce, false, false, Some("g"), None)
  }

  function Suspended(g: nat): Session {
    Session(None, None, g, None, [], None, false, false)
  }

  function FirstShard(): Shard {
    Shard(map["a" := Suspended(1)], 1, {Entry("t", Sub("a"))}, map[], map[], {}, {}, [], [])
  }

  function SecondShard(): Shard {
    Shard(map["b" := Suspended(1), "c" := Suspended(2)], 2, {Entry("t", Sub("b")), Entry("u", Sub("c"))}, map[], map[], {}, {}, [], [])
  }

  /** Two shards restarted with three suspended members of one group: two filter on "t", one on "u". */
  function Restarted(): M.Net {
    M.Net([FirstShard(), SecondShard()], [[[], []], [[], []]])
  }

  function Home(): ClientId -> nat {
    (c: ClientId) => if c == "a" then 0 else 1
  }

  lemma RestartedIsInitial()
    ensures M.Initial(Restarted(), Home())
  {
    var n := Restarted();
    forall c ensures M.Fits(SlotOf(n.nodes[0], c), c) && M.Fits(SlotOf(n.nodes[1], c), c) {}
    forall c ensures !M.Online(SlotOf(n.nodes[0], c)) && !M.Online(SlotOf(n.nodes[1], c)) {}
  }

  /** The run ends in a drained two-shard mesh. */
  ghost predicate Settled(run: seq<M.Net>) {
    && M.IsRun(run, Home())
    && |run[|run| - 1].nodes| == 2 && M.WellFormed(run[|run| - 1]) && M.Drained(run[|run| - 1])
  }

  /** Everyone but `c` is where they were, and `c` is online with its subscriptions. */
  ghost predicate CameOnline(n: M.Net, t: M.Net, c: ClientId)
    requires |n.nodes| == |t.nodes| == 2 && Home()(c) < 2
  {
    && M.Online(SlotOf(t.nodes[Home()(c)], c)) && SlotOf(t.nodes[Home()(c)], c).subs == SlotOf(n.nodes[Home()(c)], c).subs
    && forall i, d | 0 <= i < 2 && (d != c || i != Home()(c)) :: SlotOf(t.nodes[i], d) == SlotOf(n.nodes[i], d)
  }

  lemma Extend(run: seq<M.Net>, t: M.Net)
    requires M.IsRun(run, Home()) && M.Steps(run[|run| - 1], t, Home())
    ensures M.IsRun(run + [t], Home())
  {
    forall k | 0 <= k < |run| ensures M.StepsAt(run + [t], k, Home()) {
      if k < |run| - 1 { assert M.StepsAt(run, k, Home()); }
    }
  }

  /** Opening a suspended session of group "g" puts it online and announces the member. */
  lemma OpenAnnounces(s: Shard, c: ClientId) returns (t: Shard)
    requires c in s.sessions && GroupsIn(SlotOf(s, c).subs) == {"g"}
    ensures t == Step(s, c, Open(false), 0) && M.SharedOf(Outcomes(s, c, Open(false), 0).posts) == [Join("g", c)]
    ensures M.Online(SlotOf(t, c)) && SlotOf(t, c).subs == SlotOf(s, c).subs
    ensures forall d | d != c :: SlotOf(t, d) == SlotOf(s, d)
  {
    t := Step(s, c, Open(false), 0);
    var posts := Outcomes(s, c, Open(false), 0).posts;
    assert Order.Sorted({"g"})[0] in Order.Sorted({"g"});
    assert posts == [Notice("g", c, true)];
    assert M.SharedOf(posts) == [Join("g", c)] + M.SharedOf(posts[1..]);
    StepIsLocal(s, c, Open(false), 0, c);
    forall d | d != c ensures SlotOf(t, d) == SlotOf(s, d) { StepIsLocal(s, c, Open(false), 0, d); }
  }

  /** One message is under way, from `h` to the other shard. */
  ghost predicate OneUnderWay(n: M.Net, h: nat, e: SharedEvent) {
    && |n.nodes| == 2 && h < 2 && M.WellFormed(n) && n.queues[h][1 - h] == [e]
    && forall i, j | 0 <= i < 2 && 0 <= j < 2 && !(i == h && j == 1 - h) :: n.queues[i][j] == []
  }

  lemma OneSent(n: M.Net, h: nat, s: Shard, e: SharedEvent)
    requires |n.nodes| == 2 && M.WellFormed(n) && M.Drained(n) && h < 2
    ensures OneUnderWay(M.Replaced(n, h, s, [e]), h, e)
  {
    var t := M.Replaced(n, h, s, [e]);
    assert t.queues[h][1 - h] == [] + [e];
    forall i, j | 0 <= i < 2 && 0 <= j < 2 && !(i == h && j == 1 - h) ensures t.queues[i][j] == [] { assert n.queues[i][j] == []; }
  }

  lemma OpenStep(n: M.Net, c: ClientId) returns (t: M.Net)
    requires |n.nodes| == 2 && M.WellFormed(n) && M.Drained(n)
    requires c in n.nodes[Home()(c)].sessions && GroupsIn(SlotOf(n.nodes[Home()(c)], c).subs) == {"g"}
    ensures M.Steps(n, t, Home()) && OneUnderWay(t, Home()(c), Join("g", c)) && CameOnline(n, t, c)
  {
    var h := Home()(c);
    var s := OpenAnnounces(n.nodes[h], c);
    OneSent(n, h, s, Join("g", c));
    t := M.Replaced(n, h, s, [Join("g", c)]);
    assert t == M.Operate(n, h, c, Open(false), 0);
    assert M.Allowed(SlotOf(n.nodes[h], c), c, Open(false));
    assert M.OperateStep(n, t, Home());
  }

  lemma HearStep(n: M.Net, h: nat, e: SharedEvent) returns (t: M.Net)
    requires OneUnderWay(n, h, e)
    ensures M.Steps(n, t, Home()) && |t.nodes| == 2 && M.WellFormed(t) && M.Drained(t)
    ensures forall i, d | 0 <= i < 2 :: SlotOf(t.nodes[i], d) == SlotOf(n.nodes[i], d)
  {
    t := M.Receive(n, h, 1 - h);
    assert M.ReceiveStep(n, t);
    forall i, d | 0 <= i < 2 ensures SlotOf(t.nodes[i], d) == SlotOf(n.nodes[i], d) {
      M.AppliedView(n.nodes[1 - h], e, "g", d);
    }
  }

  /** A suspended member reconnects and its shard's announcement is received. */
  lemma Reconnects(run: seq<M.Net>, c: ClientId) returns (longer: seq<M.Net>)
    requires Settled(run)
    requires var s := run[|run| - 1].nodes[Home()(c)]; c in s.sessions && GroupsIn(SlotOf(s, c).subs) == {"g"}
    ensures Settled(longer) && CameOnline(run[|run| - 1], longer[|longer| - 1], c)
  {
    var back := OpenStep(run[|run| - 1], c);
    Extend(run, back);
    var heard := HearStep(back, Home()(c), Join("g", c));
    Extend(run + [back], heard);
    longer := run + [back] + [heard];
  }

  /** The restarted mesh, with these members back. */
  ghost predicate Back(t: M.Net, who: set<ClientId>) {
    |t.nodes| == 2 && forall i, c | 0 <= i < 2 :: BackAt(t, who, i, c)
  }

  ghost predicate BackAt(t: M.Net, who: set<ClientId>, i: nat, c: ClientId)
    requires i < 2 == |t.nodes|
  {
    && SlotOf(t.nodes[i], c).subs == SlotOf(Restarted().nodes[i], c).subs
    && (c in t.nodes[i].sessions <==> c in Restarted().nodes[i].sessions)
    && (M.Online(SlotOf(t.nodes[i], c)) <==> c in who && c in Restarted().nodes[i].sessions)
  }

  lemma OneMoreBack(run: seq<M.Net>, who: set<ClientId>, c: ClientId) returns (longer: seq<M.Net>)
    requires Settled(run) && Back(run[|run| - 1], who)
    requires c in Restarted().nodes[Home()(c)].sessions && GroupsIn(SlotOf(Restarted().nodes[Home()(c)], c).subs) == {"g"}
    requires c !in Restarted().nodes[1 - Home()(c)].sessions
    ensures Settled(longer) && Back(longer[|longer| - 1], who + {c})
  {
    var n := run[|run| - 1];
    assert BackAt(n, who, Home()(c), c);
    longer := Reconnects(run, c);
    var t := longer[|longer| - 1];
    forall i, d | 0 <= i < 2 ensures BackAt(t, who + {c}, i, d) { OneIsBack(n, t, who, c, i, d); }
  }

  lemma OneIsBack(n: M.Net, t: M.Net, who: set<ClientId>, c: ClientId, i: nat, d: ClientId)
    requires |n.nodes| == |t.nodes| == 2 && i < 2 && BackAt(n, who, i, d) && CameOnline(n, t, c)
    requires c in Restarted().nodes[Home()(c)].sessions && c !in Restarted().nodes[1 - Home()(c)].sessions
    ensures BackAt(t, who + {c}, i, d)
  {
    if d == c && i == Home()(c) {
      assert SlotOf(t.nodes[i], d).session.Some?;
    } else {
      assert SlotOf(t.nodes[i], d) == SlotOf(n.nodes[i], d);
      assert SlotOf(n.nodes[i], d).session.Some? <==> d in n.nodes[i].sessions;
      assert SlotOf(t.nodes[i], d).session.Some? <==> d in t.nodes[i].sessions;
    }
  }

  /** All three are back. */
  lemma AllReconnect() returns (run: seq<M.Net>)
    ensures Settled(run) && Back(run[|run| - 1], {"a", "b", "c"})
  {
    RestartedIsInitial();
    run := [Restarted()];
    InGroup(FirstShard(), "a", "t");
    InGroup(SecondShard(), "b", "t");
    InGroup(SecondShard(), "c", "u");
    run := OneMoreBack(run, {}, "a");
    run := OneMoreBack(run, {} + {"a"}, "b");
    run := OneMoreBack(run, {} + {"a"} + {"b"}, "c");
    assert {} + {"a"} + {"b"} + {"c"} == {"a", "b", "c"};
  }

  lemma InGroup(s: Shard, c: ClientId, filter: string)
    requires s == FirstShard() || s == SecondShard()
    requires Entry(filter, Sub(c)) in s.subs && forall e | e in s.subs && e.sub.client == c :: e == Entry(filter, Sub(c))
    ensures SlotOf(s, c).subs == {Entry(filter, Sub(c))} && GroupsIn(SlotOf(s, c).subs) == {"g"}
  {
    assert Entry(filter, Sub(c)) in SlotOf(s, c).subs;
  }

  lemma SameSubs(t: M.Net, who: set<ClientId>, i: nat)
    requires Back(t, who) && i < 2
    ensures t.nodes[i].subs == Restarted().nodes[i].subs
  {
    forall e ensures e in t.nodes[i].subs <==> e in Restarted().nodes[i].subs {
      assert BackAt(t, who, i, e.sub.client);
      assert e in t.nodes[i].subs <==> e in SlotOf(t.nodes[i], e.sub.client).subs;
      assert e in Restarted().nodes[i].subs <==> e in SlotOf(Restarted().nodes[i], e.sub.client).subs;
    }
  }

  lemma OnlyTMatches()
    ensures Topics.Matches("t", "t") && !Topics.Matches("u", "t")
  {
    OneLevel("t");
    OneLevel("u");
  }

  lemma OneLevel(s: string)
    requires |s| == 1 && s[0] != '/'
    ensures Topics.Split(s) == [s]
  {
    assert s[1..] == "" && [s[0]] == s;
    assert [s[0]] + "" == s;
  }

  lemma OnlineWhenBack(t: M.Net, i: nat, c: ClientId)
    requires Back(t, {"a", "b", "c"}) && i < 2 && c in Restarted().nodes[i].sessions
    ensures M.Online(SlotOf(t.nodes[i], c))
  {
    assert BackAt(t, {"a", "b", "c"}, i, c);
  }

  lemma WhoIsWhere(t: M.Net)
    requires Back(t, {"a", "b", "c"})
    ensures Candidates(t.nodes[0], "g", "t") == {"a"} && Members(t.nodes[0], "g") == {"a"}
    ensures Candidates(t.nodes[1], "g", "t") == {"b"} && Members(t.nodes[1], "g") == {"b", "c"}
    ensures LocalOf(t.nodes[0], "g", "t", 0).online == {"a"} && LocalOf(t.nodes[1], "g", "t", 0).online == {"b"}
  {
    SameSubs(t, {"a", "b", "c"}, 0);
    SameSubs(t, {"a", "b", "c"}, 1);
    OnlyTMatches();
    OnlineWhenBack(t, 0, "a");
    OnlineWhenBack(t, 1, "b");
    OnlineWhenBack(t, 1, "c");
    assert Entry("t", Sub("a")) in t.nodes[0].subs && Entry("t", Sub("b")) in t.nodes[1].subs && Entry("u", Sub("c")) in t.nodes[1].subs;
  }

  lemma SortedNames()
    ensures Order.Sorted({"a"} + {"b", "c"}) == ["a", "b", "c"] && Order.Sorted({"b"} + {"a"}) == ["a", "b"]
  {
    assert "a"[0] < "b"[0] < "c"[0];
    Order.IncreasingIsUnique(["a", "b", "c"], Order.Sorted({"a"} + {"b", "c"}));
    Order.IncreasingIsUnique(["a", "b"], Order.Sorted({"b"} + {"a"}));
  }

  /** The two shards' decisions: nobody for hash 2, both for hash 3. */
  lemma MissesAndRepeats(here: Local, there: Local)
    requires here == Local({"a"}, {"a"}, {"b", "c"}, 0) && there == Local({"b"}, {"b"}, {"a"}, 0)
    ensures Pick(here, 2).None? && Pick(there, 2).None?
    ensures Pick(here, 3) == Some("a") && Pick(there, 3) == Some("b")
  {
    SortedNames();
    assert Nth({"a"} + {"b", "c"}, 2) == "c" && Nth({"a"} + {"b", "c"}, 3) == "a";
    assert Nth({"b"} + {"a"}, 2) == "a" && Nth({"b"} + {"a"}, 3) == "b";
  }

  lemma ViewsWhenBack(run: seq<M.Net>)
    requires Settled(run) && Back(run[|run| - 1], {"a", "b", "c"})
    ensures View(run[|run| - 1].nodes[0], "g") == {"b", "c"} && View(run[|run| - 1].nodes[1], "g") == {"a"}
  {
    var k := |run| - 1;
    WhoIsWhere(run[k]);
    forall c ensures c in View(run[k].nodes[0], "g") <==> c in {"b", "c"} { ViewIsByName(run, Home(), k, "g", 0, c); }
    forall c ensures c in View(run[k].nodes[1], "g") <==> c in {"a"} { ViewIsByName(run, Home(), k, "g", 1, c); }
  }

  /** There is a run to a drained mesh where a group with two members on "t" and one on "u" loses one
      message on "t" and delivers another twice. */
  lemma MismatchedFiltersMissAndRepeat() returns (run: seq<M.Net>)
    ensures M.IsRun(run, Home()) && M.WellFormed(run[|run| - 1]) && M.Drained(run[|run| - 1]) && |run[|run| - 1].nodes| == 2
    ensures var ls := Locals(run[|run| - 1], "g", "t", [0, 0]);
            && Connected(ls)
            && Pick(ls[0], 2).None? && Pick(ls[1], 2).None?
            && Pick(ls[0], 3) == Some("a") && Pick(ls[1], 3) == Some("b")
  {
    run := AllReconnect();
    WhoIsWhere(run[|run| - 1]);
    ViewsWhenBack(run);
    var ls := Locals(run[|run| - 1], "g", "t", [0, 0]);
    assert ls[0].online != {};
    MissesAndRepeats(ls[0], ls[1]);
  }
}
