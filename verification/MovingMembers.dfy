/** Group membership of clients that move between shards. What the old shard says of a client and
    what the new one says travel in different queues, with no order between them. */
module MovingMembers {
  import opened Types
  import opened ShardModel
  import M = Membership

  /** The queue says something of this client. */
  ghost predicate About(q: seq<SharedEvent>, c: ClientId) {
    exists k :: 0 <= k < |q| && q[k].client == c
  }

  lemma {:induction false} NothingAbout(q: seq<SharedEvent>, bit: bool, group: string, c: ClientId)
    requires !About(q, c)
    ensures M.AfterAll(q, bit, group, c) == bit
    decreases |q|
  {
    if q != [] {
      assert q[0].client != c;
      assert !About(q[1..], c) by {
        forall k | 0 <= k < |q[1..]| ensures q[1..][k].client != c { assert q[1..][k] == q[k + 1]; }
      }
      NothingAbout(q[1..], M.After(q[0], bit, group, c), group, c);
    }
  }

  lemma AboutMore(q: seq<SharedEvent>, es: seq<SharedEvent>, c: ClientId)
    ensures About(q + es, c) <==> About(q, c) || About(es, c)
  {
    if About(q, c) {
      var k :| 0 <= k < |q| && q[k].client == c;
      assert (q + es)[k].client == c;
    }
    if About(es, c) {
      var k :| 0 <= k < |es| && es[k].client == c;
      assert (q + es)[|q| + k].client == c;
    }
    if About(q + es, c) {
      var k :| 0 <= k < |q + es| && (q + es)[k].client == c;
      if k < |q| { assert q[k].client == c; } else { assert es[k - |q|].client == c; }
    }
  }

  /** A connected member on some other shard. */
  ghost predicate Elsewhere(n: M.Net, j: nat, group: string, c: ClientId) {
    exists k :: 0 <= k < |n.nodes| && k != j && M.Member(n.nodes[k], group, c)
  }

  /** At most one shard has something to say of the client. */
  ghost predicate OneSender(n: M.Net, c: ClientId)
    requires M.WellFormed(n)
  {
    forall i, j, k, l | 0 <= i < |n.nodes| && 0 <= j < |n.nodes| && 0 <= k < |n.nodes| && 0 <= l < |n.nodes| ::
      About(n.queues[i][j], c) && About(n.queues[k][l], c) ==> i == k
  }

  /** At most one shard has it as a connected member. */
  ghost predicate OneHolder(n: M.Net, c: ClientId) {
    forall i, k, g, h | 0 <= i < |n.nodes| && 0 <= k < |n.nodes| ::
      M.Member(n.nodes[i], g, c) && M.Member(n.nodes[k], h, c) ==> i == k
  }

  /** What shard `j` will think once it has heard everything from shard `i`. */
  ghost predicate Hears(n: M.Net, i: nat, j: nat, group: string, c: ClientId)
    requires M.WellFormed(n) && i < |n.nodes| && j < |n.nodes|
  {
    M.AfterAll(n.queues[i][j], M.InView(n.nodes[j], group, c), group, c) == Elsewhere(n, j, group, c)
  }

  /** Shard `j` knows of the client, or will once it has heard what is under way. */
  ghost predicate Informed(n: M.Net, j: nat, group: string, c: ClientId)
    requires M.WellFormed(n) && j < |n.nodes|
  {
    && (forall i | 0 <= i < |n.nodes| && About(n.queues[i][j], c) :: Hears(n, i, j, group, c))
    && ((forall i | 0 <= i < |n.nodes| :: !About(n.queues[i][j], c)) ==> M.InView(n.nodes[j], group, c) == Elsewhere(n, j, group, c))
  }

  ghost predicate ClientOk(n: M.Net, c: ClientId)
    requires M.WellFormed(n)
  {
    && OneSender(n, c) && OneHolder(n, c)
    && (forall i | 0 <= i < |n.nodes| :: M.Fits(SlotOf(n.nodes[i], c), c))
    && (forall j, group | 0 <= j < |n.nodes| :: Informed(n, j, group, c))
  }

  ghost predicate Inv(n: M.Net) {
    M.WellFormed(n) && (forall i | 0 <= i < |n.nodes| :: n.queues[i][i] == []) && forall c :: ClientOk(n, c)
  }

  /** The shard may speak of the client: no other shard has it as a member, and nothing that another shard
      said of it is still under way. */
  ghost predicate HasTheWord(n: M.Net, i: nat, c: ClientId)
    requires M.WellFormed(n)
  {
    && (forall k, j | 0 <= k < |n.nodes| && 0 <= j < |n.nodes| && k != i :: !About(n.queues[k][j], c))
    && (forall k, g | 0 <= k < |n.nodes| && k != i :: !M.Member(n.nodes[k], g, c))
  }

  /** Whatever an operation announces is about its own client. */
  lemma PostsAbout(v: Slot, c: ClientId, g: nat, op: Op, now: nat, k: nat)
    requires k < |M.SharedOf(Act(v, c, g, op, now).posts)|
    ensures M.SharedOf(Act(v, c, g, op, now).posts)[k].client == c
  {
    var mine: ClientId -> nat := (x: ClientId) => if x == c then 0 else 1;
    M.PostsHomed(v, c, g, op, now, mine);
  }

  // --- an operation ------------------------------------------------------------------------------

  /** A shard's table changes for one client, with announcements about that client only, which carry its
      old membership to the new. */
  ghost predicate Speaks(s: Shard, t: Shard, es: seq<SharedEvent>, c: ClientId) {
    && t.remote == s.remote
    && (forall k | 0 <= k < |es| :: es[k].client == c)
    && (forall d | d != c :: SlotOf(t, d) == SlotOf(s, d))
    && (forall group :: M.AfterAll(es, M.Member(s, group, c), group, c) == M.Member(t, group, c))
    && M.Fits(SlotOf(t, c), c)
  }

  lemma StepSpeaks(s: Shard, c: ClientId, op: Op, now: nat)
    requires M.Fits(SlotOf(s, c), c) && M.Allowed(SlotOf(s, c), c, op)
    ensures Speaks(s, Step(s, c, op, now), M.SharedOf(Outcomes(s, c, op, now).posts), c)
  {
    var es := M.SharedOf(Outcomes(s, c, op, now).posts);
    forall k | 0 <= k < |es| ensures es[k].client == c { PostsAbout(SlotOf(s, c), c, s.nextGeneration + 1, op, now, k); }
    forall d | d != c ensures SlotOf(Step(s, c, op, now), d) == SlotOf(s, d) { StepIsLocal(s, c, op, now, d); }
    forall group ensures M.AfterAll(es, M.Member(s, group, c), group, c) == M.Member(Step(s, c, op, now), group, c) {
      M.StepTells(s, c, op, now, group, c);
    }
    StepIsLocal(s, c, op, now, c);
    M.ActFits(SlotOf(s, c), c, s.nextGeneration + 1, op, now);
  }

  /** Of another client the queues say what they said. */
  lemma QueueForOthers(q: seq<SharedEvent>, es: seq<SharedEvent>, c: ClientId, d: ClientId, bit: bool, group: string)
    requires d != c && forall k | 0 <= k < |es| :: es[k].client == c
    ensures About(q + es, d) <==> About(q, d)
    ensures M.AfterAll(q + es, bit, group, d) == M.AfterAll(q, bit, group, d)
  {
    AboutMore(q, es, d);
    M.AfterAppend(q, es, bit, group, d);
    NothingAbout(es, M.AfterAll(q, bit, group, d), group, d);
  }

  lemma OthersKeepInformed(n: M.Net, i: nat, s: Shard, es: seq<SharedEvent>, c: ClientId, d: ClientId, j: nat, group: string)
    requires M.WellFormed(n) && i < |n.nodes| && j < |n.nodes| && d != c && Speaks(n.nodes[i], s, es, c) && Informed(n, j, group, d)
    ensures M.WellFormed(M.Replaced(n, i, s, es)) && Informed(M.Replaced(n, i, s, es), j, group, d)
  {
    var t := M.Replaced(n, i, s, es);
    forall k | 0 <= k < |n.nodes| ensures M.Member(t.nodes[k], group, d) == M.Member(n.nodes[k], group, d) {}
    assert Elsewhere(t, j, group, d) == Elsewhere(n, j, group, d);
    forall k, bit | 0 <= k < |n.nodes|
      ensures About(t.queues[k][j], d) <==> About(n.queues[k][j], d)
      ensures M.AfterAll(t.queues[k][j], bit, group, d) == M.AfterAll(n.queues[k][j], bit, group, d)
    {
      QueueForOthers(n.queues[k][j], es, c, d, bit, group);
    }
  }

  lemma OthersKept(n: M.Net, i: nat, s: Shard, es: seq<SharedEvent>, c: ClientId, d: ClientId)
    requires M.WellFormed(n) && i < |n.nodes| && d != c && Speaks(n.nodes[i], s, es, c) && ClientOk(n, d)
    ensures M.WellFormed(M.Replaced(n, i, s, es)) && ClientOk(M.Replaced(n, i, s, es), d)
  {
    var t := M.Replaced(n, i, s, es);
    forall k, l | 0 <= k < |n.nodes| && 0 <= l < |n.nodes| ensures About(t.queues[k][l], d) <==> About(n.queues[k][l], d) {
      QueueForOthers(n.queues[k][l], es, c, d, true, "");
    }
    forall k, g | 0 <= k < |n.nodes| ensures M.Member(t.nodes[k], g, d) == M.Member(n.nodes[k], g, d) {}
    forall j, group | 0 <= j < |n.nodes| ensures Informed(t, j, group, d) { OthersKeepInformed(n, i, s, es, c, d, j, group); }
  }

  /** A shard that has the word keeps everyone informed of what it says. */
  lemma SpokenInforms(n: M.Net, i: nat, s: Shard, es: seq<SharedEvent>, c: ClientId, j: nat, group: string)
    requires M.WellFormed(n) && i < |n.nodes| && j < |n.nodes| && Speaks(n.nodes[i], s, es, c) && ClientOk(n, c) && HasTheWord(n, i, c)
    requires n.queues[i][i] == []
    ensures M.WellFormed(M.Replaced(n, i, s, es)) && Informed(M.Replaced(n, i, s, es), j, group, c)
  {
    var t := M.Replaced(n, i, s, es);
    assert Informed(n, j, group, c);
    if j == i {
      assert Elsewhere(n, j, group, c) == Elsewhere(t, j, group, c) == false;
    } else {
      assert Elsewhere(n, j, group, c) == M.Member(n.nodes[i], group, c) && Elsewhere(t, j, group, c) == M.Member(s, group, c) by {
        assert t.nodes[i] == s && n.nodes[i] == n.nodes[i];
      }
      var q, bit := n.queues[i][j], M.InView(n.nodes[j], group, c);
      M.AfterAppend(q, es, bit, group, c);
      AboutMore(q, es, c);
      if !About(q, c) { NothingAbout(q, bit, group, c); }
      if !About(q + es, c) { NothingAbout(q + es, bit, group, c); }
      assert t.queues[i][j] == q + es;
    }
  }

  lemma SpokenKept(n: M.Net, i: nat, s: Shard, es: seq<SharedEvent>, c: ClientId)
    requires M.WellFormed(n) && i < |n.nodes| && Speaks(n.nodes[i], s, es, c) && ClientOk(n, c) && HasTheWord(n, i, c)
    requires n.queues[i][i] == []
    ensures M.WellFormed(M.Replaced(n, i, s, es)) && ClientOk(M.Replaced(n, i, s, es), c)
  {
    var t := M.Replaced(n, i, s, es);
    forall k, l | 0 <= k < |n.nodes| && 0 <= l < |n.nodes| && About(t.queues[k][l], c) ensures k == i {}
    forall k, g | 0 <= k < |n.nodes| && M.Member(t.nodes[k], g, c) ensures k == i {}
    forall j, group | 0 <= j < |n.nodes| ensures Informed(t, j, group, c) { SpokenInforms(n, i, s, es, c, j, group); }
  }

  /** A shard that says nothing of the client changes nothing about it. */
  lemma SilentKept(n: M.Net, i: nat, s: Shard, c: ClientId)
    requires M.WellFormed(n) && i < |n.nodes| && Speaks(n.nodes[i], s, [], c) && ClientOk(n, c)
    ensures M.WellFormed(M.Replaced(n, i, s, [])) && ClientOk(M.Replaced(n, i, s, []), c)
  {
    var t := M.Replaced(n, i, s, []);
    forall k, l | 0 <= k < |n.nodes| && 0 <= l < |n.nodes| ensures t.queues[k][l] == n.queues[k][l] { assert n.queues[k][l] + [] == n.queues[k][l]; }
    forall k, g | 0 <= k < |n.nodes| ensures M.Member(t.nodes[k], g, c) == M.Member(n.nodes[k], g, c) {
      assert M.AfterAll([], M.Member(n.nodes[i], g, c), g, c) == M.Member(n.nodes[i], g, c);
    }
    forall j, group | 0 <= j < |n.nodes| ensures Informed(t, j, group, c) {
      assert Informed(n, j, group, c);
      assert Elsewhere(t, j, group, c) == Elsewhere(n, j, group, c);
    }
  }

  // --- a message is heard ---------------------------------------------------------------------------

  lemma SameMembers(n: M.Net, a: nat, b: nat, c: ClientId)
    requires M.WellFormed(n) && a < |n.nodes| && b < |n.nodes| && n.queues[a][b] != []
    ensures var t := M.Receive(n, a, b);
            && M.WellFormed(t) && |t.nodes| == |n.nodes|
            && (forall k | 0 <= k < |n.nodes| :: SlotOf(t.nodes[k], c) == SlotOf(n.nodes[k], c))
            && (forall j, group :: Elsewhere(t, j, group, c) == Elsewhere(n, j, group, c))
  {
    var t := M.Receive(n, a, b);
    forall k | 0 <= k < |n.nodes| ensures SlotOf(t.nodes[k], c) == SlotOf(n.nodes[k], c) {
      M.AppliedView(n.nodes[b], n.queues[a][b][0], "", c);
    }
    forall j, group ensures Elsewhere(t, j, group, c) == Elsewhere(n, j, group, c) {
      forall k | 0 <= k < |n.nodes| ensures M.Member(t.nodes[k], group, c) == M.Member(n.nodes[k], group, c) {}
    }
  }

  lemma AboutTail(q: seq<SharedEvent>, c: ClientId)
    requires q != []
    ensures About(q, c) <==> q[0].client == c || About(q[1..], c)
  {
    assert q == [q[0]] + q[1..];
    AboutMore([q[0]], q[1..], c);
    assert About([q[0]], c) <==> q[0].client == c by {
      if q[0].client == c { assert [q[0]][0].client == c; }
    }
  }

  lemma HeardInforms(n: M.Net, a: nat, b: nat, j: nat, group: string, c: ClientId)
    requires M.WellFormed(n) && a < |n.nodes| && b < |n.nodes| && n.queues[a][b] != [] && j < |n.nodes| && ClientOk(n, c)
    ensures M.WellFormed(M.Receive(n, a, b)) && Informed(M.Receive(n, a, b), j, group, c)
  {
    var t, q := M.Receive(n, a, b), n.queues[a][b];
    SameMembers(n, a, b, c);
    AboutTail(q, c);
    assert Informed(n, j, group, c);
    M.AppliedView(n.nodes[b], q[0], group, c);
    assert t.queues[a][b] == q[1..];
    if j == b && q[0].client == c {
      assert Hears(n, a, b, group, c) && Hears(t, a, b, group, c);
      if !About(q[1..], c) { NothingAbout(q[1..], M.InView(t.nodes[b], group, c), group, c); }
    } else {
      forall i | 0 <= i < |n.nodes| ensures About(t.queues[i][j], c) <==> About(n.queues[i][j], c) {}
    }
  }

  lemma HeardKept(n: M.Net, a: nat, b: nat, c: ClientId)
    requires M.WellFormed(n) && a < |n.nodes| && b < |n.nodes| && n.queues[a][b] != [] && ClientOk(n, c)
    ensures M.WellFormed(M.Receive(n, a, b)) && ClientOk(M.Receive(n, a, b), c)
  {
    var t := M.Receive(n, a, b);
    SameMembers(n, a, b, c);
    AboutTail(n.queues[a][b], c);
    forall k, l | 0 <= k < |n.nodes| && 0 <= l < |n.nodes| ensures About(t.queues[k][l], c) ==> About(n.queues[k][l], c) {}
    forall k, g | 0 <= k < |n.nodes| ensures M.Member(t.nodes[k], g, c) == M.Member(n.nodes[k], g, c) {}
    forall j, group | 0 <= j < |n.nodes| ensures Informed(t, j, group, c) { HeardInforms(n, a, b, j, group, c); }
  }

  // --- runs -------------------------------------------------------------------------------------------

  /** An operation on any client at any shard, which speaks of the client only when it has the word. */
  ghost predicate OperateStep(n: M.Net, t: M.Net)
    requires M.WellFormed(n)
  {
    exists i: nat, c, op, now :: i < |n.nodes| && Orderly(n, i, c, op, now) && t == M.Operate(n, i, c, op, now)
  }

  ghost predicate Orderly(n: M.Net, i: nat, c: ClientId, op: Op, now: nat)
    requires M.WellFormed(n) && i < |n.nodes|
  {
    && M.Allowed(SlotOf(n.nodes[i], c), c, op)
    && (M.SharedOf(Outcomes(n.nodes[i], c, op, now).posts) != [] ==> HasTheWord(n, i, c))
  }

  ghost predicate Steps(n: M.Net, t: M.Net) {
    M.WellFormed(n) && (OperateStep(n, t) || M.ReceiveStep(n, t))
  }

  lemma OperateKeeps(n: M.Net, i: nat, c: ClientId, op: Op, now: nat)
    requires Inv(n) && i < |n.nodes| && Orderly(n, i, c, op, now)
    ensures Inv(M.Operate(n, i, c, op, now))
  {
    var s, es := Step(n.nodes[i], c, op, now), M.SharedOf(Outcomes(n.nodes[i], c, op, now).posts);
    assert ClientOk(n, c);
    StepSpeaks(n.nodes[i], c, op, now);
    if es == [] { SilentKept(n, i, s, c); } else { SpokenKept(n, i, s, es, c); }
    forall d ensures ClientOk(M.Replaced(n, i, s, es), d) {
      assert ClientOk(n, d);
      if d != c { OthersKept(n, i, s, es, c, d); }
    }
  }

  lemma StepKeeps(n: M.Net, t: M.Net)
    requires Inv(n) && Steps(n, t)
    ensures Inv(t)
  {
    if OperateStep(n, t) {
      var i: nat, c, op, now :| i < |n.nodes| && Orderly(n, i, c, op, now) && t == M.Operate(n, i, c, op, now);
      OperateKeeps(n, i, c, op, now);
    } else {
      var i: nat, j: nat :| i < |n.nodes| && j < |n.nodes| && n.queues[i][j] != [] && t == M.Receive(n, i, j);
      forall c ensures ClientOk(t, c) {
        assert ClientOk(n, c);
        HeardKept(n, i, j, c);
      }
    }
  }

  ghost predicate Initial(n: M.Net) {
    && M.WellFormed(n) && M.Drained(n)
    && (forall i | 0 <= i < |n.nodes| :: n.nodes[i].remote == map[])
    && (forall i, c | 0 <= i < |n.nodes| :: M.Fits(SlotOf(n.nodes[i], c), c) && !M.Online(SlotOf(n.nodes[i], c)))
  }

  lemma InitialIsOk(n: M.Net)
    requires Initial(n)
    ensures Inv(n)
  {
    forall c ensures ClientOk(n, c) {
      forall j, group | 0 <= j < |n.nodes| ensures Informed(n, j, group, c) {
        assert !Elsewhere(n, j, group, c);
      }
    }
  }

  ghost predicate StepsAt(run: seq<M.Net>, k: nat)
    requires k + 1 < |run|
  {
    Steps(run[k], run[k + 1])
  }

  ghost predicate IsRun(run: seq<M.Net>) {
    run != [] && Initial(run[0]) && forall k | 0 <= k < |run| - 1 :: StepsAt(run, k)
  }

  lemma {:induction false} RunsKeepInv(run: seq<M.Net>, k: nat)
    requires IsRun(run) && k < |run|
    ensures Inv(run[k])
  {
    if k == 0 {
      InitialIsOk(run[0]);
    } else {
      RunsKeepInv(run, k - 1);
      assert StepsAt(run, k - 1);
      StepKeeps(run[k - 1], run[k]);
    }
  }

  /** Convergence for clients that move. If a shard speaks of a client only when no other shard has it as a
      connected member or has anything about it still under way, then in every state of every run whose
      queues are empty a shard's view of a group is exactly the connected members held by the others. */
  lemma MovingViewsConverge(run: seq<M.Net>, k: nat, j: nat, group: string, c: ClientId)
    requires IsRun(run) && k < |run| && M.WellFormed(run[k]) && M.Drained(run[k]) && j < |run[k].nodes|
    ensures M.InView(run[k].nodes[j], group, c) <==> Elsewhere(run[k], j, group, c)
  {
    RunsKeepInv(run, k);
    assert ClientOk(run[k], c);
    assert Informed(run[k], j, group, c);
  }

  // --- every order of hearing ---------------------------------------------------------------------------

  /** The last thing a queue says of the client in this group, if it says anything. */
  function LastWord(q: seq<SharedEvent>, group: string, c: ClientId): Option<bool> {
    if q == [] then None
    else if LastWord(q[1..], group, c).Some? then LastWord(q[1..], group, c)
    else if q[0].group == group && q[0].client == c then Some(q[0].Join?) else None
  }

  lemma {:induction false} LastWordDecides(q: seq<SharedEvent>, bit: bool, group: string, c: ClientId)
    ensures M.AfterAll(q, bit, group, c) == if LastWord(q, group, c).Some? then LastWord(q, group, c).value else bit
    decreases |q|
  {
    if q != [] { LastWordDecides(q[1..], M.After(q[0], bit, group, c), group, c); }
  }

  /** Every sender's last word on the client is this one, or no sender has any and it is what shard `j` thinks. */
  ghost predicate AllSay(n: M.Net, j: nat, group: string, c: ClientId, word: bool)
    requires M.WellFormed(n) && j < |n.nodes|
  {
    && (forall i | 0 <= i < |n.nodes| :: LastWord(n.queues[i][j], group, c) != Some(!word))
    && ((forall i | 0 <= i < |n.nodes| :: LastWord(n.queues[i][j], group, c).None?) ==> M.InView(n.nodes[j], group, c) == word)
  }

  /** Shard `j` can take one message from each of these senders, in this order. */
  ghost predicate CanHear(n: M.Net, j: nat, order: seq<nat>)
    requires M.WellFormed(n) && j < |n.nodes|
    decreases |order|
  {
    order != [] ==>
      && order[0] < |n.nodes| && n.queues[order[0]][j] != []
      && CanHear(M.Receive(n, order[0], j), j, order[1..])
  }

  ghost function Heard(n: M.Net, j: nat, order: seq<nat>): (t: M.Net)
    requires M.WellFormed(n) && j < |n.nodes| && CanHear(n, j, order)
    ensures M.WellFormed(t) && |t.nodes| == |n.nodes|
    decreases |order|
  {
    if order == [] then n else Heard(M.Receive(n, order[0], j), j, order[1..])
  }

  ghost predicate HeardOut(n: M.Net, j: nat)
    requires M.WellFormed(n) && j < |n.nodes|
  {
    forall i | 0 <= i < |n.nodes| :: n.queues[i][j] == []
  }

  lemma HearingKeepsWord(n: M.Net, i: nat, j: nat, group: string, c: ClientId, word: bool)
    requires M.WellFormed(n) && i < |n.nodes| && j < |n.nodes| && n.queues[i][j] != [] && AllSay(n, j, group, c, word)
    ensures AllSay(M.Receive(n, i, j), j, group, c, word)
  {
    var t, q := M.Receive(n, i, j), n.queues[i][j];
    M.AppliedView(n.nodes[j], q[0], group, c);
    assert t.queues[i][j] == q[1..];
    forall k | 0 <= k < |n.nodes| && k != i ensures t.queues[k][j] == n.queues[k][j] {}
  }

  lemma {:induction false} HeardKeepsWord(n: M.Net, j: nat, order: seq<nat>, group: string, c: ClientId, word: bool)
    requires M.WellFormed(n) && j < |n.nodes| && CanHear(n, j, order) && AllSay(n, j, group, c, word)
    ensures AllSay(Heard(n, j, order), j, group, c, word)
    decreases |order|
  {
    if order != [] {
      HearingKeepsWord(n, order[0], j, group, c, word);
      HeardKeepsWord(M.Receive(n, order[0], j), j, order[1..], group, c, word);
    }
  }

  lemma {:induction false} HearOn(n: M.Net, j: nat, first: seq<nat>, second: seq<nat>)
    requires M.WellFormed(n) && j < |n.nodes| && CanHear(n, j, first) && CanHear(Heard(n, j, first), j, second)
    ensures CanHear(n, j, first + second) && Heard(n, j, first + second) == Heard(Heard(n, j, first), j, second)
    decreases |first|
  {
    if first == [] {
      assert first + second == second;
    } else {
      HearOn(M.Receive(n, first[0], j), j, first[1..], second);
      assert (first + second)[1..] == first[1..] + second;
    }
  }

  /** Shard `j` may hear one sender to the end; the other queues stay as they are. */
  lemma {:induction false} HearSender(n: M.Net, i: nat, j: nat, group: string, c: ClientId) returns (order: seq<nat>)
    requires M.WellFormed(n) && i < |n.nodes| && j < |n.nodes|
    ensures CanHear(n, j, order) && Heard(n, j, order).queues[i][j] == []
    ensures forall k | 0 <= k < |n.nodes| && k != i :: Heard(n, j, order).queues[k][j] == n.queues[k][j]
    ensures M.InView(Heard(n, j, order).nodes[j], group, c) == M.AfterAll(n.queues[i][j], M.InView(n.nodes[j], group, c), group, c)
    decreases |n.queues[i][j]|
  {
    if n.queues[i][j] == [] {
      order := [];
    } else {
      var t := M.Receive(n, i, j);
      M.AppliedView(n.nodes[j], n.queues[i][j][0], group, c);
      var rest := HearSender(t, i, j, group, c);
      order := [i] + rest;
      assert order[1..] == rest;
    }
  }

  /** ... and all senders before the `m`-th but one. */
  lemma {:induction false} HearAllBut(n: M.Net, m: nat, last: nat, j: nat, group: string, c: ClientId) returns (order: seq<nat>)
    requires M.WellFormed(n) && m <= |n.nodes| && last < |n.nodes| && j < |n.nodes|
    ensures CanHear(n, j, order) && Heard(n, j, order).queues[last][j] == n.queues[last][j]
    ensures forall k | 0 <= k < m && k != last :: Heard(n, j, order).queues[k][j] == []
  {
    if m == 0 {
      order := [];
    } else {
      order := HearAllBut(n, m - 1, last, j, group, c);
      if m - 1 != last {
        var more := HearSender(Heard(n, j, order), m - 1, j, group, c);
        HearOn(n, j, order, more);
        order := order + more;
      }
    }
  }

  /** Whichever sender has a word on the client, shard `j` may hear it last, and believe it. */
  lemma HearLast(n: M.Net, last: nat, j: nat, group: string, c: ClientId) returns (order: seq<nat>)
    requires M.WellFormed(n) && last < |n.nodes| && j < |n.nodes|
    ensures CanHear(n, j, order) && HeardOut(Heard(n, j, order), j)
    ensures var w := LastWord(n.queues[last][j], group, c); w.Some? ==> M.InView(Heard(n, j, order).nodes[j], group, c) == w.value
  {
    order := HearAllBut(n, |n.nodes|, last, j, group, c);
    var t := Heard(n, j, order);
    var more := HearSender(t, last, j, group, c);
    HearOn(n, j, order, more);
    LastWordDecides(n.queues[last][j], M.InView(t.nodes[j], group, c), group, c);
    order := order + more;
  }

  /** In whatever order shard `j` hears the rest, it ends up believing this of the client. */
  ghost predicate AlwaysEnds(n: M.Net, j: nat, group: string, c: ClientId, word: bool)
    requires M.WellFormed(n) && j < |n.nodes|
  {
    forall order | CanHear(n, j, order) && HeardOut(Heard(n, j, order), j) :: M.InView(Heard(n, j, order).nodes[j], group, c) == word
  }

  /** The order of hearing does not matter exactly when the last words of all senders agree. */
  lemma AlwaysEndsExactlyWhen(n: M.Net, j: nat, group: string, c: ClientId, word: bool)
    requires M.WellFormed(n) && j < |n.nodes|
    ensures AlwaysEnds(n, j, group, c, word) <==> AllSay(n, j, group, c, word)
  {
    if AllSay(n, j, group, c, word) {
      forall order | CanHear(n, j, order) && HeardOut(Heard(n, j, order), j)
        ensures M.InView(Heard(n, j, order).nodes[j], group, c) == word
      {
        HeardKeepsWord(n, j, order, group, c, word);
      }
    } else if i: nat :| i < |n.nodes| && LastWord(n.queues[i][j], group, c) == Some(!word) {
      var order := HearLast(n, i, j, group, c);
    } else {
      assert AllSay(n, j, group, c, !word);
      var order := HearLast(n, j, j, group, c);
      HeardKeepsWord(n, j, order, group, c, !word);
    }
  }

  // --- a session that moves while its old shard's Leave is still under way ------------------------------

  lemma {:induction false} LastWordAppended(q: seq<SharedEvent>, es: seq<SharedEvent>, group: string, c: ClientId)
    requires LastWord(es, group, c).Some?
    ensures LastWord(q + es, group, c) == LastWord(es, group, c)
    decreases |q|
  {
    if q == [] {
      assert q + es == es;
    } else {
      assert (q + es)[1..] == q[1..] + es;
      LastWordAppended(q[1..], es, group, c);
    }
  }

  /** What an operation that a run may contain does to its shard, and what it announces. */
  ghost predicate Does(s: Shard, c: ClientId, op: Op, now: nat, t: Shard, es: seq<SharedEvent>) {
    M.Allowed(SlotOf(s, c), c, op) && t == Step(s, c, op, now) && es == M.SharedOf(Outcomes(s, c, op, now).posts)
  }

  /** A running connection closes: its shard announces the Leave and keeps the session. */
  lemma ClosingSays(s: Shard, c: ClientId, secs: u32, snapshot: SessionSnapshot, now: nat, group: string)
    returns (t: Shard, es: seq<SharedEvent>, m: MigratedSession)
    requires M.Member(s, group, c) && s.sessions[c].mailbox.Some? && !s.sessions[c].parked && secs > 0
    ensures Does(s, c, Close(s.sessions[c].generation, secs, snapshot, []), now, t, es) && LastWord(es, group, c) == Some(false)
    ensures !M.Online(SlotOf(t, c)) && HandedOver(SlotOf(t, c), true) == Some(m) && group in GroupsIn(m.subscriptions)
  {
    var op := Close(s.sessions[c].generation, secs, snapshot, []);
    t, es := Step(s, c, op, now), M.SharedOf(Outcomes(s, c, op, now).posts);
    StepIsLocal(s, c, op, now, c);
    m := HandedOver(SlotOf(t, c), true).value;
    M.AfterAnnounce(GroupsIn(SlotOf(s, c).subs), c, false, true, group);
    LastWordDecides(es, true, group, c);
  }

  /** Another shard claims the session: nothing is announced. */
  lemma ClaimingIsSilent(s: Shard, c: ClientId, requester: nat, now: nat) returns (t: Shard)
    requires !M.Online(SlotOf(s, c))
    ensures Does(s, c, Claimed(requester, true), now, t, [])
  {
    t := Step(s, c, Claimed(requester, true), now);
    assert M.SharedOf(Outcomes(s, c, Claimed(requester, true), now).posts[1..]) == [];
  }

  /** The shard the client turns up at makes it a member once the session is installed. */
  lemma InstallingJoins(s: Shard, c: ClientId, m: MigratedSession, now: nat, group: string)
    returns (t: Shard, es: seq<SharedEvent>, u: Shard, fs: seq<SharedEvent>)
    requires SlotOf(s, c).session.None? && group in GroupsIn(m.subscriptions)
    ensures Does(s, c, Open(false), now, t, es) && Does(t, c, Install(m), now, u, fs) && M.Member(u, group, c)
  {
    t, es := Step(s, c, Open(false), now), M.SharedOf(Outcomes(s, c, Open(false), now).posts);
    StepIsLocal(s, c, Open(false), now, c);
    u, fs := Step(t, c, Install(m), now), M.SharedOf(Outcomes(t, c, Install(m), now).posts);
    StepIsLocal(t, c, Install(m), now, c);
    var e :| e in m.subscriptions && e.sub.group == Some(group);
    assert Rearmed(e, c) in InsertAll(SlotOf(t, c).subs, RearmAll(m.subscriptions, c));
  }

  /** Shard `i` says its last word on a client, and goes on silently; whatever shard `k` says meanwhile, a
      third shard may hear shard `i` last. */
  lemma OldWordHeardLast(n: M.Net, i: nat, k: nat, j: nat, s: Shard, es: seq<SharedEvent>, t: Shard, fs: seq<SharedEvent>,
                         v: Shard, u: Shard, gs: seq<SharedEvent>, group: string, c: ClientId)
    returns (closed: M.Net, returned: M.Net, claimed: M.Net, moved: M.Net, order: seq<nat>)
    requires M.WellFormed(n) && i < |n.nodes| && k < |n.nodes| && j < |n.nodes| && i != k && k != j && j != i
    requires LastWord(es, group, c) == Some(false)
    ensures closed == M.Replaced(n, i, s, es) && M.WellFormed(closed) && |closed.nodes| == |n.nodes| && closed.nodes[k] == n.nodes[k]
    ensures returned == M.Replaced(closed, k, t, fs) && M.WellFormed(returned) && |returned.nodes| == |n.nodes| && returned.nodes[i] == s
    ensures claimed == M.Replaced(returned, i, v, []) && M.WellFormed(claimed) && |claimed.nodes| == |n.nodes| && claimed.nodes[k] == t
    ensures moved == M.Replaced(claimed, k, u, gs) && M.WellFormed(moved) && |moved.nodes| == |n.nodes| && moved.nodes[k] == u
    ensures CanHear(moved, j, order) && HeardOut(Heard(moved, j, order), j) && !M.InView(Heard(moved, j, order).nodes[j], group, c)
  {
    closed := M.Replaced(n, i, s, es);
    LastWordAppended(n.queues[i][j], es, group, c);
    returned := M.Replaced(closed, k, t, fs);
    claimed := M.Replaced(returned, i, v, []);
    moved := M.Replaced(claimed, k, u, gs);
    assert moved.queues[i][j] == returned.queues[i][j] + [] == n.queues[i][j] + es;
    order := HearLast(moved, i, j, group, c);
  }

  /** One operation of a run of the network. */
  ghost predicate Operates(n: M.Net, i: nat, c: ClientId, op: Op, now: nat, t: M.Net) {
    M.WellFormed(n) && i < |n.nodes| && M.Allowed(SlotOf(n.nodes[i], c), c, op) && t == M.Operate(n, i, c, op, now)
  }

  lemma DoesOperates(n: M.Net, i: nat, c: ClientId, op: Op, now: nat, s: Shard, es: seq<SharedEvent>)
    requires M.WellFormed(n) && i < |n.nodes| && Does(n.nodes[i], c, op, now, s, es)
    ensures Operates(n, i, c, op, now, M.Replaced(n, i, s, es))
  {
  }

  /** A connected group member closes, turns up at another shard and has its session moved there. Every
      third shard can hear the new shard's Join before the old shard's Leave: once it has heard everything
      it does not have a connected member in its view of the group. */
  lemma MoveCanForgetMember(n: M.Net, i: nat, k: nat, j: nat, c: ClientId, group: string, secs: u32, snapshot: SessionSnapshot, now: nat)
    returns (closed: M.Net, returned: M.Net, m: MigratedSession, claimed: M.Net, moved: M.Net, order: seq<nat>)
    requires M.WellFormed(n) && i < |n.nodes| && k < |n.nodes| && j < |n.nodes| && i != k && k != j && j != i
    requires M.Member(n.nodes[i], group, c) && n.nodes[i].sessions[c].mailbox.Some? && !n.nodes[i].sessions[c].parked && secs > 0
    requires SlotOf(n.nodes[k], c).session.None?
    ensures Operates(n, i, c, Close(n.nodes[i].sessions[c].generation, secs, snapshot, []), now, closed)
    ensures Operates(closed, k, c, Open(false), now, returned)
    ensures Operates(returned, i, c, Claimed(k, true), now, claimed) && HandedOver(SlotOf(returned.nodes[i], c), true) == Some(m)
    ensures Operates(claimed, k, c, Install(m), now, moved)
    ensures M.WellFormed(moved) && |moved.nodes| == |n.nodes| && M.Member(moved.nodes[k], group, c)
    ensures CanHear(moved, j, order) && HeardOut(Heard(moved, j, order), j) && !M.InView(Heard(moved, j, order).nodes[j], group, c)
  {
    var s, es; s, es, m := ClosingSays(n.nodes[i], c, secs, snapshot, now, group);
    var t, fs, u, gs := InstallingJoins(n.nodes[k], c, m, now, group);
    var v := ClaimingIsSilent(s, c, k, now);
    closed, returned, claimed, moved, order := OldWordHeardLast(n, i, k, j, s, es, t, fs, v, u, gs, group, c);
    DoesOperates(n, i, c, Close(n.nodes[i].sessions[c].generation, secs, snapshot, []), now, s, es);
    DoesOperates(closed, k, c, Open(false), now, t, fs);
    DoesOperates(returned, i, c, Claimed(k, true), now, v, []);
    DoesOperates(claimed, k, c, Install(m), now, u, gs);
  }
}
