/** Which member of a shared subscription group receives a message. Every shard decides for
    itself, from its own members and its replicated view of the others. */
module SharedPick {
  import opened Types
  import opened ShardModel
  import opened Membership
  import Order
  import Topics

  /** What one shard knows when a publish reaches it: its members whose filters match, those of them
      that are connected, the connected members elsewhere, and its round-robin cursor. */
  datatype Local = Local(ids: set<ClientId>, online: set<ClientId>, remote: set<ClientId>, cursor: nat)

  /** The member this shard delivers to, if any; `hash` is the hash of topic and payload. */
  ghost function Pick(l: Local, hash: nat): Option<ClientId> {
    if l.ids == {} then None
    else if l.remote != {} then
      var choice := Nth(l.online + l.remote, hash);
      if choice in l.online then Some(choice) else None
    else Some(Nth(if l.online == {} then l.ids else l.online, l.cursor))
  }

  /** The member that a number falls on, counting round the sorted listing. */
  ghost function Nth(ids: set<ClientId>, n: nat): (c: ClientId)
    requires ids != {}
    ensures c in ids
  {
    var all := Order.Sorted(ids);
    all[Turn(n, |all|)]
  }

  /** Where counting `n` places round a circle of `u` ends. */
  function Turn(n: nat, u: nat): (r: nat)
    requires u > 0
    ensures r < u
  {
    if n < u then n else Turn(n - u, u)
  }

  /** `q` times `u`, by addition. */
  function Times(q: nat, u: nat): nat {
    if q == 0 then 0 else Times(q - 1, u) + u
  }

  lemma {:induction false} TimesIsProduct(q: nat, u: nat)
    ensures Times(q, u) == q * u
  {
    if q > 0 { TimesIsProduct(q - 1, u); }
  }

  /** After `q` rounds, `r` places on. */
  lemma {:induction false} RoundAndRound(q: nat, u: nat, r: nat)
    requires r < u
    ensures Turn(Times(q, u) + r, u) == r
  {
    if q > 0 {
      RoundAndRound(q - 1, u, r);
      assert Times(q, u) + r - u == Times(q - 1, u) + r;
    }
  }

  lemma TurnIsRemainder(n: nat, u: nat)
    requires u > 0
    ensures Turn(n, u) == n % u
  {
    var q, r := n / u, n % u;
    assert n == q * u + r;
    TimesIsProduct(q, u);
    RoundAndRound(q, u, r);
  }

  /** The element that the remainder of `n` picks, as the code finds it. */
  method AtRemainder(all: seq<ClientId>, n: nat) returns (c: ClientId)
    requires all != []
    ensures c == all[Turn(n, |all|)]
  {
    TurnIsRemainder(n, |all|);
    c := all[n % |all|];
  }

  /** The cursor counts only purely local picks, in 64 bits. */
  function NextCursor(l: Local): nat {
    if l.ids != {} && l.remote == {} then (l.cursor + 1) % CURSORS else l.cursor
  }

  const CURSORS := 0x1_0000_0000_0000_0000

  /** The pick as `route` makes it. */
  method PickMember(l: Local, hash: nat) returns (picked: Option<ClientId>, cursor: nat)
    ensures picked == Pick(l, hash) && cursor == NextCursor(l)
  {
    cursor := l.cursor;
    if l.ids == {} { return None, cursor; }
    if l.remote != {} {
      var choice := NthOf(l.online + l.remote, hash);
      return if choice in l.online then Some(choice) else None, cursor;
    }
    var chosen := NthOf(if l.online == {} then l.ids else l.online, l.cursor);
    return Some(chosen), (l.cursor + 1) % CURSORS;
  }

  method NthOf(ids: set<ClientId>, n: nat) returns (c: ClientId)
    requires ids != {}
    ensures c == Nth(ids, n)
  {
    var all := Order.Sort(ids);
    assert |all| > 0;
    c := AtRemainder(all, n);
  }

  // --- round and round ---------------------------------------------------------------------------

  /** What the shard knows after `k` messages to a group that does not change. */
  function Later(l: Local, k: nat): Local {
    if k == 0 then l else var m := Later(l, k - 1); m.(cursor := NextCursor(m))
  }

  lemma {:induction false} CursorCounts(l: Local, k: nat)
    requires l.ids != {} && l.remote == {} && l.cursor + k < CURSORS
    ensures Later(l, k) == l.(cursor := l.cursor + k)
  {
    if k > 0 { CursorCounts(l, k - 1); }
  }

  lemma {:induction false} TurnOn(n: nat, k: nat, u: nat)
    requires k < u
    ensures var t := Turn(n, u) + k; Turn(n + k, u) == if t < u then t else t - u
    decreases n
  {
    if n >= u {
      TurnOn(n - u, k, u);
    } else if n + k >= u {
      assert Turn(n + k, u) == Turn(n + k - u, u);
    }
  }

  /** Among as many messages in a row as a purely local group has members to choose from, each of them is
      picked for exactly one, whatever the messages are. */
  lemma GoesRound(l: Local, hash: nat -> nat, c: ClientId) returns (k: nat)
    requires l.online <= l.ids && l.remote == {}
    requires var pool := if l.online == {} then l.ids else l.online; c in pool && l.cursor + |pool| <= CURSORS
    ensures var pool := if l.online == {} then l.ids else l.online;
            k < |pool| && forall j | 0 <= j < |pool| :: Pick(Later(l, j), hash(j)) == Some(c) <==> j == k
  {
    var pool := if l.online == {} then l.ids else l.online;
    var all, u, t := Order.Sorted(pool), |pool|, Turn(l.cursor, |pool|);
    var i :| 0 <= i < u && all[i] == c;
    k := if t <= i then i - t else i + u - t;
    forall j | 0 <= j < u ensures Pick(Later(l, j), hash(j)) == Some(c) <==> j == k {
      CursorCounts(l, j);
      TurnOn(l.cursor, j, u);
      var x := Turn(l.cursor + j, u);
      assert Pick(Later(l, j), hash(j)) == Some(all[x]);
      Order.LessIsTotal(c, c);
      assert all[x] == c ==> x == i;
    }
  }

  // --- all shards together -----------------------------------------------------------------

  /** Every shard's view is what the others hold, and no client is on two shards. */
  ghost predicate Synchronised(ls: seq<Local>) {
    && (forall i | 0 <= i < |ls| :: ls[i].online <= ls[i].ids)
    && (forall i, j | 0 <= i < |ls| && 0 <= j < |ls| && i != j :: Apart(ls, i, j))
    && (forall i | 0 <= i < |ls| :: SeesOthers(ls, i))
  }

  predicate Apart(ls: seq<Local>, i: nat, j: nat)
    requires i < |ls| && j < |ls|
  {
    ls[i].online !! ls[j].online
  }

  ghost predicate SeesOthers(ls: seq<Local>, i: nat)
    requires i < |ls|
  {
    forall c :: c in ls[i].remote <==> Elsewhere(ls, i, c)
  }

  ghost predicate Elsewhere(ls: seq<Local>, i: nat, c: ClientId) {
    exists j :: 0 <= j < |ls| && j != i && c in ls[j].online
  }

  ghost predicate Connected(ls: seq<Local>) {
    exists i :: 0 <= i < |ls| && ls[i].online != {}
  }

  /** Shard `i` picks and no other does. */
  ghost predicate OnlyPicker(ls: seq<Local>, hash: nat, i: nat) {
    i < |ls| && Pick(ls[i], hash).Some? && forall j | 0 <= j < |ls| && j != i :: Pick(ls[j], hash).None?
  }

  lemma SameEverywhere(ls: seq<Local>, i: nat, j: nat)
    requires Synchronised(ls) && i < |ls| && j < |ls|
    ensures ls[i].online + ls[i].remote == ls[j].online + ls[j].remote
  {
    forall c ensures c in ls[i].online + ls[i].remote <==> c in ls[j].online + ls[j].remote {
      SomewhereOf(ls, i, c);
      SomewhereOf(ls, j, c);
    }
  }

  lemma SomewhereOf(ls: seq<Local>, i: nat, c: ClientId)
    requires Synchronised(ls) && i < |ls|
    ensures c in ls[i].online + ls[i].remote <==> exists k :: 0 <= k < |ls| && c in ls[k].online
  {
    assert SeesOthers(ls, i);
    if k :| 0 <= k < |ls| && c in ls[k].online {
      if k != i { assert Elsewhere(ls, i, c); }
    }
  }

  /** The hash branch agrees everywhere: the chosen member's own shard picks it, no other shard picks. */
  lemma HashAgrees(ls: seq<Local>, hash: nat, i: nat, j: nat, w: ClientId)
    requires Synchronised(ls) && i < |ls| && j < |ls| && j != i && w in ls[i].online
    requires w == Nth(ls[i].online + ls[i].remote, hash)
    ensures Pick(ls[j], hash).None?
  {
    SameEverywhere(ls, i, j);
    assert SeesOthers(ls, j) && Apart(ls, i, j) && Elsewhere(ls, j, w);
    assert w in ls[j].remote && w !in ls[j].online;
  }

  /** A shard that sees no one elsewhere holds all the connected members; the others pick no one. */
  lemma AloneAgrees(ls: seq<Local>, hash: nat, i: nat, j: nat)
    requires Synchronised(ls) && i < |ls| && j < |ls| && j != i && ls[i].online != {} && ls[i].remote == {}
    ensures Pick(ls[j], hash).None?
  {
    var c :| c in ls[i].online;
    assert SeesOthers(ls, j) && Elsewhere(ls, j, c);
    assert SeesOthers(ls, i);
    assert forall d :: !Elsewhere(ls, i, d);
    assert ls[j].online == {};
  }

  /** The member the hash falls on, and its shard. */
  lemma HashFallsOn(ls: seq<Local>, hash: nat, i: nat) returns (k: nat, w: ClientId)
    requires Synchronised(ls) && i < |ls| && ls[i].online != {} && ls[i].remote != {}
    ensures k < |ls| && w in ls[k].online && ls[k].remote != {}
    ensures w == Nth(ls[k].online + ls[k].remote, hash)
  {
    w := Nth(ls[i].online + ls[i].remote, hash);
    SomewhereOf(ls, i, w);
    k :| 0 <= k < |ls| && w in ls[k].online;
    SameEverywhere(ls, i, k);
    if k != i {
      var c :| c in ls[i].online;
      assert SeesOthers(ls, k) && Elsewhere(ls, k, c);
    }
  }

  /** With synchronised views and a connected member somewhere, exactly one shard picks a recipient,
      and it is a connected member of that shard. */
  lemma ConnectedPicksOnce(ls: seq<Local>, hash: nat) returns (i: nat)
    requires Synchronised(ls) && Connected(ls)
    ensures OnlyPicker(ls, hash, i) && Pick(ls[i], hash).value in ls[i].online
  {
    i :| 0 <= i < |ls| && ls[i].online != {};
    if ls[i].remote == {} {
      forall j | 0 <= j < |ls| && j != i ensures Pick(ls[j], hash).None? { AloneAgrees(ls, hash, i, j); }
    } else {
      var w;
      i, w := HashFallsOn(ls, hash, i);
      forall j | 0 <= j < |ls| && j != i ensures Pick(ls[j], hash).None? { HashAgrees(ls, hash, i, j, w); }
    }
  }

  /** With no member connected anywhere, every shard that holds a suspended one picks. */
  lemma SuspendedPick(ls: seq<Local>, hash: nat, i: nat)
    requires Synchronised(ls) && !Connected(ls) && i < |ls|
    ensures Pick(ls[i], hash).Some? <==> ls[i].ids != {}
  {
    assert SeesOthers(ls, i);
    assert forall c :: !Elsewhere(ls, i, c);
    assert ls[i].remote == {};
  }

  /** Shard `i` alone holds candidates. */
  ghost predicate OnlyHolder(ls: seq<Local>, i: nat) {
    i < |ls| && ls[i].ids != {} && forall j | 0 <= j < |ls| && j != i :: ls[j].ids == {}
  }

  /** Exactly one shard picks, if and only if some member is connected or a single shard holds all the
      suspended ones. */
  lemma PicksOnceWhen(ls: seq<Local>, hash: nat)
    requires Synchronised(ls)
    ensures (exists i :: OnlyPicker(ls, hash, i)) <==> Connected(ls) || exists i :: OnlyHolder(ls, i)
  {
    if Connected(ls) {
      var i := ConnectedPicksOnce(ls, hash);
    } else {
      forall i | 0 <= i < |ls| ensures Pick(ls[i], hash).Some? <==> ls[i].ids != {} { SuspendedPick(ls, hash, i); }
      if i :| OnlyPicker(ls, hash, i) { assert OnlyHolder(ls, i); }
      if i :| OnlyHolder(ls, i) { assert OnlyPicker(ls, hash, i); }
    }
  }

  // --- the network ---------------------------------------------------------------------------

  /** The shard's members of the group whose filters match the topic. */
  function Candidates(s: Shard, group: string, topic: string): set<ClientId> {
    set e | e in s.subs && e.sub.group == Some(group) && Topics.Matches(e.filter, topic) :: e.sub.client
  }

  function View(s: Shard, group: string): set<ClientId> {
    if group in s.remote then s.remote[group] else {}
  }

  function LocalOf(s: Shard, group: string, topic: string, cursor: nat): Local {
    var ids := Candidates(s, group, topic);
    Local(ids, (set c | c in ids && Online(SlotOf(s, c))), View(s, group), cursor)
  }

  ghost function Locals(n: Net, group: string, topic: string, cursors: seq<nat>): (ls: seq<Local>)
    requires |cursors| == |n.nodes|
    ensures |ls| == |n.nodes| && forall i | 0 <= i < |ls| :: ls[i] == LocalOf(n.nodes[i], group, topic, cursors[i])
  {
    seq(|n.nodes|, i requires 0 <= i < |n.nodes| => LocalOf(n.nodes[i], group, topic, cursors[i]))
  }

  /** Every connected member of the group has a filter in it that matches the topic. */
  ghost predicate AllMatch(n: Net, group: string, topic: string) {
    forall i, c | 0 <= i < |n.nodes| && Member(n.nodes[i], group, c) :: c in Candidates(n.nodes[i], group, topic)
  }

  lemma OnlineIsMember(s: Shard, group: string, topic: string, cursor: nat, c: ClientId)
    requires Member(s, group, c) ==> c in Candidates(s, group, topic)
    ensures c in LocalOf(s, group, topic, cursor).online <==> Member(s, group, c)
  {
    if c in Candidates(s, group, topic) {
      var e :| e in s.subs && e.sub.group == Some(group) && Topics.Matches(e.filter, topic) && e.sub.client == c;
      assert e in SlotOf(s, c).subs;
    }
  }

  /** A shared group delivers exactly once: in every drained state of every run, if the members' filters
      match and someone is connected, exactly one shard picks, and it picks a connected member. */
  lemma GroupDeliversOnce(run: seq<Net>, home: ClientId -> nat, k: nat, group: string, topic: string, cursors: seq<nat>, hash: nat)
    returns (i: nat)
    requires IsRun(run, home) && k < |run| && WellFormed(run[k]) && Drained(run[k])
    requires |cursors| == |run[k].nodes| && AllMatch(run[k], group, topic)
    requires exists j, c :: 0 <= j < |run[k].nodes| && Member(run[k].nodes[j], group, c)
    ensures OnlyPicker(Locals(run[k], group, topic, cursors), hash, i)
    ensures Member(run[k].nodes[i], group, Pick(Locals(run[k], group, topic, cursors)[i], hash).value)
  {
    var n, ls := run[k], Locals(run[k], group, topic, cursors);
    forall j, c | 0 <= j < |ls| ensures c in ls[j].online <==> Member(n.nodes[j], group, c) {
      OnlineIsMember(n.nodes[j], group, topic, cursors[j], c);
    }
    forall j | 0 <= j < |ls| ensures SeesOthers(ls, j) {
      forall c ensures c in ls[j].remote <==> Elsewhere(ls, j, c) { ViewsConverge(run, home, k, j, group, c); }
    }
    RunsKeepInv(run, home, k);
    forall a, b | 0 <= a < |ls| && 0 <= b < |ls| && a != b ensures Apart(ls, a, b) {
      assert NodeOk(n.nodes[a], a, home) && NodeOk(n.nodes[b], b, home);
      forall c | c in ls[a].online ensures c !in ls[b].online { assert home(c) == a; }
    }
    assert Synchronised(ls);
    var j, c :| 0 <= j < |n.nodes| && Member(n.nodes[j], group, c);
    assert c in ls[j].online;
    i := ConnectedPicksOnce(ls, hash);
  }
}
