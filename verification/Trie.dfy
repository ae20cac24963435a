/** The topic index: a tree with one edge per filter level, pruned so that it holds no
    node without a live subscription below it. */
module Trie {
  import opened Types
  import opened Topics

  datatype Node = Node(children: map<string, Node>, subs: seq<Subscription>)
  {
    predicate IsDead() {
      subs == [] && children == map[]
    }
  }

  const EMPTY := Node(map[], [])

  // --- the tree as a function from filters to subscriber lists -------------------

  predicate Same(s: Subscription, client: ClientId, group: Option<string>) {
    s.client == client && s.group == group
  }

  /** The node at a path, if the tree has one. */
  function Find(n: Node, path: seq<string>): Option<Node> {
    if path == [] then Some(n)
    else if path[0] in n.children then Find(n.children[path[0]], path[1..])
    else None
  }

  /** The subscribers stored at a path. */
  function At(n: Node, path: seq<string>): seq<Subscription> {
    match Find(n, path)
    case Some(m) => m.subs
    case None => []
  }

  function DropSame(subs: seq<Subscription>, client: ClientId, group: Option<string>): (r: seq<Subscription>)
    ensures forall s :: s in r <==> s in subs && !Same(s, client, group)
    ensures |r| <= |subs|
    ensures |r| == |subs| <==> forall s | s in subs :: !Same(s, client, group)
  {
    if subs == [] then []
    else if Same(subs[0], client, group) then DropSame(subs[1..], client, group)
    else [subs[0]] + DropSame(subs[1..], client, group)
  }

  function DropClient(subs: seq<Subscription>, client: ClientId): (r: seq<Subscription>)
    ensures forall s :: s in r <==> s in subs && s.client != client
  {
    if subs == [] then []
    else if subs[0].client == client then DropClient(subs[1..], client)
    else [subs[0]] + DropClient(subs[1..], client)
  }

  // --- updates -------------------------------------------------------------------

  function Insert(n: Node, path: seq<string>, sub: Subscription): Node
    decreases |path|
  {
    if path == [] then n.(subs := DropSame(n.subs, sub.client, sub.group) + [sub])
    else
      var child := if path[0] in n.children then n.children[path[0]] else EMPTY;
      n.(children := n.children[path[0] := Insert(child, path[1..], sub)])
  }

  function Remove(n: Node, path: seq<string>, client: ClientId, group: Option<string>): Node
    decreases |path|
  {
    if path == [] then n.(subs := DropSame(n.subs, client, group))
    else if path[0] !in n.children then n
    else
      var child := Remove(n.children[path[0]], path[1..], client, group);
      n.(children := if child.IsDead() then n.children - {path[0]} else n.children[path[0] := child])
  }

  function RemoveClient(n: Node, client: ClientId): Node {
    Node(map k | k in n.children && !RemoveClient(n.children[k], client).IsDead() :: RemoveClient(n.children[k], client),
         DropClient(n.subs, client))
  }

  lemma {:induction false} AtInsert(n: Node, path: seq<string>, sub: Subscription, q: seq<string>)
    ensures At(Insert(n, path, sub), q) ==
            if q == path then DropSame(At(n, path), sub.client, sub.group) + [sub] else At(n, q)
    decreases |path|
  {
    if path != [] && q != [] && q[0] == path[0] {
      var child := if path[0] in n.children then n.children[path[0]] else EMPTY;
      AtInsert(child, path[1..], sub, q[1..]);
      assert path == [path[0]] + path[1..] && q == [q[0]] + q[1..];
      if path[0] !in n.children { AtEmpty(q[1..]); AtEmpty(path[1..]); }
    } else if path == [] && q != [] {
    }
  }

  lemma AtEmpty(q: seq<string>)
    ensures At(EMPTY, q) == []
  {
  }

  lemma DeadHasNothing(n: Node, q: seq<string>)
    requires n.IsDead()
    ensures At(n, q) == []
  {
  }

  lemma {:induction false} AtRemove(n: Node, path: seq<string>, client: ClientId, group: Option<string>, q: seq<string>)
    ensures At(Remove(n, path, client, group), q) ==
            if q == path then DropSame(At(n, path), client, group) else At(n, q)
    decreases |path|
  {
    if path != [] && path[0] in n.children && q != [] && q[0] == path[0] {
      var child := Remove(n.children[path[0]], path[1..], client, group);
      AtRemove(n.children[path[0]], path[1..], client, group, q[1..]);
      assert path == [path[0]] + path[1..] && q == [q[0]] + q[1..];
      if child.IsDead() { DeadHasNothing(child, q[1..]); }
    }
  }

  lemma {:induction false} AtRemoveClient(n: Node, client: ClientId, q: seq<string>)
    ensures At(RemoveClient(n, client), q) == DropClient(At(n, q), client)
    decreases |q|
  {
    if q != [] && q[0] in n.children {
      AtRemoveClient(n.children[q[0]], client, q[1..]);
      if RemoveClient(n.children[q[0]], client).IsDead() {
        DeadHasNothing(RemoveClient(n.children[q[0]], client), q[1..]);
      }
    }
  }

  // --- invariants ----------------------------------------------------------------

  /** No dead node below the root. */
  predicate Pruned(n: Node) {
    forall k | k in n.children :: !n.children[k].IsDead() && Pruned(n.children[k])
  }

  /** One entry per client and group at each node. */
  ghost predicate UniqueSubs(subs: seq<Subscription>) {
    forall i, j | 0 <= i < j < |subs| :: !(subs[i].client == subs[j].client && subs[i].group == subs[j].group)
  }

  /** Every edge is a proper level and no node lists a client twice for one group. */
  ghost predicate Shaped(n: Node) {
    && UniqueSubs(n.subs)
    && forall k | k in n.children :: IsLevel(k) && Shaped(n.children[k])
  }

  /** The invariant of the whole index; filters have at least one level. */
  ghost predicate Valid(root: Node) {
    Pruned(root) && Shaped(root) && root.subs == []
  }

  lemma {:induction false} InsertNotDead(n: Node, path: seq<string>, sub: Subscription)
    ensures !Insert(n, path, sub).IsDead()
  {
    if path != [] { assert path[0] in Insert(n, path, sub).children; }
  }

  lemma {:induction false} InsertPruned(n: Node, path: seq<string>, sub: Subscription)
    requires Pruned(n)
    ensures Pruned(Insert(n, path, sub))
    decreases |path|
  {
    if path != [] {
      var child := if path[0] in n.children then n.children[path[0]] else EMPTY;
      InsertPruned(child, path[1..], sub);
      InsertNotDead(child, path[1..], sub);
    }
  }

  lemma {:induction false} DropSameUnique(subs: seq<Subscription>, client: ClientId, group: Option<string>)
    requires UniqueSubs(subs)
    ensures UniqueSubs(DropSame(subs, client, group))
  {
    if subs != [] {
      DropSameUnique(subs[1..], client, group);
      var rest := DropSame(subs[1..], client, group);
      forall s | s in rest ensures !(subs[0].client == s.client && subs[0].group == s.group) {
        var i :| 0 <= i < |subs[1..]| && subs[1..][i] == s;
        assert subs[i + 1] == s;
      }
    }
  }

  lemma {:induction false} DropClientUnique(subs: seq<Subscription>, client: ClientId)
    requires UniqueSubs(subs)
    ensures UniqueSubs(DropClient(subs, client))
  {
    if subs != [] {
      DropClientUnique(subs[1..], client);
      var rest := DropClient(subs[1..], client);
      forall s | s in rest ensures !(subs[0].client == s.client && subs[0].group == s.group) {
        var i :| 0 <= i < |subs[1..]| && subs[1..][i] == s;
        assert subs[i + 1] == s;
      }
    }
  }

  lemma {:induction false} InsertShaped(n: Node, path: seq<string>, sub: Subscription)
    requires Shaped(n)
    requires forall i | 0 <= i < |path| :: IsLevel(path[i])
    ensures Shaped(Insert(n, path, sub))
    decreases |path|
  {
    if path == [] {
      DropSameUnique(n.subs, sub.client, sub.group);
      var kept := DropSame(n.subs, sub.client, sub.group);
      assert forall i | 0 <= i < |kept| :: kept[i] in kept;
    } else {
      var child := if path[0] in n.children then n.children[path[0]] else EMPTY;
      InsertShaped(child, path[1..], sub);
    }
  }

  lemma {:induction false} RemoveKeeps(n: Node, path: seq<string>, client: ClientId, group: Option<string>)
    requires Pruned(n) && Shaped(n)
    ensures Pruned(Remove(n, path, client, group)) && Shaped(Remove(n, path, client, group))
    decreases |path|
  {
    if path == [] {
      DropSameUnique(n.subs, client, group);
    } else if path[0] in n.children {
      RemoveKeeps(n.children[path[0]], path[1..], client, group);
    }
  }

  lemma {:induction false} RemoveClientKeeps(n: Node, client: ClientId)
    requires Shaped(n)
    ensures Pruned(RemoveClient(n, client)) && Shaped(RemoveClient(n, client))
  {
    DropClientUnique(n.subs, client);
    forall k | k in n.children
      ensures Pruned(RemoveClient(n.children[k], client)) && Shaped(RemoveClient(n.children[k], client))
    {
      RemoveClientKeeps(n.children[k], client);
    }
  }

  // --- pruning: the nodes are the prefixes of live filters -------------------------

  /** Some subscription sits at or below a node that is not dead. */
  lemma {:induction false} LiveBelow(n: Node) returns (q: seq<string>)
    requires Pruned(n) && !n.IsDead()
    ensures At(n, q) != []
  {
    if n.subs != [] {
      q := [];
    } else {
      var k :| k in n.children;
      var rest := LiveBelow(n.children[k]);
      q := [k] + rest;
      assert q[1..] == rest;
    }
  }

  lemma {:induction false} FindConcat(n: Node, p: seq<string>, q: seq<string>)
    ensures Find(n, p + q) == match Find(n, p) case Some(m) => Find(m, q) case None => None
  {
    if p == [] {
      assert p + q == q;
    } else if p[0] in n.children {
      FindConcat(n.children[p[0]], p[1..], q);
      assert (p + q)[1..] == p[1..] + q;
    }
  }

  lemma {:induction false} FindPruned(n: Node, p: seq<string>)
    requires Pruned(n) && Find(n, p).Some? && p != []
    ensures Pruned(Find(n, p).value) && !Find(n, p).value.IsDead()
  {
    if |p| > 1 { FindPruned(n.children[p[0]], p[1..]); }
  }

  /** The tree has a node below the root exactly at the prefixes of live filters. */
  lemma NodesAreLivePrefixes(root: Node, p: seq<string>)
    requires Pruned(root) && p != []
    ensures Find(root, p).Some? <==> exists q :: At(root, p + q) != []
  {
    if Find(root, p).Some? {
      FindPruned(root, p);
      var q := LiveBelow(Find(root, p).value);
      FindConcat(root, p, q);
      assert At(root, p + q) != [];
    } else {
      forall q ensures At(root, p + q) == [] { FindConcat(root, p, q); }
    }
  }

  // --- matching ------------------------------------------------------------------

  /** The subscribers a topic reaches. `wild` is false only at the first level of a `$` topic. */
  function Match(n: Node, topic: seq<string>, wild: bool): seq<Subscription>
    decreases |topic|
  {
    if topic == [] then n.subs + (if "#" in n.children then n.children["#"].subs else [])
    else
      (if topic[0] in n.children then Match(n.children[topic[0]], topic[1..], true) else [])
      + (if wild && "+" in n.children then Match(n.children["+"], topic[1..], true) else [])
      + (if wild && "#" in n.children then n.children["#"].subs else [])
  }

  function Under(k: string, paths: seq<seq<string>>): (r: seq<seq<string>>)
    ensures |r| == |paths|
    ensures forall i | 0 <= i < |r| :: r[i] == [k] + paths[i]
  {
    seq(|paths|, i requires 0 <= i < |paths| => [k] + paths[i])
  }

  /** The nodes a topic visits, in the order `Match` lists their subscribers. */
  function Visited(n: Node, topic: seq<string>, wild: bool): seq<seq<string>>
    decreases |topic|
  {
    if topic == [] then [[]] + (if "#" in n.children then [["#"]] else [])
    else
      (if topic[0] in n.children then Under(topic[0], Visited(n.children[topic[0]], topic[1..], true)) else [])
      + (if wild && "+" in n.children then Under("+", Visited(n.children["+"], topic[1..], true)) else [])
      + (if wild && "#" in n.children then [["#"]] else [])
  }

  /** The subscriber lists at the given paths, one after the other. */
  function Gather(n: Node, paths: seq<seq<string>>): seq<Subscription> {
    if paths == [] then [] else At(n, paths[0]) + Gather(n, paths[1..])
  }

  ghost predicate Distinct<T>(xs: seq<T>) {
    forall i, j | 0 <= i < j < |xs| :: xs[i] != xs[j]
  }

  lemma DistinctConcat<T>(a: seq<T>, b: seq<T>)
    requires Distinct(a) && Distinct(b) && forall x | x in a :: x !in b
    ensures Distinct(a + b)
  {
    forall i, j | 0 <= i < j < |a + b| ensures (a + b)[i] != (a + b)[j] {
      if i < |a| <= j { assert a[i] in a && b[j - |a|] in b; }
    }
  }

  lemma {:induction false} GatherConcat(n: Node, ps: seq<seq<string>>, qs: seq<seq<string>>)
    ensures Gather(n, ps + qs) == Gather(n, ps) + Gather(n, qs)
  {
    if ps == [] {
      assert ps + qs == qs;
    } else {
      GatherConcat(n, ps[1..], qs);
      assert (ps + qs)[1..] == ps[1..] + qs;
    }
  }

  lemma {:induction false} GatherUnder(n: Node, k: string, ps: seq<seq<string>>)
    requires k in n.children
    ensures Gather(n, Under(k, ps)) == Gather(n.children[k], ps)
  {
    if ps != [] {
      GatherUnder(n, k, ps[1..]);
      assert Under(k, ps)[1..] == Under(k, ps[1..]);
      assert ([k] + ps[0])[1..] == ps[0];
    }
  }

  lemma {:induction false} MatchGathers(n: Node, topic: seq<string>, wild: bool)
    ensures Match(n, topic, wild) == Gather(n, Visited(n, topic, wild))
    decreases |topic|
  {
    if topic == [] {
      assert At(n, []) == n.subs;
      if "#" in n.children {
        assert Visited(n, topic, wild) == [[], ["#"]];
        assert Visited(n, topic, wild)[1..] == [["#"]];
        GatherOne(n, "#");
      }
    } else {
      var a := if topic[0] in n.children then Under(topic[0], Visited(n.children[topic[0]], topic[1..], true)) else [];
      var b := if wild && "+" in n.children then Under("+", Visited(n.children["+"], topic[1..], true)) else [];
      var c := if wild && "#" in n.children then [["#"]] else [];
      GatherConcat(n, a + b, c);
      GatherConcat(n, a, b);
      if topic[0] in n.children {
        MatchGathers(n.children[topic[0]], topic[1..], true);
        GatherUnder(n, topic[0], Visited(n.children[topic[0]], topic[1..], true));
      }
      if wild && "+" in n.children {
        MatchGathers(n.children["+"], topic[1..], true);
        GatherUnder(n, "+", Visited(n.children["+"], topic[1..], true));
      }
      if wild && "#" in n.children { GatherOne(n, "#"); }
    }
  }

  lemma GatherOne(n: Node, k: string)
    requires k in n.children
    ensures Gather(n, [[k]]) == n.children[k].subs
  {
    assert [[k]][1..] == [];
    assert Gather(n, [[k]]) == At(n, [k]) + Gather(n, []);
    assert [k][1..] == [];
    assert Find(n, [k]) == Find(n.children[k], []);
  }

  /** A path the topic reaches: it matches, and its first level is no wildcard when those
      are barred. */
  ghost predicate Reaches(p: seq<string>, topic: seq<string>, wild: bool) {
    LevelsMatch(p, topic) && (wild || (p != [] && !IsWild(p[0])))
  }

  ghost predicate IsTopic(topic: seq<string>) {
    forall i | 0 <= i < |topic| :: !IsWild(topic[i])
  }

  /** `#` ends every path. */
  ghost predicate HashLeaves(n: Node) {
    forall k | k in n.children :: (k == "#" ==> n.children[k].children == map[]) && HashLeaves(n.children[k])
  }

  /** Valid filters put nothing below a `#`. */
  lemma {:induction false} ValidFiltersHashLeaves(n: Node)
    requires Pruned(n)
    requires forall p | At(n, p) != [] :: ValidLevels(p)
    ensures HashLeaves(n)
  {
    forall k | k in n.children
      ensures (k == "#" ==> n.children[k].children == map[]) && HashLeaves(n.children[k])
    {
      var child := n.children[k];
      forall p | At(child, p) != []
        ensures ValidLevels(p) && (k == "#" ==> p == [])
      {
        assert ([k] + p)[1..] == p;
        assert At(n, [k] + p) != [];
        assert forall i | 0 <= i < |p| :: p[i] == ([k] + p)[i + 1];
      }
      ValidFiltersHashLeaves(child);
      if k == "#" && child.children != map[] {
        var j :| j in child.children;
        var q := LiveBelow(child.children[j]);
        assert ([j] + q)[1..] == q;
        var at := At(child, [j] + q);
        assert false;
      }
    }
  }

  lemma InUnder(k: string, paths: seq<seq<string>>, p: seq<string>)
    ensures p in Under(k, paths) <==> p != [] && p[0] == k && p[1..] in paths
  {
    if p in Under(k, paths) {
      var i :| 0 <= i < |paths| && Under(k, paths)[i] == p;
      assert paths[i] == ([k] + paths[i])[1..];
    }
    if p != [] && p[0] == k && p[1..] in paths {
      var i :| 0 <= i < |paths| && paths[i] == p[1..];
      assert Under(k, paths)[i] == [k] + p[1..] == p;
    }
  }

  lemma {:induction false} VisitedExactly(n: Node, topic: seq<string>, wild: bool, p: seq<string>)
    requires HashLeaves(n) && IsTopic(topic) && (topic == [] ==> wild)
    ensures p in Visited(n, topic, wild) <==> Find(n, p).Some? && Reaches(p, topic, wild)
    decreases |topic|
  {
    if topic == [] {
      if p != [] && p[0] == "#" && Find(n, p).Some? { HashIsLeaf(n, p); }
    } else {
      if topic[0] in n.children {
        InUnder(topic[0], Visited(n.children[topic[0]], topic[1..], true), p);
        if p != [] { VisitedExactly(n.children[topic[0]], topic[1..], true, p[1..]); }
      }
      if "+" in n.children {
        InUnder("+", Visited(n.children["+"], topic[1..], true), p);
        if p != [] { VisitedExactly(n.children["+"], topic[1..], true, p[1..]); }
      }
      if p != [] && p[0] == "#" && Find(n, p).Some? { HashIsLeaf(n, p); }
    }
  }

  lemma HashIsLeaf(n: Node, p: seq<string>)
    requires HashLeaves(n) && p != [] && p[0] == "#" && Find(n, p).Some?
    ensures p == ["#"]
  {
  }

  lemma {:induction false} VisitedDistinct(n: Node, topic: seq<string>, wild: bool)
    requires IsTopic(topic)
    ensures Distinct(Visited(n, topic, wild))
    decreases |topic|
  {
    if topic != [] {
      var a := if topic[0] in n.children then Under(topic[0], Visited(n.children[topic[0]], topic[1..], true)) else [];
      var b := if wild && "+" in n.children then Under("+", Visited(n.children["+"], topic[1..], true)) else [];
      var c := if wild && "#" in n.children then [["#"]] else [];
      if topic[0] in n.children {
        VisitedDistinct(n.children[topic[0]], topic[1..], true);
        UnderDistinct(topic[0], Visited(n.children[topic[0]], topic[1..], true));
      }
      if wild && "+" in n.children {
        VisitedDistinct(n.children["+"], topic[1..], true);
        UnderDistinct("+", Visited(n.children["+"], topic[1..], true));
      }
      FirstLevelsDiffer(a, b, c, topic[0]);
    }
  }

  lemma FirstLevelsDiffer(a: seq<seq<string>>, b: seq<seq<string>>, c: seq<seq<string>>, k: string)
    requires !IsWild(k) && Distinct(a) && Distinct(b) && Distinct(c)
    requires forall p | p in a :: p != [] && p[0] == k
    requires forall p | p in b :: p != [] && p[0] == "+"
    requires forall p | p in c :: p != [] && p[0] == "#"
    ensures Distinct(a + b + c)
  {
    DistinctConcat(a, b);
    DistinctConcat(a + b, c);
  }

  lemma UnderDistinct(k: string, ps: seq<seq<string>>)
    requires Distinct(ps)
    ensures Distinct(Under(k, ps))
  {
    forall i, j | 0 <= i < j < |ps| ensures Under(k, ps)[i] != Under(k, ps)[j] {
      assert ([k] + ps[i])[1..] == ps[i] && ([k] + ps[j])[1..] == ps[j];
    }
  }

  /** Whether wildcards may match the first level of a topic. */
  predicate WildAllowed(topic: string) {
    !StartsWith(topic, '$')
  }

  /** The index against the flat test. A topic's matches are the subscriber lists of some
      distinct filters, and those are the stored filters that match the topic. */
  lemma MatchRefinesFlatTest(root: Node, topic: string) returns (filters: seq<seq<string>>)
    requires Valid(root) && WildcardFree(topic)
    requires forall p | At(root, p) != [] :: ValidLevels(p)
    ensures Match(root, Split(topic), WildAllowed(topic)) == Gather(root, filters)
    ensures Distinct(filters)
    ensures forall p | At(root, p) != [] :: p in filters <==> Matches(Join(p), topic)
  {
    var t, wild := Split(topic), WildAllowed(topic);
    NoWildcardSplits(topic);
    ValidFiltersHashLeaves(root);
    filters := Visited(root, t, wild);
    MatchGathers(root, t, wild);
    VisitedDistinct(root, t, wild);
    forall p | At(root, p) != [] ensures p in filters <==> Matches(Join(p), topic) {
      VisitedExactly(root, t, wild, p);
      PathOfLevels(root, p);
      SplitJoin(p);
      WildFirstIsWild(Join(p));
    }
  }

  lemma {:induction false} PathLevels(n: Node, p: seq<string>)
    requires Shaped(n) && Find(n, p).Some?
    ensures forall i | 0 <= i < |p| :: IsLevel(p[i])
  {
    if p != [] {
      PathLevels(n.children[p[0]], p[1..]);
      assert p == [p[0]] + p[1..];
    }
  }

  lemma PathOfLevels(root: Node, p: seq<string>)
    requires Valid(root) && At(root, p) != []
    ensures AreLevels(p)
  {
    PathLevels(root, p);
  }

  // --- the index as a table of subscriptions ----------------------------------------

  /** Every stored subscription with its path. */
  function Stored(n: Node): set<(seq<string>, Subscription)> {
    (set s | s in n.subs :: ([], s))
    + (set k, e | k in n.children && e in Stored(n.children[k]) :: ([k] + e.0, e.1))
  }

  lemma {:induction false} StoredAt(n: Node, p: seq<string>, s: Subscription)
    ensures (p, s) in Stored(n) <==> s in At(n, p)
    decreases |p|
  {
    if p != [] {
      assert p == [p[0]] + p[1..];
      if p[0] in n.children {
        StoredAt(n.children[p[0]], p[1..], s);
      }
      if (p, s) in Stored(n) {
        var k, e :| k in n.children && e in Stored(n.children[k]) && (p, s) == ([k] + e.0, e.1);
        assert e == (p[1..], s);
      }
    }
  }

  /** Every stored subscription with its filter. */
  function Table(root: Node): set<Entry> {
    set e | e in Stored(root) :: Entry(Join(e.0), e.1)
  }

  lemma TableAt(root: Node, filter: string, s: Subscription)
    requires Valid(root)
    ensures Entry(filter, s) in Table(root) <==> s in At(root, Split(filter))
  {
    SplitGivesLevels(filter);
    if s in At(root, Split(filter)) {
      StoredAt(root, Split(filter), s);
      assert (Split(filter), s) in Stored(root);
    }
    if Entry(filter, s) in Table(root) {
      var e :| e in Stored(root) && Entry(Join(e.0), e.1) == Entry(filter, s);
      StoredAt(root, e.0, s);
      PathOfLevels(root, e.0);
      SplitJoin(e.0);
    }
  }

  /** The table without one client's entry for a filter and group. */
  function TableDrop(t: set<Entry>, filter: string, client: ClientId, group: Option<string>): set<Entry> {
    set e | e in t && !(e.filter == filter && Same(e.sub, client, group))
  }

  function TableDropClient(t: set<Entry>, client: ClientId): set<Entry> {
    set e | e in t && e.sub.client != client
  }

  lemma SplitInjective(f: string, g: string)
    requires Split(f) == Split(g)
    ensures f == g
  {
    SplitGivesLevels(f);
    SplitGivesLevels(g);
  }

  lemma InsertValid(root: Node, filter: string, sub: Subscription)
    requires Valid(root)
    ensures Valid(Insert(root, Split(filter), sub))
  {
    SplitGivesLevels(filter);
    InsertPruned(root, Split(filter), sub);
    InsertShaped(root, Split(filter), sub);
  }

  lemma TableInsert(root: Node, filter: string, sub: Subscription)
    requires Valid(root)
    ensures Valid(Insert(root, Split(filter), sub))
    ensures Table(Insert(root, Split(filter), sub)) == TableDrop(Table(root), filter, sub.client, sub.group) + {Entry(filter, sub)}
  {
    InsertValid(root, filter, sub);
    var root' := Insert(root, Split(filter), sub);
    forall f, s ensures Entry(f, s) in Table(root') <==>
                        Entry(f, s) in TableDrop(Table(root), filter, sub.client, sub.group) + {Entry(filter, sub)}
    {
      TableAt(root', f, s);
      TableAt(root, f, s);
      AtInsert(root, Split(filter), sub, Split(f));
      if Split(f) == Split(filter) { SplitInjective(f, filter); }
    }
    SameEntries(Table(root'), TableDrop(Table(root), filter, sub.client, sub.group) + {Entry(filter, sub)});
  }

  lemma SameEntries(a: set<Entry>, b: set<Entry>)
    requires forall f, s :: Entry(f, s) in a <==> Entry(f, s) in b
    ensures a == b
  {
    forall e ensures e in a <==> e in b { assert e == Entry(e.filter, e.sub); }
  }

  lemma TableRemove(root: Node, filter: string, client: ClientId, group: Option<string>)
    requires Valid(root)
    ensures Valid(Remove(root, Split(filter), client, group))
    ensures Table(Remove(root, Split(filter), client, group)) == TableDrop(Table(root), filter, client, group)
  {
    RemoveKeeps(root, Split(filter), client, group);
    var root' := Remove(root, Split(filter), client, group);
    forall f, s ensures Entry(f, s) in Table(root') <==> Entry(f, s) in TableDrop(Table(root), filter, client, group) {
      TableAt(root', f, s);
      TableAt(root, f, s);
      AtRemove(root, Split(filter), client, group, Split(f));
      if Split(f) == Split(filter) { SplitInjective(f, filter); }
    }
    SameEntries(Table(root'), TableDrop(Table(root), filter, client, group));
  }

  lemma TableRemoveClient(root: Node, client: ClientId)
    requires Valid(root)
    ensures Valid(RemoveClient(root, client))
    ensures Table(RemoveClient(root, client)) == TableDropClient(Table(root), client)
  {
    RemoveClientKeeps(root, client);
    var root' := RemoveClient(root, client);
    forall f, s ensures Entry(f, s) in Table(root') <==> Entry(f, s) in TableDropClient(Table(root), client) {
      TableAt(root', f, s);
      TableAt(root, f, s);
      AtRemoveClient(root, client, Split(f));
    }
    SameEntries(Table(root'), TableDropClient(Table(root), client));
  }

  lemma {:induction false} InGather(n: Node, paths: seq<seq<string>>, s: Subscription)
    ensures s in Gather(n, paths) <==> exists p :: p in paths && s in At(n, p)
  {
    if paths != [] {
      InGather(n, paths[1..], s);
      assert paths == [paths[0]] + paths[1..];
    }
  }

  ghost predicate ValidFilters(t: set<Entry>) {
    forall e | e in t :: ValidFilter(e.filter)
  }

  /** The matches of a topic are the table's entries whose filter passes the flat test. */
  lemma MatchIsTableScan(root: Node, topic: string, s: Subscription)
    requires Valid(root) && WildcardFree(topic) && ValidFilters(Table(root))
    ensures s in Match(root, Split(topic), WildAllowed(topic)) <==>
            exists f :: Entry(f, s) in Table(root) && Matches(f, topic)
  {
    LivePathsValid(root);
    var filters := MatchRefinesFlatTest(root, topic);
    InGather(root, filters, s);
    if p :| p in filters && s in At(root, p) {
      PathOfLevels(root, p);
      SplitJoin(p);
      TableAt(root, Join(p), s);
      assert Entry(Join(p), s) in Table(root) && Matches(Join(p), topic);
    }
    if f :| Entry(f, s) in Table(root) && Matches(f, topic) {
      TableAt(root, f, s);
      SplitGivesLevels(f);
      assert Split(f) in filters && s in At(root, Split(f));
    }
  }

  lemma LivePathsValid(root: Node)
    requires Valid(root) && ValidFilters(Table(root))
    ensures forall p | At(root, p) != [] :: ValidLevels(p)
  {
    forall p | At(root, p) != [] ensures ValidLevels(p) {
      PathOfLevels(root, p);
      SplitJoin(p);
      var s := At(root, p)[0];
      TableAt(root, Join(p), s);
      assert ValidFilter(Entry(Join(p), s).filter);
    }
  }

  // --- the index object ---------------------------------------------------------------

  /** What `out` holds once the nodes of `n` at the given first levels have been searched
      for one client: each of its subscriptions there, with its full path. */
  ghost predicate Collected(out: seq<(seq<string>, Subscription)>, n: Node, client: ClientId,
                            above: seq<string>, firsts: set<string>) {
    && Distinct(out)
    && (forall x | x in out :: IsCollected(x, n, client, above, firsts))
    && (forall q, s | s in At(n, q) && s.client == client && (q == [] || q[0] in firsts) :: (above + q, s) in out)
  }

  ghost predicate IsCollected(x: (seq<string>, Subscription), n: Node, client: ClientId,
                              above: seq<string>, firsts: set<string>) {
    exists q :: x.0 == above + q && x.1 in At(n, q) && x.1.client == client && (q == [] || q[0] in firsts)
  }

  lemma CollectedHere(out: seq<(seq<string>, Subscription)>, node: Node, client: ClientId, segments: seq<string>)
    requires Distinct(out)
    requires forall x | x in out :: x.0 == segments && x.1 in node.subs && x.1.client == client
    requires forall s | s in node.subs && s.client == client :: (segments, s) in out
    ensures Collected(out, node, client, segments, {})
  {
    assert segments + [] == segments;
    assert At(node, []) == node.subs;
    forall x | x in out ensures IsCollected(x, node, client, segments, {}) {
      assert x.0 == segments + [] && x.1 in At(node, []);
    }
    forall q, s | s in At(node, q) && s.client == client && (q == [] || q[0] in {})
      ensures (segments + q, s) in out
    {
      assert q == [];
    }
  }

  lemma CollectedBelow(x: (seq<string>, Subscription), node: Node, client: ClientId, segments: seq<string>, k: string)
    requires k in node.children
    requires IsCollected(x, node.children[k], client, segments + [k], node.children[k].children.Keys)
    ensures IsCollected(x, node, client, segments, {k})
    ensures |x.0| > |segments| && x.0[|segments|] == k
  {
    var q :| x.0 == segments + [k] + q && x.1 in At(node.children[k], q) && x.1.client == client;
    assert ([k] + q)[1..] == q;
    assert x.0 == segments + ([k] + q);
    assert x.1 in At(node, [k] + q);
  }

  lemma CollectedBeside(x: (seq<string>, Subscription), node: Node, client: ClientId, segments: seq<string>, firsts: set<string>, k: string)
    requires IsCollected(x, node, client, segments, firsts) && k !in firsts
    ensures |x.0| > |segments| ==> x.0[|segments|] != k
  {
    var q :| x.0 == segments + q && (q == [] || q[0] in firsts);
    if q != [] { assert x.0[|segments|] == q[0]; }
  }

  lemma CollectedMore(out: seq<(seq<string>, Subscription)>, found: seq<(seq<string>, Subscription)>,
                      node: Node, client: ClientId, segments: seq<string>, firsts: set<string>, k: string)
    requires k in node.children && k !in firsts
    requires Collected(out, node, client, segments, firsts)
    requires Collected(found, node.children[k], client, segments + [k], node.children[k].children.Keys)
    ensures Collected(out + found, node, client, segments, firsts + {k})
  {
    forall x | x in found
      ensures IsCollected(x, node, client, segments, {k}) && |x.0| > |segments| && x.0[|segments|] == k
    {
      CollectedBelow(x, node, client, segments, k);
    }
    forall x | x in out ensures x !in found { CollectedBeside(x, node, client, segments, firsts, k); }
    DistinctConcat(out, found);
    forall q, s | s in At(node, q) && s.client == client && (q == [] || q[0] in firsts + {k})
      ensures (segments + q, s) in out + found
    {
      if q != [] && q[0] == k { CollectedCovers(found, node, client, segments, k, q, s); }
    }
  }

  lemma CollectedCovers(found: seq<(seq<string>, Subscription)>, node: Node, client: ClientId,
                        segments: seq<string>, k: string, q: seq<string>, s: Subscription)
    requires k in node.children && q != [] && q[0] == k && s in At(node, q) && s.client == client
    requires Collected(found, node.children[k], client, segments + [k], node.children[k].children.Keys)
    ensures (segments + q, s) in found
  {
    var child, tail := node.children[k], q[1..];
    assert s in At(child, tail);
    assert tail != [] ==> tail[0] in child.children;
    assert segments + q == segments + [k] + tail;
  }

  /** The children that survive the removal of a client, among the given first levels. */
  ghost function Kept(node: Node, client: ClientId, firsts: set<string>): map<string, Node> {
    map k | k in node.children && k in firsts && !RemoveClient(node.children[k], client).IsDead()
      :: RemoveClient(node.children[k], client)
  }

  lemma KeptMore(node: Node, client: ClientId, firsts: set<string>, k: string)
    requires k in node.children && k !in firsts
    ensures Kept(node, client, firsts + {k}) ==
            var child := RemoveClient(node.children[k], client);
            if child.IsDead() then Kept(node, client, firsts) else Kept(node, client, firsts)[k := child]
  {
  }

  lemma KeptAll(node: Node, client: ClientId)
    ensures RemoveClient(node, client) == Node(Kept(node, client, node.children.Keys), DropClient(node.subs, client))
  {
  }

  lemma CollectedFromRoot(root: Node, client: ClientId, out: seq<(seq<string>, Subscription)>, i: nat)
    requires Valid(root) && Collected(out, root, client, [], root.children.Keys) && i < |out|
    ensures out[i].1.client == client && Split(Join(out[i].0)) == out[i].0
    ensures Entry(Join(out[i].0), out[i].1) in Table(root)
  {
    assert out[i] in out;
    var q :| out[i].0 == [] + q && out[i].1 in At(root, q) && out[i].1.client == client;
    assert [] + q == q;
    PathOfLevels(root, q);
    SplitJoin(q);
    TableAt(root, Join(q), out[i].1);
  }

  lemma CollectedInTable(root: Node, client: ClientId, out: seq<(seq<string>, Subscription)>, e: Entry) returns (i: nat)
    requires Valid(root) && Collected(out, root, client, [], root.children.Keys)
    requires e in Table(root) && e.sub.client == client
    ensures i < |out| && out[i].1 == e.sub && Join(out[i].0) == e.filter
  {
    var q := Split(e.filter);
    assert e == Entry(e.filter, e.sub);
    TableAt(root, e.filter, e.sub);
    assert [] + q == q;
    assert ([] + q, e.sub) in out;
    SplitGivesLevels(e.filter);
    i :| 0 <= i < |out| && out[i] == (q, e.sub);
  }

  function OwnEntries(t: set<Entry>, client: ClientId): set<Entry> {
    set e | e in t && e.sub.client == client
  }

  /** The sequence lists the set, each element once. */
  ghost predicate IsListing<T>(xs: seq<T>, s: set<T>) {
    Distinct(xs) && (forall x | x in s :: x in xs) && (forall x | x in xs :: x in s)
  }

  function AsEntries(out: seq<(seq<string>, Subscription)>): (es: seq<Entry>)
    ensures |es| == |out| && forall i | 0 <= i < |out| :: es[i] == Entry(Join(out[i].0), out[i].1)
  {
    seq(|out|, i requires 0 <= i < |out| => Entry(Join(out[i].0), out[i].1))
  }

  lemma CollectedLists(root: Node, client: ClientId, out: seq<(seq<string>, Subscription)>)
    requires Valid(root) && Collected(out, root, client, [], root.children.Keys)
    ensures IsListing(AsEntries(out), OwnEntries(Table(root), client))
  {
    var es := AsEntries(out);
    forall i | 0 <= i < |out| ensures es[i] in OwnEntries(Table(root), client) && Split(es[i].filter) == out[i].0 {
      CollectedFromRoot(root, client, out, i);
    }
    forall e | e in OwnEntries(Table(root), client) ensures e in es {
      var i := CollectedInTable(root, client, out, e);
      assert es[i] == e;
    }
  }

  class TopicTrie {
    var root: Node

    ghost predicate Ok()
      reads this
    {
      Valid(root)
    }

    constructor ()
      ensures Ok() && Table(root) == {}
    {
      root := EMPTY;
    }

    method Add(filter: string, sub: Subscription) returns (isNew: bool)
      requires Ok()
      modifies this
      ensures Ok()
      ensures Table(root) == TableDrop(old(Table(root)), filter, sub.client, sub.group) + {Entry(filter, sub)}
      ensures isNew <==> forall e | e in old(Table(root)) :: !(e.filter == filter && Same(e.sub, sub.client, sub.group))
    {
      TableInsert(root, filter, sub);
      ghost var before := root;
      var there := At(root, Split(filter));
      isNew := forall s | s in there :: !Same(s, sub.client, sub.group);
      forall s ensures Entry(filter, s) in Table(before) <==> s in there { TableAt(before, filter, s); }
      assert forall e | e in Table(before) && e.filter == filter :: e == Entry(filter, e.sub);
      root := Insert(root, Split(filter), sub);
    }

    method Delete(filter: string, client: ClientId, group: Option<string>) returns (removed: bool)
      requires Ok()
      modifies this
      ensures Ok()
      ensures Table(root) == TableDrop(old(Table(root)), filter, client, group)
      ensures removed <==> Table(root) != old(Table(root))
    {
      TableRemove(root, filter, client, group);
      ghost var before := root;
      var there := At(root, Split(filter));
      removed := |DropSame(there, client, group)| != |there|;
      forall s ensures Entry(filter, s) in Table(before) <==> s in there { TableAt(before, filter, s); }
      if removed {
        var s :| s in there && Same(s, client, group);
        assert Entry(filter, s) in Table(before) && Entry(filter, s) !in TableDrop(Table(before), filter, client, group);
      } else {
        assert forall e | e in Table(before) && e.filter == filter :: e == Entry(filter, e.sub);
      }
      root := Remove(root, Split(filter), client, group);
    }

    /** Removes a client's subscriptions and returns each of them once. */
    method TakeClient(client: ClientId) returns (taken: seq<Entry>)
      requires Ok()
      modifies this
      ensures Ok()
      ensures Table(root) == TableDropClient(old(Table(root)), client)
      ensures IsListing(taken, OwnEntries(old(Table(root)), client))
    {
      TableRemoveClient(root, client);
      ghost var before := root;
      var node, out := TakeClientRec(root, client, []);
      root := node;
      taken := AsEntries(out);
      CollectedLists(before, client, out);
    }

    /** A client's subscriptions, each once; the index stays as it is. */
    method ClientSubscriptions(client: ClientId) returns (found: seq<Entry>)
      requires Ok()
      ensures IsListing(found, OwnEntries(Table(root), client))
    {
      var _, out := TakeClientRec(root, client, []);
      found := AsEntries(out);
      CollectedLists(root, client, out);
    }

    method TakeHere(node: Node, client: ClientId, segments: seq<string>) returns (out: seq<(seq<string>, Subscription)>)
      requires UniqueSubs(node.subs)
      ensures Collected(out, node, client, segments, {})
    {
      out := [];
      var i := 0;
      while i < |node.subs|
        invariant 0 <= i <= |node.subs|
        invariant Distinct(out)
        invariant forall x | x in out :: x.0 == segments && x.1 in node.subs[..i] && x.1.client == client
        invariant forall s | s in node.subs[..i] && s.client == client :: (segments, s) in out
      {
        assert node.subs[..i + 1] == node.subs[..i] + [node.subs[i]];
        assert node.subs[i] !in node.subs[..i];
        if node.subs[i].client == client { out := out + [(segments, node.subs[i])]; }
        i := i + 1;
      }
      assert node.subs[..i] == node.subs;
      CollectedHere(out, node, client, segments);
    }

    method TakeClientRec(node: Node, client: ClientId, segments: seq<string>)
      returns (rest: Node, out: seq<(seq<string>, Subscription)>)
      requires Shaped(node)
      ensures rest == RemoveClient(node, client)
      ensures Collected(out, node, client, segments, node.children.Keys)
      decreases node
    {
      out := TakeHere(node, client, segments);
      var kept: map<string, Node> := map[];
      var todo := node.children.Keys;
      ghost var done: set<string> := {};
      while todo != {}
        invariant todo <= node.children.Keys && done == node.children.Keys - todo
        invariant kept == Kept(node, client, done)
        invariant Collected(out, node, client, segments, done)
        decreases todo
      {
        var k :| k in todo;
        var child, found := TakeClientRec(node.children[k], client, segments + [k]);
        CollectedMore(out, found, node, client, segments, done, k);
        out := out + found;
        if !child.IsDead() { kept := kept[k := child]; }
        KeptMore(node, client, done, k);
        todo, done := todo - {k}, done + {k};
      }
      assert done == node.children.Keys;
      KeptAll(node, client);
      rest := Node(kept, DropClient(node.subs, client));
    }

    /** The subscribers of a topic, walking the tree level by level. */
    method Matching(topic: string) returns (out: seq<Subscription>)
      requires Ok()
      ensures out == Match(root, Split(topic), WildAllowed(topic))
    {
      var segments := Split(topic);
      FirstLevelDecidesPrefix(topic, '$');
      out := MatchRec(root, segments, 0, StartsWith(segments[0], '$'));
      assert segments[0..] == segments;
    }

    method MatchRec(node: Node, segments: seq<string>, idx: nat, dollarTop: bool) returns (out: seq<Subscription>)
      requires idx <= |segments|
      ensures out == Match(node, segments[idx..], !(idx == 0 && dollarTop))
      decreases |segments| - idx
    {
      if idx == |segments| {
        out := node.subs;
        if "#" in node.children { out := out + node.children["#"].subs; }
        return;
      }
      var seg := segments[idx];
      assert segments[idx..][0] == seg && segments[idx..][1..] == segments[idx + 1..];
      var allowWildcard := !(idx == 0 && dollarTop);
      out := [];
      if seg in node.children {
        out := MatchRec(node.children[seg], segments, idx + 1, dollarTop);
      }
      if allowWildcard {
        if "+" in node.children {
          var more := MatchRec(node.children["+"], segments, idx + 1, dollarTop);
          out := out + more;
        }
        if "#" in node.children { out := out + node.children["#"].subs; }
      }
    }
  }
}
