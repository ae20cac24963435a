/** Whole histories of the topic index, against a flat table of subscriptions. */
module IndexRuns {
  import opened Types
  import opened Topics
  import opened Trie

  datatype IndexOp =
    | Added(filter: string, sub: Subscription)
    | Deleted(filter: string, client: ClientId, group: Option<string>)
    | Dropped(client: ClientId)

  function OnIndex(root: Node, op: IndexOp): Node {
    match op
    case Added(filter, sub) => Insert(root, Split(filter), sub)
    case Deleted(filter, client, group) => Remove(root, Split(filter), client, group)
    case Dropped(client) => RemoveClient(root, client)
  }

  function OnTable(t: set<Entry>, op: IndexOp): set<Entry> {
    match op
    case Added(filter, sub) => TableDrop(t, filter, sub.client, sub.group) + {Entry(filter, sub)}
    case Deleted(filter, client, group) => TableDrop(t, filter, client, group)
    case Dropped(client) => TableDropClient(t, client)
  }

  function Index(ops: seq<IndexOp>): Node {
    if ops == [] then EMPTY else OnIndex(Index(ops[..|ops| - 1]), ops[|ops| - 1])
  }

  function Flat(ops: seq<IndexOp>): set<Entry> {
    if ops == [] then {} else OnTable(Flat(ops[..|ops| - 1]), ops[|ops| - 1])
  }

  predicate FiltersValid(ops: seq<IndexOp>) {
    forall k | 0 <= k < |ops| :: ops[k].Added? ==> ValidFilter(ops[k].filter)
  }

  lemma {:induction false} IndexHoldsTable(ops: seq<IndexOp>)
    ensures Valid(Index(ops)) && Table(Index(ops)) == Flat(ops)
  {
    if ops == [] {
      assert Stored(EMPTY) == {};
    } else {
      var root, op := Index(ops[..|ops| - 1]), ops[|ops| - 1];
      IndexHoldsTable(ops[..|ops| - 1]);
      match op
      case Added(filter, sub) => TableInsert(root, filter, sub);
      case Deleted(filter, client, group) => TableRemove(root, filter, client, group);
      case Dropped(client) => TableRemoveClient(root, client);
    }
  }

  lemma {:induction false} FlatValid(ops: seq<IndexOp>)
    requires FiltersValid(ops)
    ensures ValidFilters(Flat(ops))
  {
    if ops != [] { FlatValid(ops[..|ops| - 1]); }
  }

  // --- a match list as entries ------------------------------------------------------------

  function EntriesAt(root: Node, p: seq<string>): (es: seq<Entry>)
    ensures |es| == |At(root, p)| && forall i | 0 <= i < |es| :: es[i] == Entry(Join(p), At(root, p)[i])
  {
    seq(|At(root, p)|, i requires 0 <= i < |At(root, p)| => Entry(Join(p), At(root, p)[i]))
  }

  function EntriesOf(root: Node, paths: seq<seq<string>>): seq<Entry> {
    if paths == [] then [] else EntriesAt(root, paths[0]) + EntriesOf(root, paths[1..])
  }

  function Subs(es: seq<Entry>): (ss: seq<Subscription>)
    ensures |ss| == |es| && forall i | 0 <= i < |es| :: ss[i] == es[i].sub
  {
    seq(|es|, i requires 0 <= i < |es| => es[i].sub)
  }

  lemma {:induction false} EntriesGather(root: Node, paths: seq<seq<string>>)
    ensures Subs(EntriesOf(root, paths)) == Gather(root, paths)
  {
    if paths != [] {
      EntriesGather(root, paths[1..]);
      var a, b := EntriesAt(root, paths[0]), EntriesOf(root, paths[1..]);
      assert Subs(a + b) == Subs(a) + Subs(b);
      assert Subs(a) == At(root, paths[0]);
    }
  }

  ghost predicate ListedUnder(root: Node, paths: seq<seq<string>>, e: Entry) {
    exists p :: p in paths && e.filter == Join(p) && e.sub in At(root, p)
  }

  lemma {:induction false} InEntries(root: Node, paths: seq<seq<string>>, e: Entry)
    ensures e in EntriesOf(root, paths) <==> ListedUnder(root, paths, e)
  {
    if paths != [] {
      InEntries(root, paths[1..], e);
      var a, b := EntriesAt(root, paths[0]), EntriesOf(root, paths[1..]);
      if e in a { assert paths[0] in paths && e.filter == Join(paths[0]) && e.sub in At(root, paths[0]); }
      if ListedUnder(root, paths[1..], e) {
        var p :| p in paths[1..] && e.filter == Join(p) && e.sub in At(root, p);
        assert p in paths;
      }
      if ListedUnder(root, paths, e) {
        var p :| p in paths && e.filter == Join(p) && e.sub in At(root, p);
        if p == paths[0] {
          var i :| 0 <= i < |At(root, p)| && At(root, p)[i] == e.sub;
          assert a[i] == e;
        } else {
          assert p in paths[1..];
        }
      }
    }
  }

  lemma {:induction false} EntriesDistinct(root: Node, paths: seq<seq<string>>)
    requires Valid(root) && Distinct(paths)
    ensures Distinct(EntriesOf(root, paths))
  {
    if paths != [] {
      EntriesDistinct(root, paths[1..]);
      var a, b := EntriesAt(root, paths[0]), EntriesOf(root, paths[1..]);
      UniqueAt(root, paths[0]);
      forall e | e in a ensures e !in b {
        InEntries(root, paths[1..], e);
        if ListedUnder(root, paths[1..], e) {
          var p :| p in paths[1..] && e.filter == Join(p) && e.sub in At(root, p);
          PathOfLevels(root, p);
          PathOfLevels(root, paths[0]);
          SplitJoin(p);
          SplitJoin(paths[0]);
          assert false;
        }
      }
      DistinctConcat(a, b);
    }
  }

  lemma {:induction false} UniqueAt(n: Node, p: seq<string>)
    requires Shaped(n)
    ensures UniqueSubs(At(n, p))
  {
    if p != [] && p[0] in n.children { UniqueAt(n.children[p[0]], p[1..]); }
  }

  /** The trie refines the flat test. After any history of inserts and removals of valid filters, a
      wildcard-free topic finds each live subscription whose filter passes the flat test exactly once,
      and nothing else. */
  lemma FindsEachMatchOnce(ops: seq<IndexOp>, topic: string) returns (found: seq<Entry>)
    requires FiltersValid(ops) && WildcardFree(topic)
    ensures Match(Index(ops), Split(topic), WildAllowed(topic)) == Subs(found)
    ensures Distinct(found)
    ensures forall e :: e in found <==> e in Flat(ops) && Matches(e.filter, topic)
  {
    var root := Index(ops);
    IndexHoldsTable(ops);
    FlatValid(ops);
    LivePathsValid(root);
    var filters := MatchRefinesFlatTest(root, topic);
    found := EntriesOf(root, filters);
    EntriesGather(root, filters);
    EntriesDistinct(root, filters);
    forall e ensures e in found <==> e in Flat(ops) && Matches(e.filter, topic) { FoundIsLive(root, filters, topic, e); }
  }

  lemma FoundIsLive(root: Node, filters: seq<seq<string>>, topic: string, e: Entry)
    requires Valid(root) && forall p | At(root, p) != [] :: p in filters <==> Matches(Join(p), topic)
    ensures e in EntriesOf(root, filters) <==> e in Table(root) && Matches(e.filter, topic)
  {
    InEntries(root, filters, e);
    TableAt(root, e.filter, e.sub);
    assert e == Entry(e.filter, e.sub);
    if ListedUnder(root, filters, e) {
      var p :| p in filters && e.filter == Join(p) && e.sub in At(root, p);
      PathOfLevels(root, p);
      SplitJoin(p);
    }
    if e in Table(root) && Matches(e.filter, topic) {
      SplitGivesLevels(e.filter);
      assert Split(e.filter) in filters;
    }
  }

  ghost predicate LiveBelowPath(t: set<Entry>, p: seq<string>) {
    exists e :: e in t && p <= Split(e.filter)
  }

  /** No leaks: after any history, the tree has a node exactly at the prefixes of live filters. */
  lemma NodesFollowTheTable(ops: seq<IndexOp>, p: seq<string>)
    requires p != []
    ensures Find(Index(ops), p).Some? <==> LiveBelowPath(Flat(ops), p)
  {
    var root := Index(ops);
    IndexHoldsTable(ops);
    NodesAreLivePrefixes(root, p);
    if q :| At(root, p + q) != [] {
      var s := At(root, p + q)[0];
      PathOfLevels(root, p + q);
      SplitJoin(p + q);
      TableAt(root, Join(p + q), s);
      assert Entry(Join(p + q), s) in Flat(ops) && p <= Split(Join(p + q));
    }
    if e :| e in Flat(ops) && p <= Split(e.filter) {
      var q := Split(e.filter)[|p|..];
      assert p + q == Split(e.filter) && e == Entry(e.filter, e.sub);
      TableAt(root, e.filter, e.sub);
    }
  }
}
