/** Fan-out of one publish: overlapping subscriptions collapse to one delivery per client. */
module Routing {
  import opened Types
  import Topics
  import Trie

  /** The options a client's delivery goes out with. */
  datatype Match = Match(qos: QoS, noLocal: bool, retainAsPublished: bool, subIds: seq<nat>)

  /** Where a subscription is collected: among the ordinary ones (no group) or in its group. */
  type Key = (Option<string>, ClientId)

  function KeyOf(s: Subscription): Key {
    (s.group, s.client)
  }

  /** `m` collapses the subscriptions under `key`: options of one with the highest QoS, and every
      identifier once. */
  ghost predicate Collapses(m: Match, subs: seq<Subscription>, key: Key) {
    && (exists k :: 0 <= k < |subs| && KeyOf(subs[k]) == key && m.qos == subs[k].qos && m.noLocal == subs[k].noLocal
                    && m.retainAsPublished == subs[k].retainAsPublished)
    && (forall k | 0 <= k < |subs| && KeyOf(subs[k]) == key :: subs[k].qos.Rank() <= m.qos.Rank())
    && Trie.Distinct(m.subIds)
    && (forall id :: id in m.subIds <==> HasId(subs, key, id))
  }

  ghost predicate HasId(subs: seq<Subscription>, key: Key, id: nat) {
    exists k :: 0 <= k < |subs| && KeyOf(subs[k]) == key && subs[k].subId == Some(id)
  }

  ghost predicate HasKey(subs: seq<Subscription>, key: Key) {
    exists k :: 0 <= k < |subs| && KeyOf(subs[k]) == key
  }

  /** One more matching subscription for a client. */
  function Merge(entry: Option<Match>, s: Subscription): Match {
    var e := if entry.Some? then entry.value else Match(s.qos, s.noLocal, s.retainAsPublished, []);
    var ids := if s.subId.Some? && s.subId.value !in e.subIds then e.subIds + [s.subId.value] else e.subIds;
    if s.qos.Rank() > e.qos.Rank() then Match(s.qos, s.noLocal, s.retainAsPublished, ids) else e.(subIds := ids)
  }

  lemma IdsMore(subs: seq<Subscription>, s: Subscription, key: Key, id: nat)
    ensures HasId(subs + [s], key, id) <==> HasId(subs, key, id) || (KeyOf(s) == key && s.subId == Some(id))
  {
    var more := subs + [s];
    if HasId(subs, key, id) {
      var k :| 0 <= k < |subs| && KeyOf(subs[k]) == key && subs[k].subId == Some(id);
      assert more[k] == subs[k];
    }
    if KeyOf(s) == key && s.subId == Some(id) { assert more[|subs|] == s; }
  }

  lemma MergeCollapses(entry: Option<Match>, subs: seq<Subscription>, s: Subscription)
    requires entry.Some? ==> Collapses(entry.value, subs, KeyOf(s))
    requires entry.None? ==> !HasKey(subs, KeyOf(s))
    ensures Collapses(Merge(entry, s), subs + [s], KeyOf(s))
  {
    var m, more, key := Merge(entry, s), subs + [s], KeyOf(s);
    assert more[|subs|] == s;
    if entry.Some? {
      var k :| 0 <= k < |subs| && KeyOf(subs[k]) == key && entry.value.qos == subs[k].qos
               && entry.value.noLocal == subs[k].noLocal && entry.value.retainAsPublished == subs[k].retainAsPublished;
      assert more[k] == subs[k];
    }
    forall id ensures id in m.subIds <==> HasId(more, key, id) { IdsMore(subs, s, key, id); }
  }

  lemma OthersCollapse(m: Match, subs: seq<Subscription>, s: Subscription, key: Key)
    requires Collapses(m, subs, key) && key != KeyOf(s)
    ensures Collapses(m, subs + [s], key)
  {
    var more := subs + [s];
    var k :| 0 <= k < |subs| && KeyOf(subs[k]) == key && m.qos == subs[k].qos && m.noLocal == subs[k].noLocal
             && m.retainAsPublished == subs[k].retainAsPublished;
    assert more[k] == subs[k];
    forall id ensures id in m.subIds <==> HasId(more, key, id) { IdsMore(subs, s, key, id); }
  }

  ghost predicate Collapsed(found: map<Key, Match>, subs: seq<Subscription>) {
    forall key :: (key in found <==> HasKey(subs, key)) && (key in found ==> Collapses(found[key], subs, key))
  }

  /** Collapses the matching subscriptions to one match for each client, and for each client in a group. */
  method Collapse(subs: seq<Subscription>) returns (found: map<Key, Match>)
    ensures Collapsed(found, subs)
  {
    found := map[];
    for i := 0 to |subs|
      invariant Collapsed(found, subs[..i])
    {
      var s, key := subs[i], KeyOf(subs[i]);
      var entry := if key in found then Some(found[key]) else None;
      var more := found[key := Merge(entry, s)];
      assert Collapsed(more, subs[..i + 1]) by {
        CollapsedMore(found, subs[..i], s);
        assert subs[..i] + [s] == subs[..i + 1];
      }
      found := more;
    }
    assert subs[..|subs|] == subs;
  }

  lemma CollapsedMore(found: map<Key, Match>, subs: seq<Subscription>, s: Subscription)
    requires Collapsed(found, subs)
    ensures var entry := if KeyOf(s) in found then Some(found[KeyOf(s)]) else None;
            Collapsed(found[KeyOf(s) := Merge(entry, s)], subs + [s])
  {
    var entry := if KeyOf(s) in found then Some(found[KeyOf(s)]) else None;
    var found', more := found[KeyOf(s) := Merge(entry, s)], subs + [s];
    MergeCollapses(entry, subs, s);
    forall key
      ensures (key in found' <==> HasKey(more, key)) && (key in found' ==> Collapses(found'[key], more, key))
    {
      if key == KeyOf(s) {
        assert more[|subs|] == s;
      } else {
        if key in found { OthersCollapse(found[key], subs, s, key); }
        if HasKey(more, key) {
          var k :| 0 <= k < |more| && KeyOf(more[k]) == key;
          assert subs[k] == more[k];
        }
        if HasKey(subs, key) {
          var k :| 0 <= k < |subs| && KeyOf(subs[k]) == key;
          assert more[k] == subs[k];
        }
      }
    }
  }

  // --- deliveries -------------------------------------------------------------------------

  datatype Send = Send(client: ClientId, delivery: Delivery)

  function Made(m: Match, p: Publish, wasRetained: bool): Delivery {
    Delivery(p, MinQos(p.qos, m.qos), wasRetained && m.retainAsPublished, m.subIds)
  }

  predicate Suppressed(m: Match, publisher: Option<ClientId>, c: ClientId) {
    m.noLocal && publisher == Some(c)
  }

  /** The ordinary deliveries of a publish, as `Collapsed` matches give them. */
  ghost predicate Ordinary(sends: seq<Send>, found: map<Key, Match>, p: Publish, publisher: Option<ClientId>, wasRetained: bool) {
    && (forall i, j | 0 <= i < j < |sends| :: sends[i].client != sends[j].client)
    && (forall i | 0 <= i < |sends| :: SentFor(sends[i], found, p, publisher, wasRetained))
    && (forall c | (None, c) in found && !Suppressed(found[(None, c)], publisher, c) :: SentTo(sends, c))
  }

  ghost predicate SentTo(sends: seq<Send>, c: ClientId) {
    exists i :: 0 <= i < |sends| && sends[i].client == c
  }

  predicate SentFor(send: Send, found: map<Key, Match>, p: Publish, publisher: Option<ClientId>, wasRetained: bool) {
    var key: Key := (None, send.client);
    key in found && !Suppressed(found[key], publisher, send.client) && send.delivery == Made(found[key], p, wasRetained)
  }

  /** One copy for each ordinary subscriber, in some order, none back to a publisher that asked for none. */
  method FanOut(found: map<Key, Match>, p: Publish, publisher: Option<ClientId>, wasRetained: bool) returns (sends: seq<Send>)
    ensures Ordinary(sends, found, p, publisher, wasRetained)
  {
    sends := [];
    var left := found.Keys;
    while left != {}
      invariant left <= found.Keys
      invariant forall i, j | 0 <= i < j < |sends| :: sends[i].client != sends[j].client
      invariant forall i | 0 <= i < |sends| :: SentFor(sends[i], found, p, publisher, wasRetained) && (None, sends[i].client) !in left
      invariant forall c | (None, c) in found && !Suppressed(found[(None, c)], publisher, c) :: (None, c) in left || SentTo(sends, c)
      decreases |left|
    {
      var key :| key in left;
      left := left - {key};
      if key.0.None? && !Suppressed(found[key], publisher, key.1) {
        ghost var was := sends;
        sends := sends + [Send(key.1, Made(found[key], p, wasRetained))];
        SentStays(was, sends[|was|]);
      }
    }
  }

  lemma SentStays(sends: seq<Send>, send: Send)
    ensures forall c :: SentTo(sends + [send], c) <==> SentTo(sends, c) || send.client == c
  {
    var more := sends + [send];
    forall c ensures SentTo(more, c) <==> SentTo(sends, c) || send.client == c {
      if SentTo(sends, c) {
        var i :| 0 <= i < |sends| && sends[i].client == c;
        assert more[i] == sends[i];
      }
      if send.client == c { assert more[|sends|] == send; }
    }
  }

  // --- against the subscription table --------------------------------------------------------

  /** The client's subscriptions that match the topic: its ordinary ones (no group), or those in a group. */
  function Matching(t: set<Entry>, topic: string, key: Key): set<Entry> {
    set e | e in t && KeyOf(e.sub) == key && Topics.Matches(e.filter, topic)
  }

  /** The declarative meaning of a delivery: the message itself, under one of the client's matching
      subscriptions of highest granted QoS, naming every matching identifier once. */
  ghost predicate Follows(d: Delivery, top: Entry, t: set<Entry>, p: Publish, wasRetained: bool, key: Key) {
    && top in Matching(t, p.topic, key)
    && (forall e | e in Matching(t, p.topic, key) :: e.sub.qos.Rank() <= top.sub.qos.Rank())
    && d.publish == p
    && d.qos.Rank() <= p.qos.Rank() && d.qos.Rank() <= top.sub.qos.Rank() && (d.qos == p.qos || d.qos == top.sub.qos)
    && d.retain == (wasRetained && top.sub.retainAsPublished)
    && Trie.Distinct(d.subIds)
    && (forall id :: id in d.subIds <==> exists e :: e in Matching(t, p.topic, key) && e.sub.subId == Some(id))
  }

  /** A highest-QoS match that asks not to hear this publisher. */
  predicate Forbids(top: Entry, t: set<Entry>, topic: string, publisher: Option<ClientId>, c: ClientId) {
    && top in Matching(t, topic, (None, c))
    && (forall e | e in Matching(t, topic, (None, c)) :: e.sub.qos.Rank() <= top.sub.qos.Rank())
    && top.sub.noLocal && publisher == Some(c)
  }

  lemma ScanKey(root: Trie.Node, topic: string, key: Key, e: Entry)
    requires Trie.Valid(root) && Topics.WildcardFree(topic) && Trie.ValidFilters(Trie.Table(root))
    requires e in Matching(Trie.Table(root), topic, key)
    ensures e.sub in Trie.Match(root, Topics.Split(topic), Trie.WildAllowed(topic)) && KeyOf(e.sub) == key
  {
    assert Entry(e.filter, e.sub) in Trie.Table(root) && Topics.Matches(e.filter, topic);
    Trie.MatchIsTableScan(root, topic, e.sub);
  }

  lemma ScanEntry(root: Trie.Node, topic: string, key: Key, s: Subscription) returns (e: Entry)
    requires Trie.Valid(root) && Topics.WildcardFree(topic) && Trie.ValidFilters(Trie.Table(root))
    requires s in Trie.Match(root, Topics.Split(topic), Trie.WildAllowed(topic)) && KeyOf(s) == key
    ensures e in Matching(Trie.Table(root), topic, key) && e.sub == s
  {
    Trie.MatchIsTableScan(root, topic, s);
    var f :| Entry(f, s) in Trie.Table(root) && Topics.Matches(f, topic);
    e := Entry(f, s);
  }

  /** A collapsed match has a highest-QoS subscription of the table behind it, and all its identifiers. */
  lemma CollapsesTable(root: Trie.Node, topic: string, key: Key, m: Match) returns (top: Entry)
    requires Trie.Valid(root) && Topics.WildcardFree(topic) && Trie.ValidFilters(Trie.Table(root))
    requires Collapses(m, Trie.Match(root, Topics.Split(topic), Trie.WildAllowed(topic)), key)
    ensures top in Matching(Trie.Table(root), topic, key)
    ensures m.qos == top.sub.qos && m.noLocal == top.sub.noLocal && m.retainAsPublished == top.sub.retainAsPublished
    ensures forall e | e in Matching(Trie.Table(root), topic, key) :: e.sub.qos.Rank() <= top.sub.qos.Rank()
    ensures forall id :: id in m.subIds <==> exists e :: e in Matching(Trie.Table(root), topic, key) && e.sub.subId == Some(id)
  {
    var t, subs := Trie.Table(root), Trie.Match(root, Topics.Split(topic), Trie.WildAllowed(topic));
    var k :| 0 <= k < |subs| && KeyOf(subs[k]) == key && m.qos == subs[k].qos && m.noLocal == subs[k].noLocal
             && m.retainAsPublished == subs[k].retainAsPublished;
    top := ScanEntry(root, topic, key, subs[k]);
    forall e | e in Matching(t, topic, key) ensures e.sub.qos.Rank() <= top.sub.qos.Rank() {
      ScanKey(root, topic, key, e);
      var j :| 0 <= j < |subs| && subs[j] == e.sub;
    }
    forall id ensures id in m.subIds <==> exists e :: e in Matching(t, topic, key) && e.sub.subId == Some(id) {
      IdsOfTable(root, topic, key, id);
    }
  }

  lemma IdsOfTable(root: Trie.Node, topic: string, key: Key, id: nat)
    requires Trie.Valid(root) && Topics.WildcardFree(topic) && Trie.ValidFilters(Trie.Table(root))
    ensures HasId(Trie.Match(root, Topics.Split(topic), Trie.WildAllowed(topic)), key, id)
       <==> exists e :: e in Matching(Trie.Table(root), topic, key) && e.sub.subId == Some(id)
  {
    var t, subs := Trie.Table(root), Trie.Match(root, Topics.Split(topic), Trie.WildAllowed(topic));
    if HasId(subs, key, id) {
      var j :| 0 <= j < |subs| && KeyOf(subs[j]) == key && subs[j].subId == Some(id);
      var e := ScanEntry(root, topic, key, subs[j]);
    }
    if e :| e in Matching(t, topic, key) && e.sub.subId == Some(id) {
      ScanKey(root, topic, key, e);
      var j :| 0 <= j < |subs| && subs[j] == e.sub;
    }
  }

  /** A client's subscriptions are found under a key exactly if one of them there matches. */
  lemma FoundWhenMatching(root: Trie.Node, found: map<Key, Match>, topic: string, key: Key)
    requires Trie.Valid(root) && Topics.WildcardFree(topic) && Trie.ValidFilters(Trie.Table(root))
    requires Collapsed(found, Trie.Match(root, Topics.Split(topic), Trie.WildAllowed(topic)))
    ensures key in found <==> Matching(Trie.Table(root), topic, key) != {}
  {
    var subs := Trie.Match(root, Topics.Split(topic), Trie.WildAllowed(topic));
    if e :| e in Matching(Trie.Table(root), topic, key) {
      ScanKey(root, topic, key, e);
      var j :| 0 <= j < |subs| && subs[j] == e.sub;
      assert HasKey(subs, key);
    }
    if key in found { var top := CollapsesTable(root, topic, key, found[key]); }
  }

  /** The copy made for a key follows a highest-QoS match under it. */
  lemma MadeFollows(root: Trie.Node, found: map<Key, Match>, p: Publish, wasRetained: bool, key: Key) returns (top: Entry)
    requires Trie.Valid(root) && Topics.WildcardFree(p.topic) && Trie.ValidFilters(Trie.Table(root))
    requires Collapsed(found, Trie.Match(root, Topics.Split(p.topic), Trie.WildAllowed(p.topic))) && key in found
    ensures Follows(Made(found[key], p, wasRetained), top, Trie.Table(root), p, wasRetained, key)
    ensures found[key].noLocal == top.sub.noLocal
  {
    top := CollapsesTable(root, p.topic, key, found[key]);
  }

  /** Routing refines the declarative rule: each client gets at most one ordinary delivery; every delivery
      follows a highest-QoS match of its client; and a client with a matching subscription goes without
      only if such a match forbids it. */
  lemma RoutingRefines(root: Trie.Node, sends: seq<Send>, found: map<Key, Match>, p: Publish, publisher: Option<ClientId>,
                       wasRetained: bool, c: ClientId)
    requires Trie.Valid(root) && Topics.WildcardFree(p.topic) && Trie.ValidFilters(Trie.Table(root))
    requires Collapsed(found, Trie.Match(root, Topics.Split(p.topic), Trie.WildAllowed(p.topic)))
    requires Ordinary(sends, found, p, publisher, wasRetained)
    ensures forall i, j | 0 <= i < |sends| && 0 <= j < |sends| && sends[i].client == sends[j].client :: i == j
    ensures forall i | 0 <= i < |sends| && sends[i].client == c ::
              exists top :: Follows(sends[i].delivery, top, Trie.Table(root), p, wasRetained, (None, c)) && !(top.sub.noLocal && publisher == Some(c))
    ensures Matching(Trie.Table(root), p.topic, (None, c)) != {} ==>
              SentTo(sends, c) || exists top :: Forbids(top, Trie.Table(root), p.topic, publisher, c)
  {
    var t, key: Key := Trie.Table(root), (None, c);
    FoundWhenMatching(root, found, p.topic, key);
    forall i | 0 <= i < |sends| && sends[i].client == c
      ensures exists top :: Follows(sends[i].delivery, top, t, p, wasRetained, key) && !(top.sub.noLocal && publisher == Some(c))
    {
      assert SentFor(sends[i], found, p, publisher, wasRetained);
      var top := MadeFollows(root, found, p, wasRetained, key);
    }
    if key in found && Suppressed(found[key], publisher, c) {
      var top := MadeFollows(root, found, p, wasRetained, key);
      assert Forbids(top, t, p.topic, publisher, c);
    }
  }

  /** So does the copy for a member of a group: it follows a highest-QoS match among the member's
      subscriptions in that group, if it has one. */
  lemma GroupCopyRefines(root: Trie.Node, found: map<Key, Match>, p: Publish, wasRetained: bool, group: string, c: ClientId)
    requires Trie.Valid(root) && Topics.WildcardFree(p.topic) && Trie.ValidFilters(Trie.Table(root))
    requires Collapsed(found, Trie.Match(root, Topics.Split(p.topic), Trie.WildAllowed(p.topic)))
    ensures (Some(group), c) in found <==> Matching(Trie.Table(root), p.topic, (Some(group), c)) != {}
    ensures (Some(group), c) in found ==>
              exists top :: Follows(Made(found[(Some(group), c)], p, wasRetained), top, Trie.Table(root), p, wasRetained, (Some(group), c))
  {
    FoundWhenMatching(root, found, p.topic, (Some(group), c));
    if (Some(group), c) in found { var top := MadeFollows(root, found, p, wasRetained, (Some(group), c)); }
  }
}
