/** A client's subscriptions over the life of its session: for each filter and group, the last SUBSCRIBE or
    UNSUBSCRIBE decides, whatever else happens to the session. */
module Subscriptions {
  import opened Types
  import opened Generations
  import opened ShardModel
  import Trie

  /** What the client has stored for a filter and group. */
  function Under(v: Slot, filter: string, group: Option<string>): set<Subscription> {
    set e | e in v.subs && e.filter == filter && e.sub.group == group :: e.sub
  }

  /** What an operation says of a filter and group, if anything. */
  function Word(op: Op, c: ClientId, filter: string, group: Option<string>): Option<set<Subscription>> {
    match op
    case Subscribe(f, sub) => if f == filter && sub.group == group then Some({sub.(client := c)}) else None
    case Unsubscribe(f, g) => if f == filter && g == group then Some({}) else None
    case _ => None
  }

  /** The last thing said in a run. */
  function LastWord(events: seq<Event>, c: ClientId, filter: string, group: Option<string>): Option<set<Subscription>> {
    if events == [] then None
    else
      var n := |events| - 1;
      var word := if events[n].client == c then Word(events[n].op, c, filter, group) else None;
      if word.Some? then word else LastWord(events[..n], c, filter, group)
  }

  /** The session goes on: it is not replaced, moved in or loaded, and it does not end. */
  ghost predicate GoesOn(s: Shard, e: Event, c: ClientId) {
    e.client == c ==>
      && !(e.op.Open? && e.op.clean) && !e.op.Install? && !e.op.Load?
      && c in Step(s, c, e.op, e.now).sessions
  }

  ghost predicate Lasts(s: Shard, events: seq<Event>, c: ClientId)
    decreases |events|
  {
    c in s.sessions && (events == [] || (GoesOn(s, events[0], c) && Lasts(Step(s, events[0].client, events[0].op, events[0].now), events[1..], c)))
  }

  lemma OneSubscribed(v: Slot, c: ClientId, f: string, sub: Subscription, filter: string, group: Option<string>)
    requires OwnSubs(v, c)
    ensures Under(ActSubscribe(v, c, f, sub).slot, filter, group)
         == if f == filter && sub.group == group then {sub.(client := c)} else Under(v, filter, group)
  {
    var w := ActSubscribe(v, c, f, sub).slot;
    forall x ensures x in Under(w, filter, group)
                <==> x in (if f == filter && sub.group == group then {sub.(client := c)} else Under(v, filter, group))
    {
      if f == filter && sub.group == group {
        assert Entry(f, sub.(client := c)) in w.subs;
      } else if x in Under(v, filter, group) {
        assert Entry(filter, x) in w.subs;
      }
    }
  }

  lemma OneUnsubscribed(v: Slot, c: ClientId, f: string, g: Option<string>, filter: string, group: Option<string>)
    requires OwnSubs(v, c)
    ensures Under(ActUnsubscribe(v, c, f, g).slot, filter, group) == if f == filter && g == group then {} else Under(v, filter, group)
  {
    var w := ActUnsubscribe(v, c, f, g).slot;
    forall x ensures x in Under(w, filter, group) <==> x in (if f == filter && g == group then {} else Under(v, filter, group)) {
      if !(f == filter && g == group) && x in Under(v, filter, group) { assert Entry(filter, x) in w.subs; }
    }
  }

  lemma OthersKeepSubs(v: Slot, c: ClientId, g: nat, op: Op, now: nat)
    requires !op.Subscribe? && !op.Unsubscribe? && !op.Install? && !op.Load? && !(op.Open? && op.clean)
    requires Act(v, c, g, op, now).slot.session.Some?
    ensures Act(v, c, g, op, now).slot.subs == v.subs
  {
  }

  lemma OneWord(s: Shard, e: Event, c: ClientId, filter: string, group: Option<string>)
    requires c in s.sessions && GoesOn(s, e, c)
    ensures var was, word := Under(SlotOf(s, c), filter, group), if e.client == c then Word(e.op, c, filter, group) else None;
            Under(SlotOf(Step(s, e.client, e.op, e.now), c), filter, group) == if word.Some? then word.value else was
  {
    StepIsLocal(s, e.client, e.op, e.now, c);
    if e.client == c {
      var v := SlotOf(s, c);
      if e.op.Subscribe? {
        OneSubscribed(v, c, e.op.filter, e.op.sub, filter, group);
      } else if e.op.Unsubscribe? {
        OneUnsubscribed(v, c, e.op.filter, e.op.group, filter, group);
      } else {
        assert SlotOf(Step(s, c, e.op, e.now), c).session.Some?;
        OthersKeepSubs(v, c, s.nextGeneration + 1, e.op, e.now);
      }
    }
  }

  lemma {:induction false} FirstWord(events: seq<Event>, c: ClientId, filter: string, group: Option<string>)
    requires events != []
    ensures var later := LastWord(events[1..], c, filter, group);
            LastWord(events, c, filter, group)
            == if later.Some? then later else if events[0].client == c then Word(events[0].op, c, filter, group) else None
    decreases |events|
  {
    var n := |events| - 1;
    if n > 0 {
      FirstWord(events[..n], c, filter, group);
      assert events[..n][1..] == events[1..][..n - 1] && events[1..][n - 1] == events[n];
    } else {
      assert events[..0] == [] && events[1..] == [];
    }
  }

  /** As long as the session lasts, through any number of connections, parked spells and takeovers: for
      every filter and group the client has what it last subscribed to, nothing if it last unsubscribed,
      and otherwise what it had. */
  lemma {:induction false} LastWordCounts(s: Shard, events: seq<Event>, c: ClientId, filter: string, group: Option<string>)
    requires Lasts(s, events, c)
    ensures var word := LastWord(events, c, filter, group);
            Under(SlotOf(Run(s, events), c), filter, group) == if word.Some? then word.value else Under(SlotOf(s, c), filter, group)
    decreases |events|
  {
    if events != [] {
      var e := events[0];
      OneWord(s, e, c, filter, group);
      LastWordCounts(Step(s, e.client, e.op, e.now), events[1..], c, filter, group);
      FirstWord(events, c, filter, group);
    }
  }

  /** A Clean Start leaves nothing of what there was. */
  lemma CleanStartClears(s: Shard, c: ClientId, now: nat)
    requires c in s.sessions
    ensures SlotOf(Step(s, c, Open(true), now), c).subs == {}
  {
    StepIsLocal(s, c, Open(true), now, c);
  }
}
