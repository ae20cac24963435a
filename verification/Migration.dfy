/** Sessions moving between shards. A reconnecting client's shard claims the session from its
    peers; whoever holds it packs it into a reply and forgets it. A session state is its
    subscriptions, QoS maps, packet-id cursor and queue, held by the shard or by the connection
    that runs the session. Every state carries a tag here, so that "the same session" means
    something; the tags influence nothing. */
module Migration {
  import opened Types
  import opened ShardModel
  import Trie

  /** A control message on its way; `tag` names the session state it carries, if it carries one. */
  datatype Packet = Packet(to: nat, control: Control, tag: nat)

  type Seat = (nat, ClientId)

  /** A CONNECT that awaits a session: the generation it opened, and the replies that reached it. */
  datatype Wait = Wait(generation: nat, replies: map<nat, Packet>)

  /** Messages may overtake each other here, which allows more than the FIFO queues do. */
  datatype Net = Net(
    nodes: seq<Shard>,
    tags: map<Seat, nat>,
    flight: map<nat, Packet>,
    waiting: map<Seat, Wait>,
    nextTag: nat,
    nextId: nat)

  datatype Event =
    | Connect(i: nat, c: ClientId, clean: bool, now: nat)
    | Local(i: nat, c: ClientId, op: Op, now: nat)
    | Arrive(id: nat, now: nat)
    | Finish(i: nat, c: ClientId, reply: Option<nat>)

  predicate Carries(p: Packet) {
    p.control.Handoff? && p.control.session.Some?
  }

  function With(packets: map<nat, Packet>, id: nat, p: Packet): map<nat, Packet> {
    packets[id := p]
  }

  /** A claim to every other shard, numbered from `nextId`. */
  function Claims(n: Net, i: nat, c: ClientId, resume: bool): map<nat, Packet> {
    map k | n.nextId <= k < n.nextId + |n.nodes| && IsPeer(n, i, k) :: Packet(k - n.nextId, Claim(c, i, resume), 0)
  }

  predicate IsPeer(n: Net, i: nat, k: int) {
    k != n.nextId + i
  }

  /** The session's state is with the connection that runs it; its slot has the subscriptions only. So it
      is with a connection that has been shed, until that closes. */
  predicate Running(s: Shard, c: ClientId) {
    c in s.sessions && s.sessions[c].snapshot.None?
  }

  /** CONNECT opens the session. It then tells the peers to discard theirs (Clean Start), or asks for
      it and waits (when nothing was resumed here). Over a running connection it gets a new state. */
  ghost function OnConnect(n: Net, i: nat, c: ClientId, clean: bool, now: nat): Net
    requires i < |n.nodes|
  {
    var s := Step(n.nodes[i], c, Open(clean), now);
    if c in n.nodes[i].sessions && !clean then
      if Running(n.nodes[i], c) then TakenOver(n, i, c, s) else Resumed(n, i, s)
    else
      Started(n, i, c, s, Claims(n, i, c, !clean),
              if clean then n.waiting else n.waiting[(i, c) := Wait(n.nodes[i].nextGeneration + 1, map[])])
  }

  function Resumed(n: Net, i: nat, s: Shard): Net
    requires i < |n.nodes|
  {
    n.(nodes := n.nodes[i := s])
  }

  function TakenOver(n: Net, i: nat, c: ClientId, s: Shard): Net
    requires i < |n.nodes|
  {
    n.(nodes := n.nodes[i := s], tags := n.tags[(i, c) := n.nextTag], nextTag := n.nextTag + 1)
  }

  /** A new session state, under a new tag. */
  function Started(n: Net, i: nat, c: ClientId, s: Shard, claims: map<nat, Packet>, waiting: map<Seat, Wait>): Net
    requires i < |n.nodes|
  {
    TakenOver(n, i, c, s).(flight := n.flight + claims, nextId := n.nextId + |n.nodes|, waiting := waiting)
  }

  /** A claim is answered with what the shard held: the whole state under its tag, or, if the QoS state is
      with a connection, something new. */
  function Answered(n: Net, id: nat, s: Shard, state: Option<MigratedSession>): Net
    requires id in n.flight && n.flight[id].to < |n.nodes| && n.flight[id].control.Claim?
  {
    var p := n.flight[id];
    var seat := (p.to, p.control.client);
    var whole := seat in n.tags && !Running(n.nodes[p.to], p.control.client);
    var reply := Packet(p.control.requester, Handoff(p.control.client, state), if whole then n.tags[seat] else n.nextTag);
    n.(nodes := n.nodes[p.to := s], flight := With(n.flight - {id}, n.nextId, reply), nextId := n.nextId + 1,
       nextTag := if whole then n.nextTag else n.nextTag + 1)
  }

  /** A claim reaches a peer, which gives up what it holds and answers; a reply reaches the CONNECT that
      awaits it, or is dropped. */
  ghost function OnArrive(n: Net, id: nat, now: nat): Net
    requires id in n.flight && n.flight[id].to < |n.nodes| && !n.flight[id].control.Shared?
  {
    var p := n.flight[id];
    var rest := n.(flight := n.flight - {id});
    match p.control
    case Claim(c, requester, resume) =>
      var s := n.nodes[p.to];
      Answered(n, id, Step(s, c, Claimed(requester, resume), now), HandedOver(SlotOf(s, c), resume))
    case Handoff(c, _) =>
      if (p.to, c) in n.waiting then rest.(waiting := n.waiting[(p.to, c) := Got(n.waiting[(p.to, c)], id, p)]) else rest
  }

  function Got(w: Wait, id: nat, p: Packet): Wait {
    w.(replies := With(w.replies, id, p))
  }

  /** The CONNECT that waits still has the session it opened. */
  predicate Awaited(n: Net, i: nat, c: ClientId)
    requires i < |n.nodes| && (i, c) in n.waiting
  {
    c in n.nodes[i].sessions && n.nodes[i].sessions[c].generation == n.waiting[(i, c)].generation
  }

  /** The waiting CONNECT goes on, with a session from one of the replies or, after a timeout or only
      negative replies, with none. The subscriptions are installed whoever has the session now; the rest
      goes to the connection that waited. */
  ghost function OnFinish(n: Net, i: nat, c: ClientId, reply: Option<nat>): Net
    requires i < |n.nodes| && (i, c) in n.waiting
    requires reply.Some? ==> reply.value in n.waiting[(i, c)].replies && Carries(n.waiting[(i, c)].replies[reply.value])
  {
    var rest := n.(waiting := n.waiting - {(i, c)});
    if reply.None? then rest
    else
      var p := n.waiting[(i, c)].replies[reply.value];
      rest.(nodes := n.nodes[i := Step(n.nodes[i], c, Install(p.control.session.value), 0)],
            tags := if Awaited(n, i, c) then n.tags[(i, c) := p.tag] else n.tags)
  }

  /** A connection closes only a session whose state it still has. */
  predicate ClosesOnce(s: Shard, c: ClientId, op: Op) {
    op.Close? && Holds(SlotOf(s, c), op.g) ==> Running(s, c)
  }

  ghost predicate Enabled(n: Net, e: Event) {
    match e
    case Connect(i, _, _, _) => i < |n.nodes|
    case Local(i, c, op, _) =>
      i < |n.nodes| && !op.Open? && !op.Load? && !op.Claimed? && !op.Install? && ClosesOnce(n.nodes[i], c, op)
    case Arrive(id, _) => id in n.flight && n.flight[id].to < |n.nodes| && !n.flight[id].control.Shared?
    case Finish(i, c, reply) =>
      && i < |n.nodes| && (i, c) in n.waiting
      && (reply.Some? ==> reply.value in n.waiting[(i, c)].replies && Carries(n.waiting[(i, c)].replies[reply.value]))
  }

  ghost function Next(n: Net, e: Event): Net
    requires Enabled(n, e)
  {
    match e
    case Connect(i, c, clean, now) => OnConnect(n, i, c, clean, now)
    case Local(i, c, op, now) => n.(nodes := n.nodes[i := Step(n.nodes[i], c, op, now)])
    case Arrive(id, now) => OnArrive(n, id, now)
    case Finish(i, c, reply) => OnFinish(n, i, c, reply)
  }

  // --- where a session state is -------------------------------------------------------------

  datatype Place = AtShard(i: nat, c: ClientId) | InFlight(id: nat) | AtConnect(i: nat, c: ClientId, id: nat)

  /** The session state with this tag is at this place. */
  ghost predicate IsAt(n: Net, p: Place, t: nat) {
    match p
    case AtShard(i, c) => i < |n.nodes| && c in n.nodes[i].sessions && (i, c) in n.tags && n.tags[(i, c)] == t
    case InFlight(id) => id in n.flight && Carries(n.flight[id]) && n.flight[id].tag == t
    case AtConnect(i, c, id) =>
      && (i, c) in n.waiting && id in n.waiting[(i, c)].replies
      && Carries(n.waiting[(i, c)].replies[id]) && n.waiting[(i, c)].replies[id].tag == t
  }

  ghost predicate OnePlace(n: Net, t: nat) {
    forall p, q | IsAt(n, p, t) && IsAt(n, q, t) :: p == q
  }

  ghost predicate Seated(n: Net) {
    forall i, c | 0 <= i < |n.nodes| && c in n.nodes[i].sessions :: (i, c) in n.tags
  }

  /** No id is used twice: what has arrived is no longer under way. */
  predicate IdsOk(n: Net) {
    && (forall id | id in n.flight :: id < n.nextId)
    && (forall seat | seat in n.waiting :: Arrived(n, n.waiting[seat].replies))
  }

  predicate Arrived(n: Net, packets: map<nat, Packet>) {
    forall id | id in packets :: id < n.nextId && id !in n.flight
  }

  ghost predicate TagsOk(n: Net) {
    (forall p, t: nat | IsAt(n, p, t) :: t < n.nextTag) && forall t: nat :: OnePlace(n, t)
  }

  ghost predicate Inv(n: Net) {
    Seated(n) && IdsOk(n) && TagsOk(n)
  }

  /** Operations of a shard's own never bring a session into being. */
  lemma LocalBringsNone(s: Shard, c: ClientId, op: Op, now: nat, d: ClientId)
    requires !op.Open? && !op.Load? && d in Step(s, c, op, now).sessions
    ensures d in s.sessions
  {
    StepIsLocal(s, c, op, now, d);
    assert SlotOf(Step(s, c, op, now), d).session.Some?;
  }

  lemma OpenKeepsOthers(s: Shard, c: ClientId, clean: bool, now: nat, d: ClientId)
    ensures d in Step(s, c, Open(clean), now).sessions <==> d == c || d in s.sessions
  {
    StepIsLocal(s, c, Open(clean), now, d);
    assert d in Step(s, c, Open(clean), now).sessions <==> SlotOf(Step(s, c, Open(clean), now), d).session.Some?;
    assert d in s.sessions <==> SlotOf(s, d).session.Some?;
  }

  lemma OpenKeys(s: Shard, c: ClientId, clean: bool, now: nat)
    ensures Step(s, c, Open(clean), now).sessions.Keys == s.sessions.Keys + {c}
  {
    forall d ensures d in Step(s, c, Open(clean), now).sessions <==> d == c || d in s.sessions {
      OpenKeepsOthers(s, c, clean, now, d);
    }
  }

  lemma ClaimForgets(s: Shard, c: ClientId, requester: nat, resume: bool, now: nat, d: ClientId)
    ensures d in Step(s, c, Claimed(requester, resume), now).sessions <==> d != c && d in s.sessions
    ensures HandedOver(SlotOf(s, c), resume).Some? <==> resume && c in s.sessions && s.sessions[c].mailbox.None?
  {
    StepIsLocal(s, c, Claimed(requester, resume), now, d);
    assert d in Step(s, c, Claimed(requester, resume), now).sessions
      <==> SlotOf(Step(s, c, Claimed(requester, resume), now), d).session.Some?;
    assert d in s.sessions <==> SlotOf(s, d).session.Some?;
  }

  lemma ClaimKeys(s: Shard, c: ClientId, requester: nat, resume: bool, now: nat)
    ensures Step(s, c, Claimed(requester, resume), now).sessions.Keys == s.sessions.Keys - {c}
    ensures HandedOver(SlotOf(s, c), resume).Some? <==> resume && c in s.sessions && s.sessions[c].mailbox.None?
  {
    forall d ensures d in Step(s, c, Claimed(requester, resume), now).sessions <==> d != c && d in s.sessions {
      ClaimForgets(s, c, requester, resume, now, d);
    }
    ClaimForgets(s, c, requester, resume, now, c);
  }

  /** Where what a step leaves at `q` was before it. */
  ghost function Whence(n: Net, e: Event, q: Place): Place
    requires Enabled(n, e)
  {
    match e
    case Arrive(id, _) =>
      var p := n.flight[id];
      if p.control.Claim? && q == InFlight(n.nextId) then AtShard(p.to, p.control.client)
      else if p.control.Handoff? && q == AtConnect(p.to, p.control.client, id) then InFlight(id)
      else q
    case Finish(i, c, reply) =>
      if reply.Some? && Awaited(n, i, c) && q == AtShard(i, c) then AtConnect(i, c, reply.value) else q
    case _ => q
  }

  /** Every state a step leaves somewhere was somewhere before it, each at a place of its own, or has a
      tag just given out. */
  ghost predicate Traced(n: Net, e: Event)
    requires Enabled(n, e)
  {
    && n.nextTag <= Next(n, e).nextTag
    && (forall q, tag: nat | IsAt(Next(n, e), q, tag) ::
          IsAt(n, Whence(n, e, q), tag) || (n.nextTag <= tag < Next(n, e).nextTag && NewAt(Next(n, e), q, tag)))
    && (forall q, r, tag: nat | IsAt(Next(n, e), q, tag) && IsAt(Next(n, e), r, tag) && Whence(n, e, q) == Whence(n, e, r) :: q == r)
  }

  /** A tag just given out, which nothing else can have. */
  ghost predicate NewAt(t: Net, p: Place, tag: nat) {
    IsAt(t, p, tag) && forall q | IsAt(t, q, tag) :: q == p
  }

  lemma TracedKeepsTags(n: Net, e: Event)
    requires TagsOk(n) && Enabled(n, e) && Traced(n, e)
    ensures TagsOk(Next(n, e))
  {
    var t := Next(n, e);
    forall p, tag: nat | IsAt(t, p, tag) ensures tag < t.nextTag {
      if IsAt(n, Whence(n, e, p), tag) { assert tag < n.nextTag; }
    }
    forall tag: nat ensures OnePlace(t, tag) {
      forall p, q | IsAt(t, p, tag) && IsAt(t, q, tag) ensures p == q {
        if IsAt(n, Whence(n, e, p), tag) && IsAt(n, Whence(n, e, q), tag) { assert OnePlace(n, tag); }
      }
    }
  }

  lemma LocalTraced(n: Net, i: nat, c: ClientId, op: Op, now: nat)
    requires Inv(n) && Enabled(n, Local(i, c, op, now))
    ensures Traced(n, Local(i, c, op, now)) && Seated(Next(n, Local(i, c, op, now)))
  {
    var t := Next(n, Local(i, c, op, now));
    forall j, d | 0 <= j < |t.nodes| && d in t.nodes[j].sessions ensures d in n.nodes[j].sessions {
      if j == i { LocalBringsNone(n.nodes[i], c, op, now, d); }
    }
  }

  lemma ConnectTraced(n: Net, i: nat, c: ClientId, clean: bool, now: nat)
    requires Inv(n) && i < |n.nodes|
    ensures Traced(n, Connect(i, c, clean, now)) && Seated(OnConnect(n, i, c, clean, now))
  {
    var s, e := Step(n.nodes[i], c, Open(clean), now), Connect(i, c, clean, now);
    OpenKeys(n.nodes[i], c, clean, now);
    if c !in n.nodes[i].sessions || clean {
      var waiting := if clean then n.waiting else n.waiting[(i, c) := Wait(n.nodes[i].nextGeneration + 1, map[])];
      StartMoves(n, i, c, s, Claims(n, i, c, !clean), waiting);
      RenewTraced(n, e, Started(n, i, c, s, Claims(n, i, c, !clean), waiting));
    } else if Running(n.nodes[i], c) {
      TakeoverMoves(n, i, c, s);
      RenewTraced(n, e, TakenOver(n, i, c, s));
    } else {
      ResumeMoves(n, i, s);
      ResumeTraced(n, e, Resumed(n, i, s));
    }
  }

  lemma ResumeTraced(n: Net, e: Event, t: Net)
    requires e.Connect? && Enabled(n, e) && Next(n, e) == t && t.nextTag == n.nextTag
    requires forall p, tag: nat | IsAt(t, p, tag) :: IsAt(n, p, tag)
    ensures Traced(n, e)
  {
  }

  lemma RenewTraced(n: Net, e: Event, t: Net)
    requires e.Connect? && Enabled(n, e) && Next(n, e) == t && t.nextTag == n.nextTag + 1 && Renews(n, t, e.i, e.c)
    ensures Traced(n, e)
  {
  }

  lemma ResumeMoves(n: Net, i: nat, s: Shard)
    requires Seated(n) && i < |n.nodes| && s.sessions.Keys == n.nodes[i].sessions.Keys
    ensures Seated(Resumed(n, i, s)) && forall p, tag: nat | IsAt(Resumed(n, i, s), p, tag) :: IsAt(n, p, tag)
  {
  }

  /** The new state is at the seat, and everything else where it was. */
  ghost predicate Renews(n: Net, t: Net, i: nat, c: ClientId) {
    && (forall p, tag: nat | IsAt(t, p, tag) :: IsAt(n, p, tag) || (tag == n.nextTag && p == AtShard(i, c)))
    && NewAt(t, AtShard(i, c), n.nextTag)
  }

  lemma TakeoverMoves(n: Net, i: nat, c: ClientId, s: Shard)
    requires Inv(n) && i < |n.nodes| && s.sessions.Keys == n.nodes[i].sessions.Keys + {c}
    ensures Seated(TakenOver(n, i, c, s)) && Renews(n, TakenOver(n, i, c, s), i, c)
  {
    var t := TakenOver(n, i, c, s);
    forall p, tag: nat | IsAt(t, p, tag) ensures IsAt(n, p, tag) || (tag == n.nextTag && p == AtShard(i, c)) {}
    assert IsAt(t, AtShard(i, c), n.nextTag);
  }

  lemma StartMoves(n: Net, i: nat, c: ClientId, s: Shard, claims: map<nat, Packet>, waiting: map<Seat, Wait>)
    requires Inv(n) && i < |n.nodes| && s.sessions.Keys == n.nodes[i].sessions.Keys + {c}
    requires forall k | k in claims :: !Carries(claims[k])
    requires waiting == n.waiting || exists g :: waiting == n.waiting[(i, c) := Wait(g, map[])]
    ensures Seated(Started(n, i, c, s, claims, waiting)) && Renews(n, Started(n, i, c, s, claims, waiting), i, c)
  {
    var t := Started(n, i, c, s, claims, waiting);
    forall p, tag: nat | IsAt(t, p, tag) ensures IsAt(n, p, tag) || (tag == n.nextTag && p == AtShard(i, c)) {}
    assert IsAt(t, AtShard(i, c), n.nextTag);
  }

  lemma ClaimTraced(n: Net, id: nat, now: nat)
    requires Inv(n) && Enabled(n, Arrive(id, now)) && n.flight[id].control.Claim?
    ensures Traced(n, Arrive(id, now)) && Seated(OnArrive(n, id, now))
  {
    var p := n.flight[id];
    var s, c := n.nodes[p.to], p.control.client;
    ClaimKeys(s, c, p.control.requester, p.control.resume, now);
    var t, state := Step(s, c, Claimed(p.control.requester, p.control.resume), now), HandedOver(SlotOf(s, c), p.control.resume);
    AnswerMoves(n, id, t, state);
    AnswerTraced(n, id, now, Answered(n, id, t, state));
  }

  lemma AnswerTraced(n: Net, id: nat, now: nat, t: Net)
    requires Enabled(n, Arrive(id, now)) && n.flight[id].control.Claim? && Next(n, Arrive(id, now)) == t && n.nextTag <= t.nextTag
    requires forall q, tag: nat | IsAt(t, q, tag) ::
               IsAt(n, Whence(n, Arrive(id, 0), q), tag) || (n.nextTag <= tag < t.nextTag && NewAt(t, q, tag))
    requires forall tag: nat :: !IsAt(t, AtShard(n.flight[id].to, n.flight[id].control.client), tag)
    ensures Traced(n, Arrive(id, now))
  {
  }

  lemma AnswerMoves(n: Net, id: nat, s: Shard, state: Option<MigratedSession>)
    requires Inv(n) && id in n.flight && n.flight[id].to < |n.nodes| && n.flight[id].control.Claim?
    requires s.sessions.Keys == n.nodes[n.flight[id].to].sessions.Keys - {n.flight[id].control.client}
    requires state.Some? ==> n.flight[id].control.client in n.nodes[n.flight[id].to].sessions
    ensures var t := Answered(n, id, s, state);
            && Seated(t)
            && (forall q, tag: nat | IsAt(t, q, tag) ::
                  IsAt(n, Whence(n, Arrive(id, 0), q), tag) || (n.nextTag <= tag < t.nextTag && NewAt(t, q, tag)))
            && (forall tag: nat :: !IsAt(t, AtShard(n.flight[id].to, n.flight[id].control.client), tag))
  {
    var t := Answered(n, id, s, state);
    forall q, tag: nat | IsAt(t, q, tag)
      ensures IsAt(n, Whence(n, Arrive(id, 0), q), tag) || (tag == n.nextTag < t.nextTag && q == InFlight(n.nextId)) {}
  }

  lemma HandoffTraced(n: Net, id: nat, now: nat)
    requires Inv(n) && Enabled(n, Arrive(id, now)) && n.flight[id].control.Handoff?
    ensures Traced(n, Arrive(id, now)) && Seated(OnArrive(n, id, now))
  {
    var t := OnArrive(n, id, now);
    forall q, tag: nat | IsAt(t, q, tag) ensures IsAt(n, Whence(n, Arrive(id, now), q), tag) {}
  }

  lemma FinishTraced(n: Net, i: nat, c: ClientId, reply: Option<nat>)
    requires Inv(n) && Enabled(n, Finish(i, c, reply))
    ensures Traced(n, Finish(i, c, reply)) && Seated(OnFinish(n, i, c, reply))
  {
    var t := OnFinish(n, i, c, reply);
    if reply.Some? {
      var state := n.waiting[(i, c)].replies[reply.value].control.session.value;
      forall j, d | 0 <= j < |t.nodes| && d in t.nodes[j].sessions ensures d in n.nodes[j].sessions {
        if j == i { LocalBringsNone(n.nodes[i], c, Install(state), 0, d); }
      }
    }
    forall q, tag: nat | IsAt(t, q, tag) ensures IsAt(n, Whence(n, Finish(i, c, reply), q), tag) {}
  }

  lemma ConnectIds(n: Net, i: nat, c: ClientId, clean: bool, now: nat)
    requires IdsOk(n) && i < |n.nodes|
    ensures IdsOk(OnConnect(n, i, c, clean, now))
  {
    var t := OnConnect(n, i, c, clean, now);
    forall seat | seat in t.waiting ensures Arrived(t, t.waiting[seat].replies) {
      if seat in n.waiting { assert Arrived(n, n.waiting[seat].replies); }
    }
  }

  lemma ArriveIds(n: Net, id: nat, now: nat)
    requires IdsOk(n) && Enabled(n, Arrive(id, now))
    ensures IdsOk(OnArrive(n, id, now))
  {
    var t := OnArrive(n, id, now);
    forall seat | seat in t.waiting ensures Arrived(t, t.waiting[seat].replies) {
      assert Arrived(n, n.waiting[seat].replies);
    }
  }

  lemma NextKeeps(n: Net, e: Event)
    requires Inv(n) && Enabled(n, e)
    ensures Inv(Next(n, e)) && Traced(n, e)
  {
    match e {
      case Connect(i, c, clean, now) =>
        ConnectIds(n, i, c, clean, now);
        ConnectTraced(n, i, c, clean, now);
      case Local(i, c, op, now) => LocalTraced(n, i, c, op, now);
      case Arrive(id, now) =>
        ArriveIds(n, id, now);
        if n.flight[id].control.Claim? { ClaimTraced(n, id, now); } else { HandoffTraced(n, id, now); }
      case Finish(i, c, reply) => FinishTraced(n, i, c, reply);
    }
    TracedKeepsTags(n, e);
  }

  // --- what a step loses ---------------------------------------------------------------------

  /** An operation of the shard's own that ends the session. */
  predicate Ends(v: Slot, op: Op, now: nat) {
    match op
    case Close(g, secs, _, _) => Holds(v, g) && secs == 0
    case Suspend(g, secs) => Holds(v, g) && v.session.value.parked && secs == 0
    case Sweep => v.session.Some? && Expired(v.session.value, now)
    case _ => false
  }

  /** The step loses the state at `p`: a Clean Start over it, a takeover of the connection that has it, or
      a new CONNECT over one that awaits it; an operation that ends it; a claim that finds it in use or does
      not want it; a reply nobody awaits; a CONNECT going on without it, or finding its own session gone or
      taken over, or taking another in its place. */
  ghost predicate Loses(n: Net, e: Event, p: Place)
    requires Enabled(n, e)
  {
    match e
    case Connect(i, c, clean, _) =>
      if clean || Running(n.nodes[i], c) then p == AtShard(i, c)
      else c !in n.nodes[i].sessions && p.AtConnect? && p.i == i && p.c == c
    case Local(i, c, op, now) => p == AtShard(i, c) && Ends(SlotOf(n.nodes[i], c), op, now)
    case Arrive(id, _) =>
      var m := n.flight[id];
      if m.control.Claim? then
        && p == AtShard(m.to, m.control.client)
        && !(m.control.resume && Idle(n.nodes[m.to], m.control.client))
      else p == InFlight(id) && (m.to, m.control.client) !in n.waiting
    case Finish(i, c, reply) =>
      || (p == AtShard(i, c) && reply.Some? && Awaited(n, i, c))
      || (p.AtConnect? && p.i == i && p.c == c && !(reply == Some(p.id) && Awaited(n, i, c)))
  }

  /** The session is suspended or parked, and its whole state with the shard. */
  predicate Idle(s: Shard, c: ClientId) {
    c in s.sessions && s.sessions[c].mailbox.None? && s.sessions[c].snapshot.Some?
  }

  /** Where the state at `p` is after a step that does not lose it. */
  ghost function Moved(n: Net, e: Event, p: Place): Place
    requires Enabled(n, e)
  {
    match e
    case Arrive(id, _) =>
      var m := n.flight[id];
      if m.control.Claim? && p == AtShard(m.to, m.control.client) then InFlight(n.nextId)
      else if m.control.Handoff? && p == InFlight(id) then AtConnect(m.to, m.control.client, id)
      else p
    case Finish(i, c, reply) =>
      if reply.Some? && Awaited(n, i, c) && p == AtConnect(i, c, reply.value) then AtShard(i, c) else p
    case _ => p
  }

  lemma LocalEnds(s: Shard, c: ClientId, op: Op, now: nat, d: ClientId)
    requires !op.Open? && !op.Load? && !op.Claimed? && !op.Install? && d in s.sessions
    ensures d in Step(s, c, op, now).sessions <==> !(d == c && Ends(SlotOf(s, c), op, now))
  {
    StepIsLocal(s, c, op, now, d);
    assert d in Step(s, c, op, now).sessions <==> SlotOf(Step(s, c, op, now), d).session.Some?;
    assert SlotOf(s, d).session.Some?;
  }

  ghost predicate Somewhere(n: Net, t: nat) {
    exists p :: IsAt(n, p, t)
  }

  lemma KeptByConnect(n: Net, i: nat, c: ClientId, clean: bool, now: nat, p: Place, t: nat)
    requires IdsOk(n) && i < |n.nodes| && IsAt(n, p, t) && t < n.nextTag
    ensures IsAt(OnConnect(n, i, c, clean, now), p, t) <==> !Loses(n, Connect(i, c, clean, now), p)
  {
    var s := Step(n.nodes[i], c, Open(clean), now);
    OpenKeys(n.nodes[i], c, clean, now);
    if c !in n.nodes[i].sessions || clean {
      KeptByStart(n, i, c, s, Claims(n, i, c, !clean), clean, n.nodes[i].nextGeneration + 1, p, t);
    } else {
      KeptByOpening(n, i, c, s, p, t);
    }
  }

  lemma KeptByOpening(n: Net, i: nat, c: ClientId, s: Shard, p: Place, t: nat)
    requires i < |n.nodes| && IsAt(n, p, t) && t < n.nextTag && c in n.nodes[i].sessions && s.sessions.Keys == n.nodes[i].sessions.Keys + {c}
    ensures IsAt(Resumed(n, i, s), p, t)
    ensures IsAt(TakenOver(n, i, c, s), p, t) <==> p != AtShard(i, c)
  {
  }

  lemma KeptByStart(n: Net, i: nat, c: ClientId, s: Shard, claims: map<nat, Packet>, clean: bool, g: nat, p: Place, t: nat)
    requires IdsOk(n) && i < |n.nodes| && IsAt(n, p, t) && t < n.nextTag && s.sessions.Keys == n.nodes[i].sessions.Keys + {c}
    requires forall k | k in claims :: n.nextId <= k
    ensures IsAt(Started(n, i, c, s, claims, if clean then n.waiting else n.waiting[(i, c) := Wait(g, map[])]), p, t)
       <==> !(p == AtShard(i, c) || (!clean && p.AtConnect? && p.i == i && p.c == c))
  {
  }

  lemma KeptByLocal(n: Net, i: nat, c: ClientId, op: Op, now: nat, p: Place, t: nat)
    requires IdsOk(n) && Enabled(n, Local(i, c, op, now)) && IsAt(n, p, t)
    ensures IsAt(Next(n, Local(i, c, op, now)), p, t) <==> !Loses(n, Local(i, c, op, now), p)
  {
    if p.AtShard? && p.i == i { LocalEnds(n.nodes[i], c, op, now, p.c); }
  }

  lemma KeptByClaim(n: Net, id: nat, now: nat, p: Place, t: nat)
    requires IdsOk(n) && Enabled(n, Arrive(id, now)) && n.flight[id].control.Claim? && IsAt(n, p, t) && t < n.nextTag
    ensures IsAt(OnArrive(n, id, now), Moved(n, Arrive(id, now), p), t) <==> !Loses(n, Arrive(id, now), p)
  {
    var m := n.flight[id];
    var s, c := n.nodes[m.to], m.control.client;
    ClaimKeys(s, c, m.control.requester, m.control.resume, now);
    KeptByAnswer(n, id, Step(s, c, Claimed(m.control.requester, m.control.resume), now), HandedOver(SlotOf(s, c), m.control.resume), p, t);
  }

  lemma KeptByAnswer(n: Net, id: nat, s: Shard, state: Option<MigratedSession>, p: Place, t: nat)
    requires IdsOk(n) && id in n.flight && n.flight[id].to < |n.nodes| && n.flight[id].control.Claim? && IsAt(n, p, t) && t < n.nextTag
    requires s.sessions.Keys == n.nodes[n.flight[id].to].sessions.Keys - {n.flight[id].control.client}
    ensures IsAt(Answered(n, id, s, state), Moved(n, Arrive(id, 0), p), t)
       <==> !(p == AtShard(n.flight[id].to, n.flight[id].control.client)
              && !(state.Some? && !Running(n.nodes[n.flight[id].to], n.flight[id].control.client)))
  {
  }

  lemma KeptByHandoff(n: Net, id: nat, now: nat, p: Place, t: nat)
    requires IdsOk(n) && Enabled(n, Arrive(id, now)) && n.flight[id].control.Handoff? && IsAt(n, p, t)
    ensures IsAt(OnArrive(n, id, now), Moved(n, Arrive(id, now), p), t) <==> !Loses(n, Arrive(id, now), p)
  {
  }

  lemma KeptByFinish(n: Net, i: nat, c: ClientId, reply: Option<nat>, p: Place, t: nat)
    requires OnePlace(n, t) && Enabled(n, Finish(i, c, reply)) && IsAt(n, p, t)
    ensures IsAt(OnFinish(n, i, c, reply), Moved(n, Finish(i, c, reply), p), t) <==> !Loses(n, Finish(i, c, reply), p)
  {
    if reply.Some? {
      var m := n.waiting[(i, c)].replies[reply.value];
      InstallSeats(n.nodes[i], c, m.control.session.value);
      if p == AtShard(i, c) {
        assert IsAt(n, AtConnect(i, c, reply.value), m.tag);
      }
    }
  }

  lemma InstallSeats(s: Shard, c: ClientId, m: MigratedSession)
    ensures Step(s, c, Install(m), 0).sessions.Keys == s.sessions.Keys
  {
    forall d ensures d in Step(s, c, Install(m), 0).sessions <==> d in s.sessions {
      StepIsLocal(s, c, Install(m), 0, d);
      assert d in Step(s, c, Install(m), 0).sessions <==> SlotOf(Step(s, c, Install(m), 0), d).session.Some?;
      assert d in s.sessions <==> SlotOf(s, d).session.Some?;
    }
  }

  lemma Kept(n: Net, e: Event, p: Place, t: nat)
    requires Inv(n) && Enabled(n, e) && IsAt(n, p, t)
    ensures IsAt(Next(n, e), Moved(n, e, p), t) <==> !Loses(n, e, p)
  {
    assert OnePlace(n, t) && t < n.nextTag;
    match e
    case Connect(i, c, clean, now) => KeptByConnect(n, i, c, clean, now, p, t);
    case Local(i, c, op, now) => KeptByLocal(n, i, c, op, now, p, t);
    case Arrive(id, now) => if n.flight[id].control.Claim? { KeptByClaim(n, id, now, p, t); } else { KeptByHandoff(n, id, now, p, t); }
    case Finish(i, c, reply) => KeptByFinish(n, i, c, reply, p, t);
  }

  /** The only way out of a place is the one `Whence` retraces. */
  lemma OneWay(n: Net, e: Event, q: Place, t: nat)
    requires Inv(n) && Enabled(n, e) && IsAt(Next(n, e), q, t) && IsAt(n, Whence(n, e, q), t)
    ensures q == Moved(n, e, Whence(n, e, q))
  {
    match e
    case Arrive(id, now) => if n.flight[id].control.Claim? { ClaimIsTaken(n, id, now, q, t); }
    case _ =>
  }

  /** Nothing stays where a claim was answered. */
  lemma ClaimIsTaken(n: Net, id: nat, now: nat, q: Place, t: nat)
    requires IdsOk(n) && Enabled(n, Arrive(id, now)) && n.flight[id].control.Claim? && IsAt(OnArrive(n, id, now), q, t)
    ensures q != AtShard(n.flight[id].to, n.flight[id].control.client)
  {
    var m := n.flight[id];
    ClaimForgets(n.nodes[m.to], m.control.client, m.control.requester, m.control.resume, now, m.control.client);
  }

  /** A step that does not lose a state leaves it where `Moved` says; one that does leaves it nowhere. */
  lemma LostExactlyWhen(n: Net, e: Event, p: Place, t: nat)
    requires Inv(n) && Enabled(n, e) && IsAt(n, p, t)
    ensures IsAt(Next(n, e), Moved(n, e, p), t) <==> !Loses(n, e, p)
    ensures Somewhere(Next(n, e), t) <==> !Loses(n, e, p)
  {
    Kept(n, e, p, t);
    if Somewhere(Next(n, e), t) {
      var q :| IsAt(Next(n, e), q, t);
      NextKeeps(n, e);
      assert t < n.nextTag && OnePlace(n, t);
      assert Whence(n, e, q) == p;
      OneWay(n, e, q, t);
    }
  }

  // --- runs ------------------------------------------------------------------------------------

  ghost predicate IsRun(n: Net, events: seq<Event>)
    decreases |events|
  {
    events == [] || (Enabled(n, events[0]) && IsRun(Next(n, events[0]), events[1..]))
  }

  ghost function Run(n: Net, events: seq<Event>): Net
    requires IsRun(n, events)
    decreases |events|
  {
    if events == [] then n else Run(Next(n, events[0]), events[1..])
  }

  /** Shards that have just started, with suspended sessions from disk and nothing under way. */
  ghost predicate Initial(n: Net) {
    && n.flight == map[] && n.waiting == map[]
    && (forall i, c | 0 <= i < |n.nodes| && c in n.nodes[i].sessions :: (i, c) in n.tags && n.tags[(i, c)] < n.nextTag)
    && (forall x, y | x in n.tags && y in n.tags && n.tags[x] == n.tags[y] :: x == y)
  }

  lemma InitialIsOk(n: Net)
    requires Initial(n)
    ensures Inv(n)
  {
  }

  lemma {:induction false} RunsKeepInv(n: Net, events: seq<Event>)
    requires Inv(n) && IsRun(n, events)
    ensures Inv(Run(n, events))
    decreases |events|
  {
    if events != [] {
      NextKeeps(n, events[0]);
      RunsKeepInv(Next(n, events[0]), events[1..]);
    }
  }

  /** Migration moves and never copies: under any interleaving of connects, claims, replies, timeouts
      and shard operations, no session state is ever in two places. */
  lemma MovesNeverCopies(n: Net, events: seq<Event>, t: nat, p: Place, q: Place)
    requires Initial(n) && IsRun(n, events)
    requires IsAt(Run(n, events), p, t) && IsAt(Run(n, events), q, t)
    ensures p == q
  {
    InitialIsOk(n);
    RunsKeepInv(n, events);
    assert OnePlace(Run(n, events), t);
  }

  /** No step of the run loses the state that starts at `p`. */
  ghost predicate Survives(n: Net, events: seq<Event>, p: Place)
    requires IsRun(n, events)
    decreases |events|
  {
    events == [] || (!Loses(n, events[0], p) && Survives(Next(n, events[0]), events[1..], Moved(n, events[0], p)))
  }

  /** A state that is nowhere never comes back. */
  lemma {:induction false} LostForGood(n: Net, events: seq<Event>, t: nat)
    requires Inv(n) && IsRun(n, events) && t < n.nextTag && !Somewhere(n, t)
    ensures !Somewhere(Run(n, events), t)
    decreases |events|
  {
    if events != [] {
      NextKeeps(n, events[0]);
      LostForGood(Next(n, events[0]), events[1..], t);
    }
  }

  /** Over every run from a start: a session state is still somewhere at the end exactly if no step of
      the run was one of those that lose it. */
  lemma {:induction false} SurvivesExactlyWhen(n: Net, events: seq<Event>, p: Place, t: nat)
    requires Inv(n) && IsRun(n, events) && IsAt(n, p, t)
    ensures Somewhere(Run(n, events), t) <==> Survives(n, events, p)
    decreases |events|
  {
    if events != [] {
      var next := Next(n, events[0]);
      assert t < n.nextTag;
      NextKeeps(n, events[0]);
      LostExactlyWhen(n, events[0], p, t);
      if Loses(n, events[0], p) { LostForGood(next, events[1..], t); }
      else { SurvivesExactlyWhen(next, events[1..], Moved(n, events[0], p), t); }
    }
  }

  /** What moves is the whole session. The reply carries the QoS maps, the packet-id cursor and the
      offline queue as they were; installing it into a session without subscriptions re-creates exactly
      the old ones, with No Local cleared on shared ones. */
  lemma MovesWholeSession(v: Slot, w: Slot, c: ClientId, requester: nat, g: nat)
    requires OwnSubs(v, c) && v.session.Some? && v.session.value.mailbox.None? && w.subs == {}
    ensures var out := Act(v, c, g, Claimed(requester, true), 0);
            && out.slot == GONE && |out.posts| == 1 && out.posts[0].To? && out.posts[0].peer == requester
            && out.posts[0].msg.Handoff? && out.posts[0].msg.client == c && out.posts[0].msg.session.Some?
            && var m := out.posts[0].msg.session.value;
            && var x := v.session.value;
            && SessionSnapshot(m.inflight, m.incomingQos2, m.nextPkid) == x.Durable() && m.offline == x.offlineQueue
            && var after := Act(w, c, g, Install(m), 0).slot;
            && after.session == w.session
            && (forall e | e in v.subs :: e.(sub := e.sub.(noLocal := e.sub.noLocal && e.sub.group.None?)) in after.subs)
            && (forall f | f in after.subs :: exists e :: e in v.subs && f == e.(sub := e.sub.(noLocal := e.sub.noLocal && e.sub.group.None?)))
  {
    var m := Packed(v.session.value, v.subs);
    assert InsertAll({}, RearmAll(m.subscriptions, c)) == RearmAll(v.subs, c);
    forall e | e in v.subs ensures Rearmed(e, c) == e.(sub := e.sub.(noLocal := e.sub.noLocal && e.sub.group.None?)) {}
  }

  /** A claim that finds the session without a mailbox, its reply, and the waiting CONNECT bring that very
      session state to the claiming shard, if and only if the whole state was with the shard and the
      CONNECT still has its session. */
  lemma ClaimBringsSession(n: Net, id: nat, i: nat, c: ClientId, tag: nat)
    requires Inv(n) && i < |n.nodes| && (i, c) in n.waiting
    requires id in n.flight && n.flight[id].to < |n.nodes| && n.flight[id].to != i
    requires n.flight[id].control == Claim(c, i, true)
    requires IsAt(n, AtShard(n.flight[id].to, c), tag)
    requires n.nodes[n.flight[id].to].sessions[c].mailbox.None?
    ensures var events := [Arrive(id, 0), Arrive(n.nextId, 0), Finish(i, c, Some(n.nextId))];
            && IsRun(n, events)
            && (IsAt(Run(n, events), AtShard(i, c), tag) <==> !Running(n.nodes[n.flight[id].to], c) && Awaited(n, i, c))
  {
    var events := [Arrive(id, 0), Arrive(n.nextId, 0), Finish(i, c, Some(n.nextId))];
    var a := ClaimIsAnswered(n, id, i, c, tag);
    var b := Next(a, events[1]);
    assert b.waiting[(i, c)] == Got(n.waiting[(i, c)], n.nextId, a.flight[n.nextId]);
    NotAlsoHere(n, i, c, n.flight[id].to, tag);
    var d := ReplyIsInstalled(b, n.nextId, i, c, tag);
    RunOfThree(n, a, b, d, events);
  }

  lemma ClaimIsAnswered(n: Net, id: nat, i: nat, c: ClientId, tag: nat) returns (a: Net)
    requires i < |n.nodes| && id in n.flight && n.flight[id].to < |n.nodes| && n.flight[id].to != i
    requires n.flight[id].control == Claim(c, i, true) && IsAt(n, AtShard(n.flight[id].to, c), tag)
    requires n.nodes[n.flight[id].to].sessions[c].mailbox.None?
    ensures a == Next(n, Arrive(id, 0)) && |a.nodes| == |n.nodes| && a.nodes[i] == n.nodes[i] && a.tags == n.tags && a.waiting == n.waiting
    ensures n.nextId in a.flight && a.flight[n.nextId].to == i && Carries(a.flight[n.nextId]) && a.flight[n.nextId].control.client == c
    ensures a.flight[n.nextId].tag == if Running(n.nodes[n.flight[id].to], c) then n.nextTag else tag
  {
    a := Next(n, Arrive(id, 0));
  }

  lemma ReplyIsInstalled(b: Net, id: nat, i: nat, c: ClientId, tag: nat) returns (d: Net)
    requires Enabled(b, Finish(i, c, Some(id))) && !IsAt(b, AtShard(i, c), tag)
    ensures d == Next(b, Finish(i, c, Some(id)))
    ensures IsAt(d, AtShard(i, c), tag) <==> b.waiting[(i, c)].replies[id].tag == tag && Awaited(b, i, c)
  {
    d := Next(b, Finish(i, c, Some(id)));
    InstallSeats(b.nodes[i], c, b.waiting[(i, c)].replies[id].control.session.value);
  }

  lemma NotAlsoHere(n: Net, i: nat, c: ClientId, j: nat, tag: nat)
    requires Inv(n) && i != j && IsAt(n, AtShard(j, c), tag)
    ensures !IsAt(n, AtShard(i, c), tag) && tag < n.nextTag
  {
    assert OnePlace(n, tag);
  }

  lemma RunOfThree(n: Net, a: Net, b: Net, d: Net, events: seq<Event>)
    requires |events| == 3 && Enabled(n, events[0]) && a == Next(n, events[0])
    requires Enabled(a, events[1]) && b == Next(a, events[1]) && Enabled(b, events[2]) && d == Next(b, events[2])
    ensures IsRun(n, events) && Run(n, events) == d
  {
    assert events[1..] == [events[1], events[2]] && events[1..][1..] == [events[2]] && events[1..][1..][1..] == [];
    assert IsRun(d, []) && Run(d, []) == d;
    assert IsRun(b, [events[2]]) && Run(b, [events[2]]) == d;
    assert IsRun(a, [events[1], events[2]]) && Run(a, [events[1], events[2]]) == d;
  }

  /** A CONNECT opens a session where there was none. */
  lemma OpensFresh(s: Shard, c: ClientId) returns (t: Shard)
    ensures t == Step(s, c, Open(false), 0) && t.nextGeneration == s.nextGeneration + 1
    ensures Running(t, c) && t.sessions[c].generation == s.nextGeneration + 1
  {
    t := Step(s, c, Open(false), 0);
    StepIsLocal(s, c, Open(false), 0, c);
    assert SlotOf(t, c).session == Some(Fresh(s.nextGeneration + 1));
  }

  /** Two CONNECTs of one client on shard 0: the first claims and waits, the second takes over. */
  lemma ConnectsTwice(n: Net, c: ClientId) returns (b: Net)
    requires |n.nodes| == 2 && c !in n.nodes[0].sessions
    ensures var a := Next(n, Connect(0, c, false, 0)); |a.nodes| == 2 && b == Next(a, Connect(0, c, false, 0))
    ensures |b.nodes| == 2 && b.nodes[1] == n.nodes[1] && b.nextId == n.nextId + 2 && (0, c) in b.waiting
    ensures n.nextId + 1 in b.flight && b.flight[n.nextId + 1] == Packet(1, Claim(c, 0, true), 0)
    ensures !Awaited(b, 0, c) && Running(b.nodes[0], c) && (forall x | x != (0, c) && x in n.tags :: x in b.tags && b.tags[x] == n.tags[x])
  {
    var a := Next(n, Connect(0, c, false, 0));
    var s := OpensFresh(n.nodes[0], c);
    assert a.nodes[0] == s && a.waiting[(0, c)] == Wait(n.nodes[0].nextGeneration + 1, map[]);
    var t := OpensFresh(s, c);
    b := Next(a, Connect(0, c, false, 0));
    assert b.nodes[0] == t && b.waiting == a.waiting;
  }

  /** A client that connects again on the same shard while its claim is under way loses its session state:
      the reply finds the first CONNECT, which has been taken over, and the second has a new state. */
  lemma SecondConnectLosesState(n: Net, c: ClientId, tag: nat) returns (f: Net)
    requires Inv(n) && |n.nodes| == 2 && c !in n.nodes[0].sessions
    requires IsAt(n, AtShard(1, c), tag) && Idle(n.nodes[1], c)
    ensures var events := [Connect(0, c, false, 0), Connect(0, c, false, 0)] + ClaimAndReply(n.nextId + 1, 0, c);
            IsRun(n, events) && Run(n, events) == f
    ensures !Somewhere(f, tag) && |f.nodes| == 2 && c in f.nodes[0].sessions
  {
    var again := Connect(0, c, false, 0);
    var b := ConnectsTwice(n, c);
    TwoStepsKeep(n, again, again, b);
    f := LateReplyIsLost(b, n.nextId + 1, c, tag);
    RunAfterTwo(n, again, again, b, ClaimAndReply(n.nextId + 1, 0, c));
  }

  /** A claim under way with this id is answered, its reply arrives and is taken up. */
  function ClaimAndReply(id: nat, i: nat, c: ClientId): seq<Event> {
    [Arrive(id, 0), Arrive(id + 1, 0), Finish(i, c, Some(id + 1))]
  }

  lemma TwoStepsKeep(n: Net, e: Event, f: Event, b: Net)
    requires Inv(n) && Enabled(n, e) && Enabled(Next(n, e), f) && b == Next(Next(n, e), f)
    ensures Inv(b)
  {
    NextKeeps(n, e);
    NextKeeps(Next(n, e), f);
  }

  lemma RunAfterTwo(n: Net, e: Event, f: Event, b: Net, rest: seq<Event>)
    requires Enabled(n, e) && Enabled(Next(n, e), f) && b == Next(Next(n, e), f) && IsRun(b, rest)
    ensures IsRun(n, [e, f] + rest) && Run(n, [e, f] + rest) == Run(b, rest)
  {
    var events := [e, f] + rest;
    assert events[1..] == [f] + rest && events[1..][1..] == rest;
    assert IsRun(Next(n, e), events[1..]) && Run(Next(n, e), events[1..]) == Run(b, rest);
  }

  lemma LateReplyIsLost(b: Net, id: nat, c: ClientId, tag: nat) returns (f: Net)
    requires Inv(b) && |b.nodes| == 2 && (0, c) in b.waiting && !Awaited(b, 0, c) && Running(b.nodes[0], c)
    requires id in b.flight && b.flight[id] == Packet(1, Claim(c, 0, true), 0)
    requires IsAt(b, AtShard(1, c), tag) && Idle(b.nodes[1], c) && b.nextId == id + 1
    ensures IsRun(b, ClaimAndReply(id, 0, c)) && Run(b, ClaimAndReply(id, 0, c)) == f
    ensures !Somewhere(f, tag) && |f.nodes| == 2 && c in f.nodes[0].sessions
  {
    var events := ClaimAndReply(id, 0, c);
    var d := ClaimIsAnswered(b, id, 0, c, tag);
    var e := Next(d, events[1]);
    assert e.waiting[(0, c)] == Got(b.waiting[(0, c)], b.nextId, d.flight[b.nextId]);
    NextKeeps(b, events[0]);
    NextKeeps(d, events[1]);
    LostExactlyWhen(e, events[2], AtConnect(0, c, b.nextId), tag);
    f := Next(e, events[2]);
    InstallSeats(e.nodes[0], c, d.flight[b.nextId].control.session.value);
    RunOfThree(b, d, e, f, events);
  }

  /** Never copying is not the same as never losing: a client that connects on two shards at once makes
      each drop the other's live session, and ends with none. */
  lemma CrossedClaimsLoseBoth(n: Net, c: ClientId)
    requires |n.nodes| == 2 && n.flight == map[] && n.waiting == map[] && n.nextId == 0
    requires c !in n.nodes[0].sessions && c !in n.nodes[1].sessions
    ensures var events := [Connect(0, c, false, 0), Connect(1, c, false, 0), Arrive(1, 0), Arrive(2, 0)];
            && IsRun(n, events) && |Run(n, events).nodes| == 2
            && c !in Run(n, events).nodes[0].sessions && c !in Run(n, events).nodes[1].sessions
  {
    var b := BothConnect(n, c);
    var events := [Connect(0, c, false, 0), Connect(1, c, false, 0), Arrive(1, 0), Arrive(2, 0)];
    assert events[1..] == [Connect(1, c, false, 0), Arrive(1, 0), Arrive(2, 0)];
    assert events[1..][1..] == [Arrive(1, 0), Arrive(2, 0)];
    BothForget(b, c);
    var a := Next(n, Connect(0, c, false, 0));
    assert IsRun(a, events[1..]) && Run(a, events[1..]) == Run(b, events[1..][1..]);
  }

  lemma BothConnect(n: Net, c: ClientId) returns (b: Net)
    requires |n.nodes| == 2 && n.flight == map[] && n.waiting == map[] && n.nextId == 0
    requires c !in n.nodes[0].sessions && c !in n.nodes[1].sessions
    ensures b == Next(Next(n, Connect(0, c, false, 0)), Connect(1, c, false, 0))
    ensures |b.nodes| == 2 && 1 in b.flight && 2 in b.flight && b.nextId == 4
    ensures b.flight[1] == Packet(1, Claim(c, 0, true), 0) && b.flight[2] == Packet(0, Claim(c, 1, true), 0)
  {
    var a := Next(n, Connect(0, c, false, 0));
    b := Next(a, Connect(1, c, false, 0));
  }

  lemma BothForget(b: Net, c: ClientId)
    requires |b.nodes| == 2 && 1 in b.flight && 2 in b.flight && b.nextId != 2
    requires b.flight[1] == Packet(1, Claim(c, 0, true), 0) && b.flight[2] == Packet(0, Claim(c, 1, true), 0)
    ensures var events := [Arrive(1, 0), Arrive(2, 0)];
            && IsRun(b, events) && |Run(b, events).nodes| == 2
            && c !in Run(b, events).nodes[0].sessions && c !in Run(b, events).nodes[1].sessions
  {
    var d := Next(b, Arrive(1, 0));
    ClaimForgets(b.nodes[1], c, 0, true, 0, c);
    assert d.flight[2] == b.flight[2];
    var e := Next(d, Arrive(2, 0));
    ClaimForgets(d.nodes[0], c, 1, true, 0, c);
    var events := [Arrive(1, 0), Arrive(2, 0)];
    assert events[1..] == [Arrive(2, 0)] && events[1..][1..] == [];
    assert Run(e, []) == e;
    assert IsRun(d, [Arrive(2, 0)]) && Run(d, [Arrive(2, 0)]) == e;
  }

  // --- collecting the replies -------------------------------------------------------------------------

  /** Replies as the shard receives them, for whichever client. */
  function Handed(s: Shard, replies: seq<(ClientId, Option<MigratedSession>)>): Shard {
    if replies == [] then s
    else var n := |replies| - 1; OnHandoff(Handed(s, replies[..n]), replies[n].0, replies[n].1)
  }

  function RepliesFor(replies: seq<(ClientId, Option<MigratedSession>)>, c: ClientId): seq<Option<MigratedSession>> {
    if replies == [] then []
    else var n := |replies| - 1; RepliesFor(replies[..n], c) + if replies[n].0 == c then [replies[n].1] else []
  }

  /** A claim that waits gets every reply for its client, in order, and no other; one that does not wait gets
      none; and nothing else changes. */
  lemma {:induction false} RepliesReachClaim(s: Shard, replies: seq<(ClientId, Option<MigratedSession>)>, c: ClientId)
    ensures var t := Handed(s, replies);
            && t == s.(claims := t.claims)
            && (c in t.claims <==> c in s.claims)
            && (c in s.claims ==> t.claims[c] == s.claims[c] + RepliesFor(replies, c))
  {
    if replies != [] {
      var n := |replies| - 1;
      RepliesReachClaim(s, replies[..n], c);
      if c in s.claims && replies[n].0 == c {
        assert s.claims[c] + RepliesFor(replies[..n], c) + [replies[n].1] == s.claims[c] + RepliesFor(replies, c);
      }
    }
  }

  /** The waiting CONNECT: it takes replies until one brings a session, every peer has answered, or the wait
      is over. What it ends with is the first session among the replies it heard. */
  method FirstSession(replies: seq<Option<MigratedSession>>, peers: nat) returns (found: Option<MigratedSession>, heard: nat)
    ensures heard <= peers && heard <= |replies|
    ensures forall k | 0 <= k < heard - 1 :: replies[k].None?
    ensures found == if heard > 0 then replies[heard - 1] else None
    ensures found.None? ==> heard == peers || heard == |replies|
  {
    found, heard := None, 0;
    while heard < peers && heard < |replies| && found.None?
      invariant heard <= peers && heard <= |replies|
      invariant forall k | 0 <= k < heard - 1 :: replies[k].None?
      invariant found == if heard > 0 then replies[heard - 1] else None
    {
      found := replies[heard];
      heard := heard + 1;
    }
  }
}
