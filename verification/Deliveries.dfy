/** What becomes of the deliveries made to a session: a connected one has them in its mailbox, a parked
    one in its queue, a suspended one in its queue if they are above QoS 0. */
module Deliveries {
  import opened Types
  import opened ShardModel

  /** The deliveries that reach a session, one after the other. */
  function Gathered(v: Slot, c: ClientId, ds: seq<Delivery>): Slot
    decreases |ds|
  {
    if ds == [] then v else Gathered(ActDeliver(v, c, ds[0]).slot, c, ds[1..])
  }

  lemma {:induction false} GatheredAgain(v: Slot, c: ClientId, ds: seq<Delivery>, es: seq<Delivery>)
    ensures Gathered(Gathered(v, c, ds), c, es) == Gathered(v, c, ds + es)
    decreases |ds|
  {
    if ds == [] {
      assert [] + es == es;
    } else {
      assert (ds + es)[1..] == ds[1..] + es;
      GatheredAgain(ActDeliver(v, c, ds[0]).slot, c, ds[1..], es);
    }
  }

  lemma GatheredMore(v: Slot, c: ClientId, ds: seq<Delivery>, d: Delivery)
    ensures Gathered(v, c, ds + [d]) == ActDeliver(Gathered(v, c, ds), c, d).slot
  {
    GatheredAgain(v, c, ds, [d]);
  }

  /** The newest of all that came to a queue, as many as the limit allows, or as it had from the start. */
  function Newest(q: seq<Delivery>, ds: seq<Delivery>): seq<Delivery> {
    var all, room := q + ds, if |q| < OFFLINE_QUEUE_LIMIT then OFFLINE_QUEUE_LIMIT else |q|;
    if |all| <= room then all else all[|all| - room..]
  }

  /** The oldest of all that came to a mailbox, likewise. */
  function Oldest(m: seq<Delivery>, ds: seq<Delivery>): seq<Delivery> {
    var all, room := m + ds, if |m| < MAILBOX_LIMIT then MAILBOX_LIMIT else |m|;
    if |all| <= room then all else all[..room]
  }

  lemma NewestMore(q: seq<Delivery>, ds: seq<Delivery>)
    requires ds != []
    ensures Newest(PushBounded(q, ds[0]), ds[1..]) == Newest(q, ds)
  {
    var all := q + ds;
    if |q| < OFFLINE_QUEUE_LIMIT {
      assert PushBounded(q, ds[0]) + ds[1..] == all;
    } else {
      assert PushBounded(q, ds[0]) + ds[1..] == all[1..];
      assert all[1..][|all| - 1 - |q|..] == all[|all| - |q|..];
    }
  }

  lemma OldestMore(m: seq<Delivery>, ds: seq<Delivery>)
    requires ds != []
    ensures Oldest(if |m| < MAILBOX_LIMIT then m + [ds[0]] else m, ds[1..]) == Oldest(m, ds)
  {
    if |m| < MAILBOX_LIMIT {
      assert m + [ds[0]] + ds[1..] == m + ds;
    } else {
      assert (m + ds)[..|m|] == m == (m + ds[1..])[..|m|];
    }
  }

  /** A parked session gathers the newest deliveries, in order, and changes in nothing else. */
  lemma {:induction false} ParkedGathers(v: Slot, c: ClientId, ds: seq<Delivery>)
    requires v.session.Some? && v.session.value.parked && v.session.value.mailbox.None?
    ensures var x := v.session.value;
            var y := x.(offlineQueue := Newest(x.offlineQueue, ds), wakePending := x.wakePending || ds != []);
            Gathered(v, c, ds) == v.(session := Some(y))
    decreases |ds|
  {
    var x := v.session.value;
    if ds == [] {
      assert x.offlineQueue + [] == x.offlineQueue;
    } else {
      ParkedGathers(ActDeliver(v, c, ds[0]).slot, c, ds[1..]);
      NewestMore(x.offlineQueue, ds);
    }
  }

  /** A connected one has the oldest in its mailbox, in order, up to the limit. */
  lemma {:induction false} ConnectedGathers(v: Slot, c: ClientId, ds: seq<Delivery>)
    requires v.session.Some? && v.session.value.mailbox.Some?
    ensures var x := v.session.value;
            Gathered(v, c, ds) == v.(session := Some(x.(mailbox := Some(Oldest(x.mailbox.value, ds)))))
    decreases |ds|
  {
    var x := v.session.value;
    if ds == [] {
      assert x.mailbox.value + [] == x.mailbox.value;
    } else {
      ConnectedGathers(ActDeliver(v, c, ds[0]).slot, c, ds[1..]);
      OldestMore(x.mailbox.value, ds);
    }
  }

  /** A suspended one gathers the newest of those above QoS 0, in order, and has to be logged if there was
      one. */
  lemma {:induction false} SuspendedGathers(v: Slot, c: ClientId, ds: seq<Delivery>)
    requires v.session.Some? && !v.session.value.Online()
    ensures var x, above := v.session.value, OfClass(ds, false);
            var w := v.(session := Some(x.(offlineQueue := Newest(x.offlineQueue, above))));
            Gathered(v, c, ds) == if above == [] then v else w.(dirty := true, removed := false)
    ensures OfClass(ds, false) == [] ==> Newest(v.session.value.offlineQueue, []) == v.session.value.offlineQueue
    decreases |ds|
  {
    var x, above := v.session.value, OfClass(ds, false);
    assert x.offlineQueue + [] == x.offlineQueue;
    if ds != [] {
      SuspendedGathers(ActDeliver(v, c, ds[0]).slot, c, ds[1..]);
      if ds[0].qos != AtMostOnce {
        assert above[1..] == OfClass(ds[1..], false);
        NewestMore(x.offlineQueue, above);
      } else {
        assert above == OfClass(ds[1..], false);
      }
    }
  }

  /** Nobody else gets anything. */
  lemma {:induction false} NobodyGathers(v: Slot, c: ClientId, ds: seq<Delivery>)
    requires v.session.None?
    ensures Gathered(v, c, ds) == v
    decreases |ds|
  {
    if ds != [] { NobodyGathers(v, c, ds[1..]); }
  }

  // --- a mailbox in use ---------------------------------------------------------------------------

  /** A delivery is made, or the connection takes the next one. */
  datatype Use = Put(d: Delivery) | Take

  function OpOf(u: Use): Op {
    match u
    case Put(d) => Deliver(d)
    case Take => Receive
  }

  ghost function Used(v: Slot, c: ClientId, uses: seq<Use>): Slot
    decreases |uses|
  {
    if uses == [] then v else Used(Act(v, c, 0, OpOf(uses[0]), 0).slot, c, uses[1..])
  }

  function Mail(v: Slot): seq<Delivery> {
    if v.session.Some? && v.session.value.mailbox.Some? then v.session.value.mailbox.value else []
  }

  /** What the connection takes, in order. */
  ghost function Taken(v: Slot, c: ClientId, uses: seq<Use>): seq<Delivery>
    decreases |uses|
  {
    if uses == [] then []
    else (if uses[0].Take? && Mail(v) != [] then [Mail(v)[0]] else []) + Taken(Act(v, c, 0, OpOf(uses[0]), 0).slot, c, uses[1..])
  }

  /** The deliveries that find fewer than the limit before them, by the count of what was put and taken:
      `n` wait in the mailbox at the start. */
  function Admitted(n: nat, uses: seq<Use>): seq<Delivery>
    decreases |uses|
  {
    if uses == [] then []
    else
      match uses[0]
      case Put(d) => if n < MAILBOX_LIMIT then [d] + Admitted(n + 1, uses[1..]) else Admitted(n, uses[1..])
      case Take => Admitted(if n == 0 then 0 else n - 1, uses[1..])
  }

  lemma UseChanges(v: Slot, c: ClientId, u: Use)
    requires v.session.Some? && v.session.value.mailbox.Some?
    ensures var w, m := Act(v, c, 0, OpOf(u), 0).slot, Mail(v);
            && w.session.Some? && w.session.value.mailbox.Some?
            && (u.Take? && m != [] ==> m == [m[0]] + Mail(w))
            && (u.Put? && |m| < MAILBOX_LIMIT ==> Mail(w) == m + [u.d])
            && ((if u.Take? then m == [] else |m| >= MAILBOX_LIMIT) ==> Mail(w) == m)
  {
  }

  /** What waited, one taken from the front or one put at the end, and then the rest of the run. */
  lemma OneMore(m: seq<Delivery>, n: seq<Delivery>, first: seq<Delivery>, last: seq<Delivery>,
                rest: seq<Delivery>, end: seq<Delivery>, more: seq<Delivery>)
    requires rest + end == n + more && first + n == m + last
    ensures first + rest + end == m + (last + more)
  {
    calc {
      first + rest + end;
      first + (rest + end);
      first + (n + more);
      first + n + more;
      m + last + more;
      m + (last + more);
    }
  }

  /** First in, first out: what was taken and what still waits is, in order, what waited at the start and
      what was admitted since. */
  lemma {:induction false} MailboxIsFifo(v: Slot, c: ClientId, uses: seq<Use>)
    requires v.session.Some? && v.session.value.mailbox.Some?
    ensures Taken(v, c, uses) + Mail(Used(v, c, uses)) == Mail(v) + Admitted(|Mail(v)|, uses)
    decreases |uses|
  {
    if uses != [] {
      UseChanges(v, c, uses[0]);
      var w := Act(v, c, 0, OpOf(uses[0]), 0).slot;
      MailboxIsFifo(w, c, uses[1..]);
      var first := if uses[0].Take? && Mail(v) != [] then [Mail(v)[0]] else [];
      var last := if uses[0].Put? && |Mail(v)| < MAILBOX_LIMIT then [uses[0].d] else [];
      var more := Admitted(|Mail(w)|, uses[1..]);
      assert first + Mail(w) == Mail(v) + last;
      assert Admitted(|Mail(v)|, uses) == last + more;
      OneMore(Mail(v), Mail(w), first, last, Taken(w, c, uses[1..]), Mail(Used(w, c, uses[1..])), more);
    }
  }
}
