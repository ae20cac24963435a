/** The parked-connection registry: a slab of slots with generation tags, a free list and
    an index by client id. */
module Registry {
  import opened Types

  /** What is kept of a parked connection. */
  datatype ParkedConn = ParkedConn(fd: nat, client: ClientId, generation: nat, deadline: Option<nat>, expiry: u32)

  const TAGS: nat := 0x1_0000_0000
  /** The token of a poll cancellation's own completion. */
  const CANCEL_TOKEN: nat := 0xFFFF_FFFF_FFFF_FFFF

  datatype Reg = Reg(slots: seq<Option<ParkedConn>>, tags: seq<nat>, free: seq<nat>, byClient: map<ClientId, nat>)

  /** A counter as 32 bits hold it. */
  function Wrapped(n: nat): nat {
    n % 0x1_0000_0000
  }

  const EMPTY := Reg([], [], [], map[])

  // --- operations ------------------------------------------------------------------

  function Token(index: nat, tag: nat): nat {
    index * TAGS + tag
  }

  function ParkIn(r: Reg, conn: ParkedConn): Reg {
    if r.free == [] then
      Reg(r.slots + [Some(conn)], r.tags + [0], [], r.byClient[conn.client := |r.slots|])
    else
      var index := r.free[|r.free| - 1];
      if index < |r.slots| then
        r.(slots := r.slots[index := Some(conn)], free := r.free[..|r.free| - 1], byClient := r.byClient[conn.client := index])
      else r
  }

  function RemoveAt(r: Reg, index: nat): (Reg, Option<ParkedConn>) {
    if index < |r.slots| && index < |r.tags| && r.slots[index].Some? then
      var entry := r.slots[index].value;
      (Reg(r.slots[index := None], r.tags[index := Wrapped(r.tags[index] + 1)], r.free + [index],
           r.byClient - {entry.client}), Some(entry))
    else (r, None)
  }

  function TakeByClient(r: Reg, c: ClientId, generation: Option<nat>): (Reg, Option<ParkedConn>) {
    if c !in r.byClient then (r, None)
    else
      var index := r.byClient[c];
      if generation.Some?
         && !(index < |r.slots| && r.slots[index].Some? && r.slots[index].value.generation == generation.value)
      then (r, None)
      else RemoveAt(r, index)
  }

  function TakeByToken(r: Reg, userData: nat): (Reg, Option<ParkedConn>) {
    var index := userData / TAGS;
    if userData != CANCEL_TOKEN && index < |r.tags| && r.tags[index] == userData % TAGS then RemoveAt(r, index)
    else (r, None)
  }

  // --- integrity -------------------------------------------------------------------

  ghost predicate NoRepeats(xs: seq<nat>) {
    forall i, j | 0 <= i < j < |xs| :: xs[i] != xs[j]
  }

  predicate Occupied(r: Reg, i: nat) {
    i < |r.slots| && r.slots[i].Some?
  }

  /** The free list is the empty slots, each once, and the index is a bijection between
      parked clients and occupied slots. */
  ghost predicate Valid(r: Reg) {
    && |r.tags| == |r.slots|
    && (forall i | 0 <= i < |r.tags| :: r.tags[i] < 0x1_0000_0000)
    && NoRepeats(r.free)
    && (forall i: nat :: i in r.free <==> i < |r.slots| && r.slots[i].None?)
    && (forall c | c in r.byClient :: Occupied(r, r.byClient[c]) && r.slots[r.byClient[c]].value.client == c)
    && (forall i: nat | Occupied(r, i) :: r.slots[i].value.client in r.byClient && r.byClient[r.slots[i].value.client] == i)
  }

  /** What keeps every lookup in range, sound or not. */
  ghost predicate Safe(r: Reg) {
    && |r.tags| == |r.slots|
    && (forall k | 0 <= k < |r.free| :: r.free[k] < |r.slots|)
    && (forall c | c in r.byClient :: r.byClient[c] < |r.slots|)
  }

  /** Parking keeps the registry sound exactly when the client has no entry yet. */
  lemma ParkKeepsValid(r: Reg, conn: ParkedConn)
    requires Valid(r)
    ensures Valid(ParkIn(r, conn)) <==> conn.client !in r.byClient
  {
    var r' := ParkIn(r, conn);
    if r.free != [] {
      var index := r.free[|r.free| - 1];
      assert index in r.free;
      forall i: nat ensures i in r'.free <==> i in r.free && i != index {
        if i in r.free && i != index {
          var k :| 0 <= k < |r.free| && r.free[k] == i;
          assert r'.free[k] == i;
        }
      }
    }
    if conn.client in r.byClient {
      var earlier := r.byClient[conn.client];
      assert Occupied(r', earlier) && r'.slots[earlier].value.client == conn.client && r'.byClient[conn.client] != earlier;
    } else {
      var index := r'.byClient[conn.client];
      assert Occupied(r', index) && r'.slots[index] == Some(conn);
      forall i: nat | Occupied(r', i)
        ensures r'.slots[i].value.client in r'.byClient && r'.byClient[r'.slots[i].value.client] == i
      {
        if i != index { assert Occupied(r, i); }
      }
    }
  }

  /** Removal frees an occupied slot, moves its tag on and touches no other slot. */
  lemma RemoveFrees(r: Reg, index: nat)
    requires |r.tags| == |r.slots|
    ensures var r' := RemoveAt(r, index).0;
            && |r'.slots| == |r'.tags| == |r.slots|
            && (Occupied(r, index) ==> !Occupied(r', index) && r'.free == r.free + [index]
                                       && r'.tags[index] == Wrapped(r.tags[index] + 1))
            && (forall i: nat | i < |r.slots| && i != index :: r'.slots[i] == r.slots[i] && r'.tags[i] == r.tags[i])
            && (!Occupied(r, index) ==> r' == r)
  {
  }

  lemma RemoveKeepsValid(r: Reg, index: nat)
    requires Valid(r)
    ensures Valid(RemoveAt(r, index).0)
  {
    if Occupied(r, index) {
      var r' := RemoveAt(r, index).0;
      assert index !in r.free;
      forall i: nat ensures i in r'.free <==> i in r.free || i == index {
        assert r'.free[|r.free|] == index;
        if i in r.free { var k :| 0 <= k < |r.free| && r.free[k] == i; assert r'.free[k] == i; }
      }
      forall i: nat | Occupied(r', i)
        ensures r'.slots[i].value.client in r'.byClient && r'.byClient[r'.slots[i].value.client] == i
      {
        assert Occupied(r, i) && Occupied(r, index);
      }
    }
  }

  // --- the registry as a map from clients to generations -----------------------------

  /** The generation each parked client parked under. */
  ghost function Entries(r: Reg): map<ClientId, nat> {
    map c | c in r.byClient && Occupied(r, r.byClient[c]) :: r.slots[r.byClient[c]].value.generation
  }

  lemma ParkEntries(r: Reg, conn: ParkedConn)
    requires Valid(r) && conn.client !in r.byClient
    ensures Valid(ParkIn(r, conn)) && Entries(ParkIn(r, conn)) == Entries(r)[conn.client := conn.generation]
    ensures conn.client !in Entries(r)
  {
    ParkKeepsValid(r, conn);
    var r' := ParkIn(r, conn);
    if r.free != [] { assert r.free[|r.free| - 1] in r.free; }
    forall c | c in r.byClient ensures c in Entries(r') && Entries(r')[c] == Entries(r)[c] {
      assert Occupied(r, r.byClient[c]);
    }
  }

  /** Removing a slot removes its entry and no other. */
  lemma RemoveEntries(r: Reg, index: nat)
    requires Valid(r)
    ensures var (r', taken) := RemoveAt(r, index);
            && Valid(r')
            && (taken.None? <==> !Occupied(r, index))
            && (taken.None? ==> r' == r)
            && (taken.Some? ==> taken.value.client in Entries(r) && Entries(r)[taken.value.client] == taken.value.generation
                                && Entries(r') == Entries(r) - {taken.value.client})
  {
    RemoveKeepsValid(r, index);
    var (r', taken) := RemoveAt(r, index);
    if taken.Some? {
      assert Occupied(r, index);
      forall c | c in r.byClient && c != taken.value.client
        ensures c in Entries(r') && Entries(r')[c] == Entries(r)[c]
      {
        assert Occupied(r, r.byClient[c]);
      }
    }
  }

  /** An egress wake takes the client's entry if there is one; a guarded close takes it only
      under the generation it names. */
  lemma TakeByClientEntries(r: Reg, c: ClientId, generation: Option<nat>)
    requires Valid(r)
    ensures var (r', taken) := TakeByClient(r, c, generation);
            && Valid(r')
            && (taken.Some? <==> c in Entries(r) && (generation.Some? ==> Entries(r)[c] == generation.value))
            && (taken.None? ==> r' == r)
            && (taken.Some? ==> taken.value.client == c && taken.value.generation == Entries(r)[c]
                                && Entries(r') == Entries(r) - {c})
  {
    if c in r.byClient {
      assert Occupied(r, r.byClient[c]);
      RemoveEntries(r, r.byClient[c]);
    }
  }

  lemma TokenParts(index: nat, tag: nat)
    requires tag < TAGS
    ensures Token(index, tag) / TAGS == index && Token(index, tag) % TAGS == tag
  {
  }

  /** The slot a token names, if the token is current for it. */
  predicate Names(r: Reg, userData: nat, index: nat) {
    userData != CANCEL_TOKEN && index < |r.tags| && userData == Token(index, r.tags[index])
  }

  /** A token takes an entry exactly if it is the current token of an occupied slot, and then that slot's. */
  lemma TakeByTokenEntries(r: Reg, userData: nat)
    requires Valid(r)
    ensures var (r', taken) := TakeByToken(r, userData);
            && Valid(r')
            && (taken.Some? <==> exists i: nat :: Names(r, userData, i) && Occupied(r, i))
            && (forall i: nat | Names(r, userData, i) && i < |r.slots| :: taken == r.slots[i])
            && (taken.None? ==> r' == r)
            && (taken.Some? ==> taken.value.client in Entries(r) && Entries(r)[taken.value.client] == taken.value.generation
                                && Entries(r') == Entries(r) - {taken.value.client})
  {
    var index := userData / TAGS;
    RemoveEntries(r, index);
    forall i: nat | Names(r, userData, i) ensures i == index && r.tags[i] == userData % TAGS { TokenParts(i, r.tags[i]); }
    if index < |r.tags| && r.tags[index] == userData % TAGS { assert userData == Token(index, r.tags[index]); }
    if TakeByToken(r, userData).1.Some? { assert Names(r, userData, index) && Occupied(r, index); }
  }

  // --- tokens over whole runs ----------------------------------------------------------

  datatype RegOp = Add(conn: ParkedConn) | ByClient(c: ClientId, generation: Option<nat>) | ByToken(userData: nat) | At(index: nat)

  function ApplyReg(r: Reg, op: RegOp): Reg {
    match op
    case Add(conn) => ParkIn(r, conn)
    case ByClient(c, generation) => TakeByClient(r, c, generation).0
    case ByToken(userData) => TakeByToken(r, userData).0
    case At(index) => RemoveAt(r, index).0
  }

  /** One step of the registry; no client is parked while it is still parked. */
  ghost predicate Next(r: Reg, r': Reg) {
    exists op: RegOp :: (op.Add? ==> op.conn.client !in r.byClient) && r' == ApplyReg(r, op)
  }

  /** The states of a run, one after the other. */
  ghost predicate IsRun(run: seq<Reg>) {
    |run| >= 1 && Valid(run[0]) && forall k | 0 <= k < |run| - 1 :: StepsAt(run, k)
  }

  ghost predicate StepsAt(run: seq<Reg>, k: nat) {
    k + 1 < |run| && Next(run[k], run[k + 1])
  }

  /** 1 if a step empties the slot, else 0. */
  function Emptied(r: Reg, r': Reg, i: nat): nat {
    if Occupied(r, i) && !Occupied(r', i) then 1 else 0
  }

  /** How often a slot is emptied in the first `n` steps of a run. */
  function Removals(run: seq<Reg>, n: nat, i: nat): nat
    requires n < |run|
  {
    if n == 0 then 0 else Removals(run, n - 1, i) + Emptied(run[n - 1], run[n], i)
  }

  lemma RemoveTag(r: Reg, index: nat, i: nat)
    requires Valid(r) && i < |r.slots|
    ensures var r' := RemoveAt(r, index).0;
            Valid(r') && i < |r'.slots| && r'.tags[i] == Wrapped(r.tags[i] + Emptied(r, r', i))
  {
    RemoveKeepsValid(r, index);
  }

  lemma ParkTag(r: Reg, conn: ParkedConn, i: nat)
    requires Valid(r) && i < |r.slots| && conn.client !in r.byClient
    ensures var r' := ParkIn(r, conn);
            Valid(r') && i < |r'.slots| && r'.tags[i] == r.tags[i] && (Occupied(r, i) ==> Occupied(r', i))
  {
    ParkKeepsValid(r, conn);
  }

  /** Whatever is not an addition removes one slot's entry, or nothing. */
  lemma OpRemoves(r: Reg, op: RegOp) returns (index: nat)
    requires !op.Add?
    ensures ApplyReg(r, op) == r || ApplyReg(r, op) == RemoveAt(r, index).0
  {
    index := if op.ByClient? then (if op.c in r.byClient then r.byClient[op.c] else 0)
             else if op.ByToken? then op.userData / TAGS else op.index;
  }

  lemma NextTag(r: Reg, r': Reg, i: nat)
    requires Valid(r) && i < |r.slots| && Next(r, r')
    ensures Valid(r') && i < |r'.slots| && r'.tags[i] == Wrapped(r.tags[i] + Emptied(r, r', i))
  {
    var op: RegOp :| (op.Add? ==> op.conn.client !in r.byClient) && r' == ApplyReg(r, op);
    if op.Add? { ParkTag(r, op.conn, i); } else { TakeTag(r, op, i); }
  }

  lemma TakeTag(r: Reg, op: RegOp, i: nat)
    requires Valid(r) && i < |r.slots| && !op.Add?
    ensures var r' := ApplyReg(r, op); Valid(r') && i < |r'.slots| && r'.tags[i] == Wrapped(r.tags[i] + Emptied(r, r', i))
  {
    var index := OpRemoves(r, op);
    RemoveTag(r, index, i);
  }

  lemma WrappedSum(t: nat, d: nat, n: nat)
    ensures Wrapped(Wrapped(t + d) + n) == Wrapped(t + d + n)
  {
    var q := (t + d) / 0x1_0000_0000;
    assert t + d == q * 0x1_0000_0000 + Wrapped(t + d);
    assert t + d + n == q * 0x1_0000_0000 + (Wrapped(t + d) + n);
    WrappedShift(Wrapped(t + d) + n, q);
  }

  lemma WrappedShift(x: nat, q: nat)
    ensures Wrapped(q * 0x1_0000_0000 + x) == Wrapped(x)
  {
    var k := x / 0x1_0000_0000;
    assert x == k * 0x1_0000_0000 + Wrapped(x);
    assert q * 0x1_0000_0000 + x == (q + k) * 0x1_0000_0000 + Wrapped(x);
  }

  lemma {:induction false} RunTag(run: seq<Reg>, n: nat, i: nat)
    requires IsRun(run) && n < |run| && i < |run[0].slots|
    ensures Valid(run[n]) && i < |run[n].slots| && run[n].tags[i] == Wrapped(run[0].tags[i] + Removals(run, n, i))
  {
    if n > 0 {
      RunTag(run, n - 1, i);
      assert StepsAt(run, n - 1);
      NextTag(run[n - 1], run[n], i);
      WrappedSum(run[0].tags[i], Removals(run, n - 1, i), Emptied(run[n - 1], run[n], i));
    }
  }

  /** A completion token armed for an occupancy of a slot resolves, at the end of any run, exactly
      when the slot is occupied and has been emptied a multiple of 2^32 times in between: fewer
      removals than that and a stale completion never takes the current connection. */
  lemma TokenResolves(run: seq<Reg>, i: nat)
    requires IsRun(run) && i < |run[0].slots| && i < TAGS - 1
    ensures var last := run[|run| - 1];
            var n := Removals(run, |run| - 1, i);
            TakeByToken(last, Token(i, run[0].tags[i])).1.Some? <==> Occupied(last, i) && Wrapped(n) == 0
  {
    RunTag(run, |run| - 1, i);
    TokenParts(i, run[0].tags[i]);
    var t, n := run[0].tags[i], Removals(run, |run| - 1, i);
    WrappedSum(n, 0, t);
    assert Wrapped(n + t) == t <==> Wrapped(n) == 0;
    assert Token(i, t) != CANCEL_TOKEN;
  }

  // --- deadlines -----------------------------------------------------------------------

  predicate Overdue(slot: Option<ParkedConn>, now: nat) {
    slot.Some? && slot.value.deadline.Some? && slot.value.deadline.value <= now
  }

  /** The connections past their deadline, slot by slot, each once. */
  function AllOverdue(slots: seq<Option<ParkedConn>>, now: nat): seq<ParkedConn> {
    if slots == [] then []
    else
      var last := slots[|slots| - 1];
      AllOverdue(slots[..|slots| - 1], now) + (if Overdue(last, now) then [last.value] else [])
  }

  /** The sweep over the first `n` slots: what is left, and what it took. */
  function SweepTo(r: Reg, n: nat, now: nat): (Reg, seq<ParkedConn>) {
    if n == 0 then (r, [])
    else
      var (s, taken) := SweepTo(r, n - 1, now);
      if n <= |r.slots| && Overdue(r.slots[n - 1], now)
      then (RemoveAt(s, n - 1).0, taken + [r.slots[n - 1].value]) else (s, taken)
  }

  /** A sweep takes every overdue connection in slot order, once, and empties exactly those slots. */
  lemma {:induction false} SweepTakesOverdue(r: Reg, n: nat, now: nat)
    requires |r.tags| == |r.slots| && n <= |r.slots|
    ensures var (s, taken) := SweepTo(r, n, now);
            && taken == AllOverdue(r.slots[..n], now)
            && |s.slots| == |s.tags| == |r.slots|
            && (forall i: nat | i < |r.slots| :: s.slots[i] == if i < n && Overdue(r.slots[i], now) then None else r.slots[i])
  {
    if n > 0 {
      SweepTakesOverdue(r, n - 1, now);
      OverdueMore(r.slots[..n - 1], r.slots[n - 1], now);
      assert r.slots[..n] == r.slots[..n - 1] + [r.slots[n - 1]];
      RemoveFrees(SweepTo(r, n - 1, now).0, n - 1);
    }
  }

  /** A parked connection goes exactly if its keep-alive deadline has come. */
  lemma SweepEmpties(r: Reg, now: nat, i: nat)
    requires |r.tags| == |r.slots| && i < |r.slots| && r.slots[i].Some?
    ensures i < |SweepTo(r, |r.slots|, now).0.slots|
    ensures SweepTo(r, |r.slots|, now).0.slots[i].None? <==> r.slots[i].value.deadline.Some? && r.slots[i].value.deadline.value <= now
  {
    SweepTakesOverdue(r, |r.slots|, now);
  }

  lemma {:induction false} SweepKeepsValid(r: Reg, n: nat, now: nat)
    requires Valid(r)
    ensures Valid(SweepTo(r, n, now).0)
  {
    if n > 0 {
      SweepKeepsValid(r, n - 1, now);
      RemoveKeepsValid(SweepTo(r, n - 1, now).0, n - 1);
    }
  }

  lemma RemoveSafe(r: Reg, index: nat)
    requires Safe(r)
    ensures Safe(RemoveAt(r, index).0)
  {
  }

  lemma ParkSafe(r: Reg, conn: ParkedConn)
    requires Safe(r)
    ensures Safe(ParkIn(r, conn))
  {
  }

  lemma OverdueMore(slots: seq<Option<ParkedConn>>, slot: Option<ParkedConn>, now: nat)
    ensures AllOverdue(slots + [slot], now) == AllOverdue(slots, now) + (if Overdue(slot, now) then [slot.value] else [])
  {
    assert (slots + [slot])[..|slots|] == slots;
  }

  // --- the registry object ----------------------------------------------------------------

  class Parking {
    var slots: seq<Option<ParkedConn>>
    var genTags: seq<nat>
    var free: seq<nat>
    var byClient: map<ClientId, nat>

    function View(): Reg
      reads this
    {
      Reg(slots, genTags, free, byClient)
    }

    constructor ()
      ensures View() == EMPTY && Valid(View()) && Safe(View())
    {
      slots, genTags, free, byClient := [], [], [], map[];
    }

    /** Registers a connection, whether or not the client has an entry: see `ParkKeepsValid`. */
    method Park(conn: ParkedConn)
      requires Safe(View())
      modifies this
      ensures View() == ParkIn(old(View()), conn) && Safe(View())
    {
      ParkSafe(View(), conn);
      var index;
      if free != [] {
        index := free[|free| - 1];
        free := free[..|free| - 1];
      } else {
        slots := slots + [None];
        genTags := genTags + [0];
        index := |slots| - 1;
      }
      byClient := byClient[conn.client := index];
      slots := slots[index := Some(conn)];
    }

    method RemoveWithoutCancel(index: nat) returns (taken: Option<ParkedConn>)
      requires Safe(View())
      modifies this
      ensures (View(), taken) == RemoveAt(old(View()), index) && Safe(View())
      ensures taken == if index < |old(slots)| then old(slots)[index] else None
    {
      RemoveSafe(View(), index);
      if index >= |slots| || slots[index].None? {
        return None;
      }
      taken := slots[index];
      slots := slots[index := None];
      genTags := genTags[index := Wrapped(genTags[index] + 1)];
      free := free + [index];
      byClient := byClient - {taken.value.client};
    }

    method TakeClient(c: ClientId, generation: Option<nat>) returns (taken: Option<ParkedConn>)
      requires Safe(View())
      modifies this
      ensures (View(), taken) == TakeByClient(old(View()), c, generation) && Safe(View())
    {
      if c !in byClient { return None; }
      var index := byClient[c];
      if generation.Some? && (slots[index].None? || slots[index].value.generation != generation.value) { return None; }
      taken := RemoveWithoutCancel(index);
    }

    method TakeToken(userData: nat) returns (taken: Option<ParkedConn>)
      requires Safe(View())
      modifies this
      ensures (View(), taken) == TakeByToken(old(View()), userData) && Safe(View())
    {
      if userData == CANCEL_TOKEN { return None; }
      var index, tag := userData / TAGS, userData % TAGS;
      if index >= |genTags| || genTags[index] != tag { return None; }
      taken := RemoveWithoutCancel(index);
    }

    /** Takes every connection past its keep-alive deadline, in slot order, and nothing else. */
    method TakeExpired(now: nat) returns (taken: seq<ParkedConn>)
      requires Safe(View())
      modifies this
      ensures (View(), taken) == SweepTo(old(View()), |old(slots)|, now) && Safe(View())
      ensures taken == AllOverdue(old(slots), now)
    {
      ghost var r := View();
      taken := [];
      var n := |slots|;
      for i := 0 to n
        invariant Safe(View()) && (View(), taken) == SweepTo(r, i, now)
      {
        SweepTakesOverdue(r, i, now);
        if Overdue(slots[i], now) {
          var conn := RemoveWithoutCancel(i);
          taken := taken + [conn.value];
        }
      }
      SweepTakesOverdue(r, n, now);
      assert r.slots[..n] == r.slots;
    }
  }
}
