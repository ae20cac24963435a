/** Packet identifiers: the next unused one, found by counting round 1..65535. */
module PacketIds {
  import opened Types

  /** The identifier `k` places after `n`, skipping 0. */
  function After(n: u16, k: nat): (id: u16)
    requires 1 <= k <= 65535
    ensures id != 0
  {
    if n + k <= 65535 then n + k else n + k - 65535
  }

  lemma AfterReaches(n: u16, id: u16) returns (k: nat)
    requires id != 0
    ensures 1 <= k <= 65535 && After(n, k) == id
  {
    k := if n < id then id - n else id - n + 65535;
  }

  /** The first unused identifier from the `k`th place on. */
  function FreeFrom(used: set<u16>, n: u16, k: nat): u16
    requires 1 <= k <= 65536
    decreases 65536 - k
  {
    if k == 65536 then 0
    else if After(n, k) !in used then After(n, k)
    else FreeFrom(used, n, k + 1)
  }

  function FirstFree(used: set<u16>, n: u16): u16 {
    FreeFrom(used, n, 1)
  }

  ghost function Ids(n: nat): (ids: set<u16>)
    requires n <= 65535
    ensures |ids| == n && forall x: u16 :: x in ids <==> 1 <= x <= n
  {
    if n == 0 then {} else Ids(n - 1) + {n}
  }

  lemma Subset<T>(a: set<T>, b: set<T>)
    requires a <= b
    ensures |a| <= |b|
  {
    assert b == a + (b - a);
  }

  /** With fewer than 65535 identifiers in use, one is free: not all of them can be used. */
  lemma SomeFree(used: set<u16>) returns (id: u16)
    requires |used| < 65535
    ensures id != 0 && id !in used
  {
    var all := Ids(65535);
    if all <= used { Subset(all, used); }
    id :| id in all && id !in used;
  }

  lemma {:induction false} FreeFromIsFree(used: set<u16>, n: u16, k: nat, last: nat) returns (j: nat)
    requires 1 <= k <= last <= 65535 && After(n, last) !in used
    ensures k <= j <= last && FreeFrom(used, n, k) == After(n, j) && After(n, j) !in used
    decreases last - k
  {
    if k < last && After(n, k) in used { j := FreeFromIsFree(used, n, k + 1, last); } else { j := k; }
  }

  /** The allocator always finds an unused non-zero identifier. */
  lemma FirstFreeIsFree(used: set<u16>, n: u16)
    requires |used| < 65535
    ensures FirstFree(used, n) != 0 && FirstFree(used, n) !in used
  {
    var id := SomeFree(used);
    var last := AfterReaches(n, id);
    var k := FreeFromIsFree(used, n, 1, last);
  }

  /** The cursor itself comes last: it is found only if no other is free. */
  lemma CursorComesLast(used: set<u16>, n: u16)
    requires |used| < 65534
    ensures FirstFree(used, n) != n && FirstFree(used, n) !in used
  {
    var id := SomeFree(used + {n});
    var last := AfterReaches(n, id);
    var k := FreeFromIsFree(used, n, 1, last);
  }

  /** Advances the cursor to the next unused identifier. */
  method AllocPkid(used: set<u16>, cursor: u16) returns (id: u16)
    requires |used| < 65535
    ensures id == FirstFree(used, cursor)
    ensures id != 0 && id !in used
  {
    FirstFreeIsFree(used, cursor);
    ghost var k := 0;
    id := cursor;
    while true
      invariant 0 <= k <= 65535 && id == (if k == 0 then cursor else After(cursor, k))
      invariant k < 65535 ==> FreeFrom(used, cursor, k + 1) == FirstFree(used, cursor)
      invariant k == 65535 ==> FirstFree(used, cursor) == 0
      decreases 65535 - k
    {
      id := if id == 65535 then 1 else id + 1;
      k := k + 1;
      if id !in used { return; }
    }
  }
}
