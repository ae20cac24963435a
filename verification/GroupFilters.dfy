/** Shared groups whose members filter differently. A shard's view of a group is by name alone, so
    the hash can fall on a member elsewhere that the message does not match. */
module GroupFilters {
  import opened Types
  import opened SharedPick
  import Order

  /** `ms[i]` are the connected members on shard `i`, whatever their filters; every shard's view is what
      the others hold by name, and no client is on two shards. */
  ghost predicate ByName(ls: seq<Local>, ms: seq<set<ClientId>>) {
    && |ms| == |ls|
    && (forall i | 0 <= i < |ls| :: ls[i].online <= ls[i].ids && ls[i].online <= ms[i])
    && (forall i, j | 0 <= i < |ls| && 0 <= j < |ls| && i != j :: Disjoint(ms, i, j))
    && (forall i | 0 <= i < |ls| :: SeesNames(ls, ms, i))
  }

  predicate Disjoint(ms: seq<set<ClientId>>, i: nat, j: nat)
    requires i < |ms| && j < |ms|
  {
    ms[i] !! ms[j]
  }

  ghost predicate SeesNames(ls: seq<Local>, ms: seq<set<ClientId>>, i: nat)
    requires i < |ls|
  {
    forall c :: c in ls[i].remote <==> NamedElsewhere(ms, i, c)
  }

  ghost predicate NamedElsewhere(ms: seq<set<ClientId>>, i: nat, c: ClientId) {
    exists j :: 0 <= j < |ms| && j != i && c in ms[j]
  }

  /** Shard `j` has a connected member the message does not match. */
  predicate Mismatched(ls: seq<Local>, ms: seq<set<ClientId>>, j: nat)
    requires j < |ls| == |ms|
  {
    ms[j] != ls[j].online
  }

  /** Shard `i` has a connected member that matches and sees one elsewhere that does not. */
  ghost predicate SeesMismatch(ls: seq<Local>, ms: seq<set<ClientId>>, i: nat)
    requires i < |ls| == |ms|
  {
    ls[i].online != {} && exists j :: 0 <= j < |ls| && j != i && Mismatched(ls, ms, j)
  }

  // --- the members elsewhere match ------------------------------------------------------------

  lemma AllMatching(ls: seq<Local>, ms: seq<set<ClientId>>, i: nat, k: nat)
    requires ByName(ls, ms) && i < |ls| && k < |ls| && i != k && ls[i].online != {} && ls[k].online != {}
    requires !SeesMismatch(ls, ms, i) && !SeesMismatch(ls, ms, k)
    ensures Synchronised(ls)
  {
    forall j | 0 <= j < |ls| ensures ms[j] == ls[j].online { assert !Mismatched(ls, ms, j); }
    forall a, b | 0 <= a < |ls| && 0 <= b < |ls| && a != b ensures Apart(ls, a, b) { assert Disjoint(ms, a, b); }
    forall a | 0 <= a < |ls| ensures SeesOthers(ls, a) {
      assert SeesNames(ls, ms, a);
      forall c ensures NamedElsewhere(ms, a, c) <==> Elsewhere(ls, a, c) {}
    }
  }

  /** A shard that holds the only connected matching members sees nobody elsewhere. */
  lemma OnlyMatching(ls: seq<Local>, ms: seq<set<ClientId>>, hash: nat, i: nat)
    requires ByName(ls, ms) && i < |ls| && ls[i].online != {} && !SeesMismatch(ls, ms, i)
    requires forall k | 0 <= k < |ls| && k != i :: ls[k].online == {}
    ensures OnlyPicker(ls, hash, i)
  {
    forall k | 0 <= k < |ls| && k != i ensures ms[k] == {} { assert !Mismatched(ls, ms, k); }
    assert SeesNames(ls, ms, i);
    assert forall c :: !NamedElsewhere(ms, i, c);
    assert ls[i].remote == {};
    var c :| c in ls[i].online;
    forall j | 0 <= j < |ls| && j != i ensures Pick(ls[j], hash).None? {
      assert SeesNames(ls, ms, j) && c in ms[i];
      assert NamedElsewhere(ms, j, c);
    }
  }

  lemma MatchingPicksOnce(ls: seq<Local>, ms: seq<set<ClientId>>, hash: nat) returns (i: nat)
    requires ByName(ls, ms) && Connected(ls)
    requires forall k | 0 <= k < |ls| :: !SeesMismatch(ls, ms, k)
    ensures OnlyPicker(ls, hash, i)
  {
    i :| 0 <= i < |ls| && ls[i].online != {};
    if k :| 0 <= k < |ls| && k != i && ls[k].online != {} {
      AllMatching(ls, ms, i, k);
      i := ConnectedPicksOnce(ls, hash);
    } else {
      OnlyMatching(ls, ms, hash, i);
    }
  }

  // --- counting -------------------------------------------------------------------------------

  function Pool(l: Local): set<ClientId> {
    l.online + l.remote
  }

  /** How many of the hashes below `m` make this shard pick. */
  ghost function Hits(l: Local, m: nat): nat {
    Count(Picks(l), m)
  }

  ghost function Picks(l: Local): nat -> bool {
    (hash: nat) => Pick(l, hash).Some?
  }

  function Count(f: nat -> bool, m: nat): nat {
    if m == 0 then 0 else Count(f, m - 1) + (if f(m - 1) then 1 else 0)
  }

  /** For each shard, on which hashes it picks. */
  ghost function AllPicks(ls: seq<Local>): (fs: seq<nat -> bool>)
    ensures |fs| == |ls| && forall i | 0 <= i < |ls| :: fs[i] == Picks(ls[i])
  {
    seq(|ls|, i requires 0 <= i < |ls| => Picks(ls[i]))
  }

  /** How many of the first `n` say yes to `h`. */
  function Yes(fs: seq<nat -> bool>, n: nat, h: nat): nat
    requires n <= |fs|
  {
    if n == 0 then 0 else Yes(fs, n - 1, h) + (if fs[n - 1](h) then 1 else 0)
  }

  function Total(fs: seq<nat -> bool>, n: nat, m: nat): nat
    requires n <= |fs|
  {
    if n == 0 then 0 else Total(fs, n - 1, m) + Count(fs[n - 1], m)
  }

  lemma {:induction false} TotalMore(fs: seq<nat -> bool>, n: nat, m: nat)
    requires n <= |fs|
    ensures Total(fs, n, m + 1) == Total(fs, n, m) + Yes(fs, n, m)
  {
    if n > 0 { TotalMore(fs, n - 1, m); }
  }

  /** If there are fewer yeses than numbers below `m`, some number gets none. */
  lemma {:induction false} SomeNumberMisses(fs: seq<nat -> bool>, m: nat) returns (h: nat)
    requires Total(fs, |fs|, m) < m
    ensures Yes(fs, |fs|, h) == 0
  {
    TotalMore(fs, |fs|, m - 1);
    if Yes(fs, |fs|, m - 1) == 0 {
      h := m - 1;
    } else {
      h := SomeNumberMisses(fs, m - 1);
    }
  }

  lemma {:induction false} NoneSaysYes(fs: seq<nat -> bool>, n: nat, h: nat, i: nat)
    requires i < n <= |fs| && Yes(fs, n, h) == 0
    ensures !fs[i](h)
  {
    if i < n - 1 { NoneSaysYes(fs, n - 1, h, i); }
  }

  // --- one shard over a whole period ------------------------------------------------------------

  function CountIn(xs: seq<ClientId>, n: nat, s: set<ClientId>): nat
    requires n <= |xs|
  {
    if n == 0 then 0 else CountIn(xs, n - 1, s) + (if xs[n - 1] in s then 1 else 0)
  }

  function Among(xs: seq<ClientId>, n: nat, s: set<ClientId>): set<ClientId>
    requires n <= |xs|
  {
    set i | 0 <= i < n && xs[i] in s :: xs[i]
  }

  lemma {:induction false} CountIsSize(xs: seq<ClientId>, n: nat, s: set<ClientId>)
    requires n <= |xs| && forall i, j | 0 <= i < j < |xs| :: xs[i] != xs[j]
    ensures CountIn(xs, n, s) == |Among(xs, n, s)|
  {
    if n > 0 {
      CountIsSize(xs, n - 1, s);
      var x, front := xs[n - 1], Among(xs, n - 1, s);
      if x in s {
        assert Among(xs, n, s) == front + {x} && x !in front;
      } else {
        assert Among(xs, n, s) == front;
      }
    }
  }

  lemma PoolCounts(l: Local)
    ensures CountIn(Order.Sorted(Pool(l)), |Order.Sorted(Pool(l))|, l.online) == |l.online|
  {
    var all := Order.Sorted(Pool(l));
    forall i, j | 0 <= i < j < |all| ensures all[i] != all[j] { Order.LessIsTotal(all[i], all[j]); }
    CountIsSize(all, |all|, l.online);
    assert Among(all, |all|, l.online) == l.online;
  }

  lemma PoolIsListed(l: Local)
    requires l.remote != {}
    ensures |Order.Sorted(Pool(l))| == |Pool(l)| > 0
  {
    var c :| c in l.remote;
    assert c in Pool(l);
  }

  function At(xs: seq<ClientId>, n: nat): ClientId
    requires xs != []
  {
    xs[Turn(n, |xs|)]
  }

  /** `f` holds where counting round `xs` falls on an element of `s`. */
  ghost predicate GoesRound(f: nat -> bool, xs: seq<ClientId>, s: set<ClientId>) {
    xs != [] && forall n: nat :: f(n) <==> At(xs, n) in s
  }

  lemma PoolGoesRound(l: Local)
    requires l.remote != {} && l.online <= l.ids
    ensures GoesRound(Picks(l), Order.Sorted(Pool(l)), l.online)
  {
    PoolIsListed(l);
    forall n: nat ensures Picks(l)(n) <==> At(Order.Sorted(Pool(l)), n) in l.online {
      assert Nth(Pool(l), n) == At(Order.Sorted(Pool(l)), n);
    }
  }

  lemma AtRound(xs: seq<ClientId>, q: nat, r: nat)
    requires r < |xs|
    ensures At(xs, Times(q, |xs|) + r) == xs[r]
  {
    RoundAndRound(q, |xs|, r);
  }

  /** Place `k` of a round that starts at `base`. */
  predicate InStep(f: nat -> bool, base: nat, xs: seq<ClientId>, s: set<ClientId>, k: nat)
    requires k < |xs|
  {
    f(base + k) <==> xs[k] in s
  }

  lemma {:induction false} BlockCount(f: nat -> bool, base: nat, xs: seq<ClientId>, r: nat, s: set<ClientId>)
    requires r <= |xs| && forall k | 0 <= k < |xs| :: InStep(f, base, xs, s, k)
    ensures Count(f, base + r) == Count(f, base) + CountIn(xs, r, s)
  {
    if r > 0 {
      BlockCount(f, base, xs, r - 1, s);
      assert InStep(f, base, xs, s, r - 1);
    }
  }

  lemma StaysInStep(f: nat -> bool, xs: seq<ClientId>, s: set<ClientId>, q: nat, k: nat)
    requires GoesRound(f, xs, s) && k < |xs|
    ensures InStep(f, Times(q, |xs|), xs, s, k)
  {
    AtRound(xs, q, k);
  }

  lemma {:induction false} RoundsCount(f: nat -> bool, xs: seq<ClientId>, s: set<ClientId>, q: nat)
    requires GoesRound(f, xs, s)
    ensures Count(f, Times(q, |xs|)) == Times(q, CountIn(xs, |xs|, s))
  {
    if q > 0 {
      var base := Times(q - 1, |xs|);
      RoundsCount(f, xs, s, q - 1);
      forall k | 0 <= k < |xs| ensures InStep(f, base, xs, s, k) { StaysInStep(f, xs, s, q - 1, k); }
      BlockCount(f, base, xs, |xs|, s);
    }
  }

  /** Over `q` rounds of its pool a shard picks on its own share of the hashes. */
  lemma PeriodHits(l: Local, q: nat)
    requires l.remote != {} && l.online <= l.ids
    ensures Hits(l, Times(q, |Pool(l)|)) == Times(q, |l.online|)
  {
    PoolIsListed(l);
    PoolGoesRound(l);
    RoundsCount(Picks(l), Order.Sorted(Pool(l)), l.online, q);
    PoolCounts(l);
  }

  // --- all shards over a common period ------------------------------------------------------------

  lemma {:induction false} TimesAdds(q: nat, a: nat, b: nat)
    ensures Times(q, a + b) == Times(q, a) + Times(q, b)
  {
    if q > 0 { TimesAdds(q - 1, a, b); }
  }

  lemma {:induction false} TimesRounds(p: nat, q: nat, u: nat)
    ensures Times(p + q, u) == Times(p, u) + Times(q, u)
  {
    if q > 0 { TimesRounds(p, q - 1, u); }
  }

  lemma {:induction false} TimesTimes(p: nat, q: nat, u: nat)
    ensures Times(p, Times(q, u)) == Times(Times(p, q), u)
  {
    if p > 0 {
      TimesTimes(p - 1, q, u);
      TimesRounds(Times(p - 1, q), q, u);
    }
  }

  lemma {:induction false} TimesSwaps(p: nat, q: nat)
    ensures Times(p, q) == Times(q, p)
  {
    if p > 0 {
      TimesSwaps(p - 1, q);
      TimesOne(q);
      TimesAdds(q, p - 1, 1);
    } else {
      TimesZero(q);
    }
  }

  lemma {:induction false} TimesZero(q: nat)
    ensures Times(q, 0) == 0
  {
    if q > 0 { TimesZero(q - 1); }
  }

  lemma {:induction false} TimesOne(q: nat)
    ensures Times(q, 1) == q
  {
    if q > 0 { TimesOne(q - 1); }
  }

  lemma {:induction false} TimesGrows(q: nat, a: nat, b: nat)
    requires a <= b
    ensures Times(q, a) <= Times(q, b)
    ensures q > 0 && a < b ==> Times(q, a) < Times(q, b)
  {
    if q > 0 { TimesGrows(q - 1, a, b); }
  }

  /** A number of hashes that is whole rounds of every pool. */
  function Period(ls: seq<Local>, n: nat): nat
    requires n <= |ls|
  {
    if n == 0 then 1 else Times(Period(ls, n - 1), |Pool(ls[n - 1])|)
  }

  lemma TimesPositive(p: nat, q: nat)
    requires p > 0 && q > 0
    ensures Times(p, q) > 0
  {
  }

  lemma {:induction false} WholeRounds(ls: seq<Local>, n: nat, i: nat) returns (q: nat)
    requires i < n <= |ls| && forall k | 0 <= k < |ls| :: |Pool(ls[k])| > 0
    ensures q > 0 && Period(ls, n) == Times(q, |Pool(ls[i])|)
  {
    if i == n - 1 {
      q := Period(ls, n - 1);
      PeriodPositive(ls, n - 1);
    } else {
      var p := WholeRounds(ls, n - 1, i);
      var u := |Pool(ls[n - 1])|;
      q := Times(u, p);
      TimesPositive(u, p);
      TimesSwaps(Period(ls, n - 1), u);
      TimesTimes(u, p, |Pool(ls[i])|);
    }
  }

  lemma {:induction false} PeriodPositive(ls: seq<Local>, n: nat)
    requires n <= |ls| && forall k | 0 <= k < |ls| :: |Pool(ls[k])| > 0
    ensures Period(ls, n) > 0
  {
    if n > 0 {
      PeriodPositive(ls, n - 1);
      TimesPositive(Period(ls, n - 1), |Pool(ls[n - 1])|);
    }
  }

  function Matching(ls: seq<Local>, n: nat): set<ClientId>
    requires n <= |ls|
  {
    if n == 0 then {} else Matching(ls, n - 1) + ls[n - 1].online
  }

  lemma {:induction false} MatchingIs(ls: seq<Local>, n: nat, c: ClientId)
    requires n <= |ls|
    ensures c in Matching(ls, n) <==> exists i :: 0 <= i < n && c in ls[i].online
  {
    if n > 0 { MatchingIs(ls, n - 1, c); }
  }

  predicate SizeAdds(ls: seq<Local>, n: nat)
    requires n < |ls|
  {
    |Matching(ls, n + 1)| == |Matching(ls, n)| + |ls[n].online|
  }

  lemma MatchingSize(ls: seq<Local>, ms: seq<set<ClientId>>, n: nat)
    requires ByName(ls, ms) && n < |ls|
    ensures SizeAdds(ls, n)
  {
    var before, here := Matching(ls, n), ls[n].online;
    forall c | c in before ensures c !in here {
      MatchingIs(ls, n, c);
      var i :| 0 <= i < n && c in ls[i].online;
      assert Disjoint(ms, i, n);
    }
  }

  /** Every shard's pool holds all the connected matching members, and, if it sees a mismatch, more. */
  lemma PoolHolds(ls: seq<Local>, ms: seq<set<ClientId>>, i: nat)
    requires ByName(ls, ms) && i < |ls|
    ensures Matching(ls, |ls|) <= Pool(ls[i])
    ensures SeesMismatch(ls, ms, i) ==> Matching(ls, |ls|) < Pool(ls[i])
  {
    assert SeesNames(ls, ms, i);
    forall c | c in Matching(ls, |ls|) ensures c in Pool(ls[i]) {
      MatchingIs(ls, |ls|, c);
      var k :| 0 <= k < |ls| && c in ls[k].online;
      if k != i { assert NamedElsewhere(ms, i, c); }
    }
    if SeesMismatch(ls, ms, i) {
      var j :| 0 <= j < |ls| && j != i && Mismatched(ls, ms, j);
      var c :| c in ms[j] && c !in ls[j].online;
      assert NamedElsewhere(ms, i, c);
      MatchingIs(ls, |ls|, c);
      forall k | 0 <= k < |ls| && k != j ensures c !in ls[k].online { assert Disjoint(ms, k, j); }
    }
  }

  lemma SmallerSet(a: set<ClientId>, b: set<ClientId>)
    requires a <= b
    ensures |a| <= |b| && (a < b ==> |a| < |b|)
  {
    assert |b - a| + |a| == |b| by { assert (b - a) + a == b; }
    if a < b {
      var c :| c in b && c !in a;
      assert c in b - a;
    }
  }

  /** Over `m` hashes, a shard's picks are at most its share of the `o` matching members; if it sees a
      mismatch, less. */
  ghost predicate FairShare(ls: seq<Local>, ms: seq<set<ClientId>>, o: nat, m: nat, k: nat)
    requires k < |ls| == |ms|
  {
    && Times(o, Hits(ls[k], m)) <= Times(m, |ls[k].online|)
    && (SeesMismatch(ls, ms, k) ==> Times(o, Hits(ls[k], m)) < Times(m, |ls[k].online|))
  }

  function Sum(xs: seq<nat>, n: nat): nat
    requires n <= |xs|
  {
    if n == 0 then 0 else Sum(xs, n - 1) + xs[n - 1]
  }

  predicate Weighs(fs: seq<nat -> bool>, shares: seq<nat>, o: nat, m: nat, k: nat)
    requires k < |fs| == |shares|
  {
    Times(o, Count(fs[k], m)) <= Times(m, shares[k])
  }

  /** If nobody has more than its share and one has less, the whole has less. */
  lemma {:induction false} SharesAdd(fs: seq<nat -> bool>, shares: seq<nat>, o: nat, m: nat, n: nat, i: nat)
    requires n <= |fs| == |shares| && i < |fs| && Times(o, Count(fs[i], m)) < Times(m, shares[i])
    requires forall k | 0 <= k < |fs| :: Weighs(fs, shares, o, m, k)
    ensures Times(o, Total(fs, n, m)) <= Times(m, Sum(shares, n))
    ensures i < n ==> Times(o, Total(fs, n, m)) < Times(m, Sum(shares, n))
  {
    if n == 0 {
      TimesZero(o);
      TimesZero(m);
    } else {
      SharesAdd(fs, shares, o, m, n - 1, i);
      assert Weighs(fs, shares, o, m, n - 1);
      WeighMore(o, m, Total(fs, n - 1, m), Count(fs[n - 1], m), Sum(shares, n - 1), shares[n - 1]);
    }
  }

  function Sizes(ls: seq<Local>): (xs: seq<nat>)
    ensures |xs| == |ls| && forall i | 0 <= i < |ls| :: xs[i] == |ls[i].online|
  {
    seq(|ls|, i requires 0 <= i < |ls| => |ls[i].online|)
  }

  lemma {:induction false} SizesSum(ls: seq<Local>, ms: seq<set<ClientId>>, n: nat)
    requires ByName(ls, ms) && n <= |ls|
    ensures Sum(Sizes(ls), n) == |Matching(ls, n)|
  {
    if n > 0 {
      SizesSum(ls, ms, n - 1);
      MatchingSize(ls, ms, n - 1);
    }
  }

  lemma WeighMore(o: nat, m: nat, total: nat, hits: nat, before: nat, here: nat)
    requires Times(o, total) <= Times(m, before) && Times(o, hits) <= Times(m, here)
    ensures Times(o, total + hits) <= Times(m, before + here)
    ensures Times(o, total) < Times(m, before) || Times(o, hits) < Times(m, here) ==> Times(o, total + hits) < Times(m, before + here)
  {
    TimesAdds(o, total, hits);
    TimesAdds(m, before, here);
  }

  /** One shard's picks over the period. */
  lemma ShareWeighs(ls: seq<Local>, ms: seq<set<ClientId>>, k: nat)
    requires ByName(ls, ms) && k < |ls| && forall k | 0 <= k < |ls| :: ls[k].remote != {}
    ensures FairShare(ls, ms, |Matching(ls, |ls|)|, Period(ls, |ls|), k)
  {
    forall j | 0 <= j < |ls| ensures |Pool(ls[j])| > 0 { PoolIsListed(ls[j]); }
    var q := WholeRounds(ls, |ls|, k);
    PeriodHits(ls[k], q);
    PoolHolds(ls, ms, k);
    SmallerSet(Matching(ls, |ls|), Pool(ls[k]));
    SharesCompare(|Matching(ls, |ls|)|, |Pool(ls[k])|, q, |ls[k].online|);
  }

  lemma SharesCompare(o: nat, u: nat, q: nat, a: nat)
    requires o <= u
    ensures Times(o, Times(q, a)) <= Times(Times(q, u), a)
    ensures o < u && q > 0 && a > 0 ==> Times(o, Times(q, a)) < Times(Times(q, u), a)
  {
    TimesTimes(o, q, a);
    TimesSwaps(o, q);
    TimesGrows(q, o, u);
    TimesSwaps(Times(q, o), a);
    TimesSwaps(Times(q, u), a);
    TimesGrows(a, Times(q, o), Times(q, u));
  }

  /** If some shard sees a mismatch, there is a hash for which nobody delivers. */
  lemma MismatchMisses(ls: seq<Local>, ms: seq<set<ClientId>>, i: nat) returns (hash: nat)
    requires ByName(ls, ms) && i < |ls| && SeesMismatch(ls, ms, i)
    ensures forall k | 0 <= k < |ls| :: Pick(ls[k], hash).None?
  {
    NobodyIsAlone(ls, ms, i);
    var o, m, fs := |Matching(ls, |ls|)|, Period(ls, |ls|), AllPicks(ls);
    forall k | 0 <= k < |ls| ensures Weighs(fs, Sizes(ls), o, m, k) { ShareWeighs(ls, ms, k); }
    ShareWeighs(ls, ms, i);
    SharesAdd(fs, Sizes(ls), o, m, |ls|, i);
    SizesSum(ls, ms, |ls|);
    LessTimes(o, m, Total(AllPicks(ls), |ls|, m));
    hash := SomeNumberMisses(AllPicks(ls), m);
    forall k | 0 <= k < |ls| ensures Pick(ls[k], hash).None? { NoneSaysYes(AllPicks(ls), |ls|, hash, k); }
  }

  lemma LessTimes(o: nat, m: nat, total: nat)
    requires Times(o, total) < Times(m, o)
    ensures total < m
  {
    TimesSwaps(o, m);
    if total >= m { TimesGrows(o, m, total); }
  }

  lemma NobodyIsAlone(ls: seq<Local>, ms: seq<set<ClientId>>, i: nat)
    requires ByName(ls, ms) && i < |ls| && SeesMismatch(ls, ms, i)
    ensures forall k | 0 <= k < |ls| :: ls[k].remote != {}
  {
    PoolHolds(ls, ms, i);
    var c :| c in ls[i].online;
    forall k | 0 <= k < |ls| ensures ls[k].remote != {} {
      assert SeesNames(ls, ms, k);
      if k != i {
        assert c in ms[i] && NamedElsewhere(ms, k, c);
      } else {
        var j :| 0 <= j < |ls| && j != i && Mismatched(ls, ms, j);
        var d :| d in ms[j] && d !in ls[j].online;
        assert NamedElsewhere(ms, k, d);
      }
    }
  }

  /** Exactly one shard picks. */
  ghost predicate PicksOnce(ls: seq<Local>, hash: nat) {
    exists i :: OnlyPicker(ls, hash, i)
  }

  /** With a connected matching member somewhere: every hash makes exactly one shard pick, if and only if
      no shard holding a connected matching member sees a connected member elsewhere that does not match. */
  lemma PicksOnceExactlyWhen(ls: seq<Local>, ms: seq<set<ClientId>>)
    requires ByName(ls, ms) && Connected(ls)
    ensures (forall hash: nat :: PicksOnce(ls, hash)) <==> forall i | 0 <= i < |ls| :: !SeesMismatch(ls, ms, i)
  {
    if forall i | 0 <= i < |ls| :: !SeesMismatch(ls, ms, i) {
      forall hash: nat ensures PicksOnce(ls, hash) { var i := MatchingPicksOnce(ls, ms, hash); }
    } else {
      var i :| 0 <= i < |ls| && SeesMismatch(ls, ms, i);
      var hash := MismatchMisses(ls, ms, i);
      assert !PicksOnce(ls, hash);
    }
  }
}
