/** The order of strings by character, and the sorted listing of a set of strings. */
module Order {

  predicate Less(a: string, b: string) {
    if b == "" then false
    else if a == "" then true
    else a[0] < b[0] || (a[0] == b[0] && Less(a[1..], b[1..]))
  }

  lemma {:induction false} LessIsTotal(a: string, b: string)
    ensures a == b || Less(a, b) || Less(b, a)
    ensures !(Less(a, b) && Less(b, a)) && !Less(a, a)
  {
    if a != "" && b != "" {
      LessIsTotal(a[1..], b[1..]);
      assert a == [a[0]] + a[1..] && b == [b[0]] + b[1..];
    }
    if a != "" { LessIsTotal(a[1..], a[1..]); }
  }

  lemma {:induction false} LessIsTransitive(a: string, b: string, c: string)
    requires Less(a, b) && Less(b, c)
    ensures Less(a, c)
  {
    if a != "" && a[0] == b[0] == c[0] { LessIsTransitive(a[1..], b[1..], c[1..]); }
  }

  ghost predicate IsMin(m: string, s: set<string>) {
    m in s && forall x | x in s :: x == m || Less(m, x)
  }

  lemma {:induction false} MinExists(s: set<string>) returns (m: string)
    requires s != {}
    ensures IsMin(m, s)
    decreases |s|
  {
    var a :| a in s;
    if s == {a} {
      m := a;
    } else {
      assert a in s && |s - {a}| < |s|;
      assert s == {a} + (s - {a});
      m := MinExists(s - {a});
      LessIsTotal(a, m);
      if Less(a, m) {
        forall x | x in s ensures x == a || Less(a, x) {
          if x != a && x != m { LessIsTransitive(a, m, x); }
        }
        m := a;
      }
    }
  }

  ghost function Min(s: set<string>): (m: string)
    requires s != {}
    ensures IsMin(m, s)
  {
    assert exists m :: IsMin(m, s) by { var m := MinExists(s); }
    var m :| IsMin(m, s);
    m
  }

  ghost predicate Increasing(xs: seq<string>) {
    forall i, j | 0 <= i < j < |xs| :: Less(xs[i], xs[j])
  }

  /** The elements of a set in increasing order. */
  ghost function Sorted(s: set<string>): (xs: seq<string>)
    ensures |xs| == |s|
    ensures forall x :: x in xs <==> x in s
    ensures Increasing(xs)
    decreases |s|
  {
    if s == {} then []
    else
      var m := Min(s);
      var rest := Sorted(s - {m});
      assert forall i | 0 <= i < |rest| :: rest[i] in s - {m};
      [m] + rest
  }

  lemma TailDrops(xs: seq<string>)
    requires Increasing(xs) && xs != []
    ensures Increasing(xs[1..])
    ensures forall x :: x in xs[1..] <==> x in xs && x != xs[0]
  {
    LessIsTotal(xs[0], xs[0]);
    assert xs == [xs[0]] + xs[1..];
    assert forall i | 0 <= i < |xs[1..]| :: xs[1..][i] == xs[i + 1];
  }

  /** An increasing listing is determined by its elements. */
  lemma {:induction false} IncreasingIsUnique(xs: seq<string>, ys: seq<string>)
    requires Increasing(xs) && Increasing(ys)
    requires forall x :: x in xs <==> x in ys
    ensures xs == ys
  {
    if xs != [] { assert xs[0] in xs; }
    if ys != [] { assert ys[0] in ys; }
    if xs != [] && ys != [] {
      LessIsTotal(xs[0], ys[0]);
      assert xs[0] == ys[0];
      TailDrops(xs);
      TailDrops(ys);
      IncreasingIsUnique(xs[1..], ys[1..]);
    }
  }

  /** Lists a set in increasing order. */
  method Sort(names: set<string>) returns (xs: seq<string>)
    ensures xs == Sorted(names)
  {
    xs := [];
    var left := names;
    while left != {}
      invariant left <= names && (forall x :: x in xs <==> x in names - left)
      invariant Increasing(xs) && forall i, y | 0 <= i < |xs| && y in left :: Less(xs[i], y)
      decreases |left|
    {
      var m := Smallest(left);
      xs, left := xs + [m], left - {m};
    }
    IncreasingIsUnique(xs, Sorted(names));
  }

  method Smallest(names: set<string>) returns (m: string)
    requires names != {}
    ensures m in names && forall x | x in names :: x == m || Less(m, x)
  {
    m :| m in names;
    var left := names - {m};
    while left != {}
      invariant m in names && m !in left && left <= names
      invariant forall x | x in names && x !in left :: x == m || Less(m, x)
      decreases |left|
    {
      var y :| y in left;
      LessIsTotal(y, m);
      if Less(y, m) {
        forall x | x in names && x !in left && x != m ensures Less(y, x) { LessIsTransitive(y, m, x); }
        m := y;
      }
      left := left - {y};
    }
  }
}
