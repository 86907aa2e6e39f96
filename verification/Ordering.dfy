/**
 Orders the program relies on: text order and sorted, duplicate-free lists of
 text, and row ids in ascending order (`ORDER BY id LIMIT n`).
 */
module Ordering {

  // ─── Text order ───

  predicate Less(a: string, b: string)
    decreases |a|
  {
    b != "" && (a == "" || a[0] < b[0] || (a[0] == b[0] && Less(a[1..], b[1..])))
  }

  lemma {:induction false} LessIrreflexive(a: string)
    ensures !Less(a, a)
    decreases |a|
  {
    if a != "" {
      LessIrreflexive(a[1..]);
    }
  }

  lemma {:induction false} LessTransitive(a: string, b: string, c: string)
    requires Less(a, b) && Less(b, c)
    ensures Less(a, c)
    decreases |a|
  {
    if a != "" && a[0] == b[0] == c[0] {
      LessTransitive(a[1..], b[1..], c[1..]);
    }
  }

  lemma {:induction false} LessTotal(a: string, b: string)
    ensures Less(a, b) || a == b || Less(b, a)
    decreases |a|
  {
    if a != "" && b != "" && a[0] == b[0] {
      LessTotal(a[1..], b[1..]);
      assert a == [a[0]] + a[1..] && b == [b[0]] + b[1..];
    }
  }

  lemma SameHead(a: string, b: string, n: nat)
    requires n <= |a| && n <= |b| && a[..n] == b[..n]
    ensures n > 0 ==> a[0] == b[0]
  {
    if n > 0 {
      assert a[..n][0] == b[..n][0];
    }
  }

  /** Where the texts first differ the smaller character comes first, and a text comes before its extensions. */
  lemma {:induction false} LessMeans(a: string, b: string)
    ensures Less(a, b) <==>
      exists n: nat :: n <= |a| && n < |b| && a[..n] == b[..n] && (n == |a| || a[n] < b[n])
    decreases |a|
  {
    if a == "" || b == "" || a[0] != b[0] {
      if a != "" && b != "" && a[0] < b[0] {
        assert a[..0] == b[..0];
      }
      if a == "" && b != "" {
        assert a[..0] == b[..0];
      }
      forall n: nat | n <= |a| && n < |b| && a[..n] == b[..n] && a != "" ensures n == 0 {
        SameHead(a, b, n);
      }
    } else {
      LessMeans(a[1..], b[1..]);
      if Less(a, b) {
        var n: nat :| n <= |a[1..]| && n < |b[1..]| && a[1..][..n] == b[1..][..n]
          && (n == |a[1..]| || a[1..][n] < b[1..][n]);
        assert a[..n + 1] == [a[0]] + a[1..][..n] && b[..n + 1] == [b[0]] + b[1..][..n];
      }
      forall n: nat | n <= |a| && n < |b| && a[..n] == b[..n] && (n == |a| || a[n] < b[n])
        ensures Less(a, b)
      {
        assert n > 0;
        assert a[1..][..n - 1] == a[..n][1..] && b[1..][..n - 1] == b[..n][1..];
        assert n - 1 == |a[1..]| || a[1..][n - 1] < b[1..][n - 1];
      }
    }
  }

  predicate StrictlySorted(xs: seq<string>) {
    forall i, j :: 0 <= i < j < |xs| ==> Less(xs[i], xs[j])
  }

  /** `BTreeSet::insert`, on the ascending list of the set's elements. */
  function Insert(x: string, xs: seq<string>): seq<string> {
    if xs == [] || Less(x, xs[0]) then [x] + xs
    else if x == xs[0] then xs
    else [xs[0]] + Insert(x, xs[1..])
  }

  lemma {:induction false} InsertKeepsSorted(x: string, xs: seq<string>)
    requires StrictlySorted(xs)
    ensures StrictlySorted(Insert(x, xs))
    ensures forall y :: y in Insert(x, xs) <==> y == x || y in xs
  {
    if xs == [] {
    } else if Less(x, xs[0]) {
      forall j | 0 <= j < |xs| ensures Less(x, xs[j]) {
        if j > 0 {
          LessTransitive(x, xs[0], xs[j]);
        }
      }
    } else if x != xs[0] {
      LessTotal(x, xs[0]);
      InsertKeepsSorted(x, xs[1..]);
      var r := Insert(x, xs[1..]);
      forall j | 0 <= j < |r| ensures Less(xs[0], r[j]) {
        assert r[j] in r;
        if r[j] in xs[1..] {
          var k :| 0 <= k < |xs[1..]| && xs[1..][k] == r[j];
          assert xs[k + 1] == r[j];
        }
      }
      assert xs == [xs[0]] + xs[1..];
    }
  }

  /** The elements of a list, ascending and once each. */
  function SortedSet(xs: seq<string>): seq<string> {
    if xs == [] then [] else Insert(xs[|xs| - 1], SortedSet(xs[..|xs| - 1]))
  }

  lemma {:induction false} SortedSetIsSorted(xs: seq<string>)
    ensures StrictlySorted(SortedSet(xs))
    ensures forall y :: y in SortedSet(xs) <==> y in xs
  {
    if xs != [] {
      var n := |xs| - 1;
      SortedSetIsSorted(xs[..n]);
      InsertKeepsSorted(xs[n], SortedSet(xs[..n]));
      assert xs == xs[..n] + [xs[n]];
    }
  }

  /** A sorted, duplicate-free list is determined by its elements. */
  lemma {:induction false} SortedUnique(a: seq<string>, b: seq<string>)
    requires StrictlySorted(a) && StrictlySorted(b)
    requires forall y :: y in a <==> y in b
    ensures a == b
    decreases |a|
  {
    assert forall k :: 0 <= k < |b| ==> b[k] in b;
    assert forall k :: 0 <= k < |a| ==> a[k] in a;
    if a == [] {
      assert |b| == 0;
    } else {
      assert a[0] in a;
      var i :| 0 <= i < |b| && b[i] == a[0];
      assert b[0] in b;
      var j :| 0 <= j < |a| && a[j] == b[0];
      if i > 0 && j > 0 {
        LessTransitive(a[0], a[j], b[i]);
        LessIrreflexive(a[0]);
      }
      assert a[0] == b[0];
      forall y ensures y in a[1..] <==> y in b[1..] {
        TailMember(a, y);
        TailMember(b, y);
      }
      SortedUnique(a[1..], b[1..]);
      assert a == [a[0]] + a[1..] && b == [b[0]] + b[1..];
    }
  }

  lemma TailMember(a: seq<string>, y: string)
    requires StrictlySorted(a) && a != []
    ensures y in a[1..] <==> y in a && y != a[0]
  {
    LessIrreflexive(a[0]);
    assert a == [a[0]] + a[1..];
    if y in a[1..] {
      var k :| 0 <= k < |a[1..]| && a[1..][k] == y;
      assert Less(a[0], a[k + 1]);
    }
  }

  /** The sorted set of a list depends only on the set of its elements. */
  lemma SortedSetExtensional(xs: seq<string>, ys: seq<string>)
    requires forall y :: y in xs <==> y in ys
    ensures SortedSet(xs) == SortedSet(ys)
  {
    SortedSetIsSorted(xs);
    SortedSetIsSorted(ys);
    SortedUnique(SortedSet(xs), SortedSet(ys));
  }

  // ─── sort, then dedup ───

  predicate Ascending(xs: seq<string>) {
    forall i :: 0 < i < |xs| ==> !Less(xs[i], xs[i - 1])
  }

  /** A sorting of the list: `Vec::sort` may return nothing else. */
  predicate SortingOf(ys: seq<string>, xs: seq<string>) {
    Ascending(ys) && multiset(ys) == multiset(xs)
  }

  function InsertOrdered(x: string, xs: seq<string>): seq<string> {
    if xs == [] || !Less(xs[0], x) then [x] + xs else [xs[0]] + InsertOrdered(x, xs[1..])
  }

  /** `Vec::sort` on text. */
  function Sorted(xs: seq<string>): seq<string> {
    if xs == [] then [] else InsertOrdered(xs[0], Sorted(xs[1..]))
  }

  lemma LessAsymmetric(a: string, b: string)
    requires Less(a, b)
    ensures !Less(b, a)
  {
    if Less(b, a) {
      LessTransitive(a, b, a);
      LessIrreflexive(a);
    }
  }

  lemma AscendingCons(x: string, xs: seq<string>)
    requires Ascending(xs) && (xs == [] || !Less(xs[0], x))
    ensures Ascending([x] + xs)
  {
  }

  lemma {:induction false} InsertOrderedSorts(x: string, xs: seq<string>)
    requires Ascending(xs)
    ensures Ascending(InsertOrdered(x, xs))
    ensures multiset(InsertOrdered(x, xs)) == multiset{x} + multiset(xs)
    ensures InsertOrdered(x, xs) != []
    ensures InsertOrdered(x, xs)[0] == x || (xs != [] && InsertOrdered(x, xs)[0] == xs[0])
  {
    if xs != [] && Less(xs[0], x) {
      assert xs == [xs[0]] + xs[1..];
      InsertOrderedSorts(x, xs[1..]);
      LessAsymmetric(xs[0], x);
      AscendingCons(xs[0], InsertOrdered(x, xs[1..]));
    }
  }

  lemma {:induction false} SortedSorts(xs: seq<string>)
    ensures SortingOf(Sorted(xs), xs)
  {
    if xs != [] {
      assert xs == [xs[0]] + xs[1..];
      SortedSorts(xs[1..]);
      InsertOrderedSorts(xs[0], Sorted(xs[1..]));
    }
  }

  lemma SnocSorted(zs: seq<string>, y: string)
    requires StrictlySorted(zs) && (zs == [] || Less(zs[|zs| - 1], y))
    ensures StrictlySorted(zs + [y])
  {
    forall j | 0 <= j < |zs| ensures Less(zs[j], y) {
      if j < |zs| - 1 {
        LessTransitive(zs[j], zs[|zs| - 1], y);
      }
    }
  }

  /** `Vec::dedup`: each run of equal neighbours becomes one element. */
  method Dedup(ys: seq<string>) returns (zs: seq<string>)
    requires Ascending(ys)
    ensures zs == SortedSet(ys)
  {
    zs := [];
    for i := 0 to |ys|
      invariant StrictlySorted(zs)
      invariant forall y :: y in zs <==> y in ys[..i]
      invariant i == 0 ==> zs == []
      invariant i > 0 ==> zs != [] && zs[|zs| - 1] == ys[i - 1]
    {
      assert ys[..i + 1] == ys[..i] + [ys[i]];
      if i == 0 || ys[i] != ys[i - 1] {
        if i > 0 {
          LessTotal(ys[i - 1], ys[i]);
        }
        SnocSorted(zs, ys[i]);
        zs := zs + [ys[i]];
      }
    }
    assert ys[..|ys|] == ys;
    SortedSetIsSorted(ys);
    SortedUnique(zs, SortedSet(ys));
  }

  lemma SortingKeepsSet(ys: seq<string>, xs: seq<string>)
    requires SortingOf(ys, xs)
    ensures SortedSet(ys) == SortedSet(xs)
  {
    forall y ensures y in ys <==> y in xs {
      assert y in multiset(ys) <==> y in multiset(xs);
    }
    SortedSetExtensional(ys, xs);
  }

  // ─── Row ids ───

  lemma Choose<A>(s: set<A>) returns (x: A)
    requires s != {}
    ensures x in s
  {
    x :| x in s;
  }

  function Least(ids: set<int>): (m: int)
    requires ids != {}
    ensures m in ids && forall i :: i in ids ==> m <= i
  {
    LeastExists(ids);
    var m :| m in ids && forall i :: i in ids ==> m <= i;
    m
  }

  lemma LeastExists(ids: set<int>)
    requires ids != {}
    ensures exists m :: m in ids && forall i :: i in ids ==> m <= i
  {
    var m := LeastOf(ids);
  }

  lemma {:induction false} LeastOf(ids: set<int>) returns (m: int)
    requires ids != {}
    ensures m in ids && forall i :: i in ids ==> m <= i
    decreases |ids|
  {
    m := Choose(ids);
    var others := ids - {m};
    assert forall i :: i in ids ==> i == m || i in others;
    if others != {} {
      var n := LeastOf(others);
      m := if n <= m then n else m;
    }
  }

  /** `ORDER BY id LIMIT n` */
  function Lowest(ids: set<int>, n: nat): (picked: seq<int>)
    decreases n
  {
    if ids == {} || n == 0 then [] else [Least(ids)] + Lowest(ids - {Least(ids)}, n - 1)
  }

  method SelectLowest(ids: set<int>, n: nat) returns (picked: seq<int>)
    ensures picked == Lowest(ids, n)
  {
    picked := [];
    var left := ids;
    while |picked| < n && left != {}
      invariant |picked| <= n
      invariant Lowest(ids, n) == picked + Lowest(left, n - |picked|)
      decreases n - |picked|
    {
      var id := Least(left);
      picked := picked + [id];
      left := left - {id};
    }
  }

  predicate Increasing(xs: seq<int>) {
    forall i, j :: 0 <= i < j < |xs| ==> xs[i] < xs[j]
  }

  /** The picked ids ascend, come from the set, and precede every id left out. */
  lemma {:induction false} LowestPicks(ids: set<int>, n: nat)
    ensures Increasing(Lowest(ids, n))
    ensures forall i :: i in Lowest(ids, n) ==> i in ids
    ensures forall i, j :: i in Lowest(ids, n) && j in ids && j !in Lowest(ids, n) ==> i < j
    ensures |Lowest(ids, n)| == if |ids| < n then |ids| else n
    decreases n
  {
    if ids != {} && n > 0 {
      var m := Least(ids);
      LowestPicks(ids - {m}, n - 1);
      var rest := Lowest(ids - {m}, n - 1);
      forall k | 0 <= k < |rest| ensures m < rest[k] {
        assert rest[k] in rest;
      }
    }
  }

  /** A page with room to spare holds every id. */
  lemma {:induction false} LowestAll(ids: set<int>, n: nat)
    requires |ids| <= n
    ensures forall i :: i in ids ==> i in Lowest(ids, n)
    decreases n
  {
    if ids != {} {
      var m := Least(ids);
      LowestAll(ids - {m}, n - 1);
    }
  }
}
