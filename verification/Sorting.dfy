/** Stable insertion sort: what sort.SliceStable promises, and what sort.Slice does on the
    short slices of this program. */
module Sorting {
  import opened Base

  ghost predicate TotalPreorder<T(!new)>(le: (T, T) -> bool) {
    && (forall x, y :: le(x, y) || le(y, x))
    && (forall x, y, z :: le(x, y) && le(y, z) ==> le(x, z))
  }

  ghost predicate Sorted<T>(le: (T, T) -> bool, s: seq<T>) {
    forall i, j | 0 <= i < j < |s| :: le(s[i], s[j])
  }

  /** Where x belongs in s when it may only pass elements that are strictly greater. */
  function Place<T>(le: (T, T) -> bool, s: seq<T>, x: T): (p: nat)
    ensures p <= |s|
    ensures p > 0 ==> le(s[p - 1], x)
    ensures forall i | p <= i < |s| :: !le(s[i], x)
  {
    if |s| == 0 || le(s[|s| - 1], x) then |s| else Place(le, s[..|s| - 1], x)
  }

  function Insert<T>(le: (T, T) -> bool, s: seq<T>, x: T): seq<T> {
    var p := Place(le, s, x);
    s[..p] + [x] + s[p..]
  }

  function Sort<T>(le: (T, T) -> bool, s: seq<T>): (r: seq<T>)
    ensures |r| == |s|
  {
    if |s| == 0 then [] else Insert(le, Sort(le, s[..|s| - 1]), s[|s| - 1])
  }

  lemma {:induction false} SortPermutes<T>(le: (T, T) -> bool, s: seq<T>)
    ensures multiset(Sort(le, s)) == multiset(s)
  {
    if |s| != 0 {
      SortPermutes(le, s[..|s| - 1]);
      InsertPermutes(le, Sort(le, s[..|s| - 1]), s[|s| - 1]);
      assert s == s[..|s| - 1] + [s[|s| - 1]];
    }
  }

  lemma InsertPermutes<T>(le: (T, T) -> bool, s: seq<T>, x: T)
    ensures multiset(Insert(le, s, x)) == multiset(s) + multiset{x}
  {
    var p := Place(le, s, x);
    assert multiset(s) == multiset(s[..p]) + multiset(s[p..]) by { assert s == s[..p] + s[p..]; }
  }

  lemma InsertSorted<T(!new)>(le: (T, T) -> bool, s: seq<T>, x: T)
    requires TotalPreorder(le) && Sorted(le, s)
    ensures Sorted(le, Insert(le, s, x))
  {
    var p, r := Place(le, s, x), Insert(le, s, x);
    forall i, j | 0 <= i < j < |r| ensures le(r[i], r[j]) {
      if i < p && j == p {
        assert le(s[i], s[p - 1]) || i == p - 1;
      } else if i < p < j {
        assert le(s[i], s[j - 1]);
      } else if i == p {
        assert !le(s[j - 1], x);
      }
    }
  }

  lemma {:induction false} SortSorted<T(!new)>(le: (T, T) -> bool, s: seq<T>)
    requires TotalPreorder(le)
    ensures Sorted(le, Sort(le, s))
  {
    if |s| != 0 {
      SortSorted(le, s[..|s| - 1]);
      InsertSorted(le, Sort(le, s[..|s| - 1]), s[|s| - 1]);
    }
  }

  /** The last element of s that satisfies f. */
  function LastWhere<T>(f: T -> bool, s: seq<T>): (r: Option<T>)
    ensures r.Some? ==> r.value in s && f(r.value)
    ensures r.None? ==> forall x | x in s :: !f(x)
  {
    if |s| == 0 then None
    else if f(s[|s| - 1]) then Some(s[|s| - 1])
    else LastWhere(f, s[..|s| - 1])
  }

  lemma {:induction false} LastWhereConcat<T>(f: T -> bool, s: seq<T>, t: seq<T>)
    ensures LastWhere(f, s + t) == if LastWhere(f, t).Some? then LastWhere(f, t) else LastWhere(f, s)
  {
    if |t| == 0 {
      assert s + t == s;
    } else {
      assert (s + t)[..|s + t| - 1] == s + t[..|t| - 1];
      LastWhereConcat(f, s, t[..|t| - 1]);
    }
  }

  lemma LastWhereAround<T>(f: T -> bool, s: seq<T>, x: T, t: seq<T>)
    ensures LastWhere(f, s + [x] + t) ==
      if LastWhere(f, t).Some? then LastWhere(f, t) else if f(x) then Some(x) else LastWhere(f, s)
    ensures LastWhere(f, s + t) == if LastWhere(f, t).Some? then LastWhere(f, t) else LastWhere(f, s)
  {
    LastWhereConcat(f, s, t);
    LastWhereConcat(f, s + [x], t);
    assert (s + [x])[..|s|] == s;
  }

  /** i is the winner among the elements satisfying f: nothing beats it, and ties go to the later index. */
  ghost predicate Wins<T>(le: (T, T) -> bool, f: T -> bool, s: seq<T>, i: nat) {
    && i < |s| && f(s[i])
    && (forall j | 0 <= j < |s| && f(s[j]) :: le(s[j], s[i]))
    && (forall j | i < j < |s| && f(s[j]) :: !le(s[i], s[j]))
  }

  lemma AroundPlace<T(!new)>(le: (T, T) -> bool, s: seq<T>, x: T)
    requires TotalPreorder(le) && Sorted(le, s)
    ensures forall y | y in s[..Place(le, s, x)] :: le(y, x)
    ensures forall y | y in s[Place(le, s, x)..] :: !le(y, x)
  {
    var p := Place(le, s, x);
    forall y | y in s[..p] ensures le(y, x) {
      var i :| 0 <= i < p && s[..p][i] == y;
      assert i == p - 1 || le(s[i], s[p - 1]);
    }
  }

  lemma LastWhereSplit<T(!new)>(le: (T, T) -> bool, f: T -> bool, s: seq<T>, p: nat, x: T)
    requires p <= |s|
    requires forall y | y in s[..p] :: le(y, x)
    requires forall y | y in s[p..] :: !le(y, x)
    ensures var l := LastWhere(f, s);
      LastWhere(f, s[..p] + [x] + s[p..]) == if f(x) && (l.None? || le(l.value, x)) then Some(x) else l
  {
    InsertBetween(le, f, s[..p], x, s[p..]);
    assert s == s[..p] + s[p..];
  }

  lemma LastWhereInsert<T(!new)>(le: (T, T) -> bool, f: T -> bool, s: seq<T>, x: T)
    requires TotalPreorder(le) && Sorted(le, s)
    ensures var l := LastWhere(f, s);
      LastWhere(f, Insert(le, s, x)) ==
        if f(x) && (l.None? || le(l.value, x)) then Some(x) else l
  {
    AroundPlace(le, s, x);
    LastWhereSplit(le, f, s, Place(le, s, x), x);
  }

  lemma InsertBetween<T(!new)>(le: (T, T) -> bool, f: T -> bool, s: seq<T>, x: T, t: seq<T>)
    requires forall y | y in s :: le(y, x)
    requires forall y | y in t :: !le(y, x)
    ensures var l := LastWhere(f, s + t);
      LastWhere(f, s + [x] + t) == if f(x) && (l.None? || le(l.value, x)) then Some(x) else l
  {
    LastWhereAround(f, s, x, t);
  }

  /** What sits last after a stable sort is the winner before it. */
  lemma {:induction false} LastWhereSort<T(!new)>(le: (T, T) -> bool, f: T -> bool, s: seq<T>)
    requires TotalPreorder(le)
    ensures LastWhere(f, Sort(le, s)).None? ==> forall x | x in s :: !f(x)
    ensures LastWhere(f, Sort(le, s)).Some? ==>
      exists i: nat :: Wins(le, f, s, i) && s[i] == LastWhere(f, Sort(le, s)).value
  {
    if |s| != 0 {
      var front, x := s[..|s| - 1], s[|s| - 1];
      assert s == front + [x];
      SortSorted(le, front);
      LastWhereSort(le, f, front);
      LastWhereInsert(le, f, Sort(le, front), x);
      var l := LastWhere(f, Sort(le, front));
      if f(x) && (l.None? || le(l.value, x)) {
        LastIndexWins(le, f, s, l);
      } else if l.Some? {
        var i: nat :| Wins(le, f, front, i) && front[i] == l.value;
        assert le(l.value, l.value) && (f(x) ==> le(x, l.value));
        assert Wins(le, f, s, i);
      }
    }
  }

  lemma LastIndexWins<T(!new)>(le: (T, T) -> bool, f: T -> bool, s: seq<T>, l: Option<T>)
    requires TotalPreorder(le) && |s| != 0 && f(s[|s| - 1])
    requires l.None? ==> forall x | x in s[..|s| - 1] :: !f(x)
    requires l.Some? ==> le(l.value, s[|s| - 1]) && exists i: nat :: Wins(le, f, s[..|s| - 1], i) && s[i] == l.value
    ensures Wins(le, f, s, |s| - 1)
  {
    var n := |s| - 1;
    forall j | 0 <= j < |s| && f(s[j]) ensures le(s[j], s[n]) {
      if j < n {
        assert s[j] == s[..n][j] && s[..n][j] in s[..n];
        assert le(s[j], l.value);
      } else {
        assert le(s[n], s[n]);
      }
    }
  }

  /** The winner is unique, so the two clauses of Wins single it out. */
  lemma WinsUnique<T(!new)>(le: (T, T) -> bool, f: T -> bool, s: seq<T>, i: nat, j: nat)
    requires Wins(le, f, s, i) && Wins(le, f, s, j)
    ensures i == j
  {}

  /** Two sorted arrangements of the same elements agree when ties are equal elements. */
  lemma {:induction false} SortedUnique<T(!new)>(le: (T, T) -> bool, s: seq<T>, t: seq<T>)
    requires Sorted(le, s) && Sorted(le, t)
    requires multiset(s) == multiset(t)
    requires forall x, y | x in s && y in s && le(x, y) && le(y, x) :: x == y
    ensures s == t
  {
    assert |s| == |multiset(s)| == |multiset(t)| == |t|;
    if |s| != 0 {
      var n := |s| - 1;
      SortedLastEqual(le, s, t);
      assert multiset(s) == multiset(s[..n] + [s[n]]) by { assert s == s[..n] + [s[n]]; }
      assert multiset(t) == multiset(t[..n] + [s[n]]) by { assert t == t[..n] + [t[n]]; }
      assert multiset(s[..n]) == multiset(s) - multiset{s[n]};
      assert multiset(t[..n]) == multiset(t) - multiset{s[n]};
      forall x, y | x in s[..n] && y in s[..n] && le(x, y) && le(y, x) ensures x == y {
        assert x in s && y in s;
      }
      SortedUnique(le, s[..n], t[..n]);
    }
  }

  lemma SortedLastEqual<T(!new)>(le: (T, T) -> bool, s: seq<T>, t: seq<T>)
    requires Sorted(le, s) && Sorted(le, t)
    requires multiset(s) == multiset(t) && |s| == |t| && |s| != 0
    requires forall x, y | x in s && y in s && le(x, y) && le(y, x) :: x == y
    ensures s[|s| - 1] == t[|t| - 1]
  {
    var a, b := s[|s| - 1], t[|t| - 1];
    assert a in multiset(t) && b in multiset(s);
    var i :| 0 <= i < |t| && t[i] == a;
    var j :| 0 <= j < |s| && s[j] == b;
    if i < |t| - 1 && j < |s| - 1 {
      assert le(t[i], t[|t| - 1]) && le(s[j], s[|s| - 1]);
    }
  }

  // ---- permutations ----

  function Mapped<A, B>(f: A -> B, s: seq<A>): seq<B> {
    seq(|s|, i requires 0 <= i < |s| => f(s[i]))
  }

  lemma MappedFront<A, B>(f: A -> B, s: seq<A>)
    requires s != []
    ensures Mapped(f, s) == Mapped(f, s[..|s| - 1]) + [f(s[|s| - 1])]
    ensures Mapped(f, s)[..|s| - 1] == Mapped(f, s[..|s| - 1])
  {}

  lemma MappedSorted<A, B>(le: (A, A) -> bool, le': (B, B) -> bool, f: A -> B, s: seq<A>)
    requires Sorted(le, s) && forall x, y | x in s && y in s && le(x, y) :: le'(f(x), f(y))
    ensures Sorted(le', Mapped(f, s))
  {
    forall i, j | 0 <= i < j < |s| ensures le'(Mapped(f, s)[i], Mapped(f, s)[j]) {
      assert s[i] in s && s[j] in s && le(s[i], s[j]);
    }
  }

  lemma TakeOut<T>(s: seq<T>, x: T) returns (front: seq<T>, back: seq<T>)
    requires x in s
    ensures s == front + [x] + back && multiset(front + back) == multiset(s) - multiset{x}
  {
    var i :| 0 <= i < |s| && s[i] == x;
    front, back := s[..i], s[i + 1..];
    assert s == front + [x] + back;
  }

  lemma MappedAround<A, B>(f: A -> B, front: seq<A>, x: A, back: seq<A>)
    ensures multiset(Mapped(f, front + [x] + back)) == multiset(Mapped(f, front + back)) + multiset{f(x)}
  {
    var a, b := Mapped(f, front), Mapped(f, back);
    assert Mapped(f, front + [x] + back) == a + [f(x)] + b;
    assert Mapped(f, front + back) == a + b;
  }

  lemma {:induction false} MappedPermutes<A, B>(f: A -> B, s: seq<A>, t: seq<A>)
    requires multiset(s) == multiset(t)
    ensures multiset(Mapped(f, s)) == multiset(Mapped(f, t))
    decreases |s|
  {
    if s == [] {
      assert 0 == |multiset(s)| == |multiset(t)| == |t|;
    } else {
      var x, rest := s[|s| - 1], s[..|s| - 1];
      assert s == rest + [x];
      assert x in multiset(t);
      var front, back := TakeOut(t, x);
      MappedPermutes(f, rest, front + back);
      MappedFront(f, s);
      MappedAround(f, front, x, back);
    }
  }

  lemma TakeOne<T>(s: seq<T>, x: T) returns (rest: seq<T>)
    requires x in multiset(s)
    ensures multiset(s) == multiset{x} + multiset(rest)
  {
    var front, back := TakeOut(s, x);
    rest := front + back;
  }

  lemma TakePair<T>(s: seq<T>, f: T, g: T) returns (rest: seq<T>)
    requires f in s && g in s && f != g
    ensures multiset([f, g] + rest) == multiset(s) == multiset([g, f] + rest)
  {
    var others := TakeOne(s, f);
    assert g in multiset(s);
    rest := TakeOne(others, g);
    PairInFront(f, g, rest);
    PairInFront(g, f, rest);
  }

  lemma PairInFront<T>(f: T, g: T, rest: seq<T>)
    ensures multiset([f, g] + rest) == multiset{f} + multiset{g} + multiset(rest)
  {
    assert multiset([f, g] + rest) == multiset([f, g]) + multiset(rest);
  }

  // ---- two tied neighbours ----

  /** f and g stand alike towards everything. */
  ghost predicate Tied<T(!new)>(le: (T, T) -> bool, f: T, g: T) {
    le(f, g) && le(g, f) && forall x :: le(f, x) <==> le(g, x)
  }

  lemma {:induction false} PlaceConcat<T>(le: (T, T) -> bool, a: seq<T>, b: seq<T>, x: T)
    ensures Place(le, a + b, x) == var p := Place(le, b, x); if p > 0 then |a| + p else Place(le, a, x)
    decreases |b|
  {
    if b == [] {
      assert a + b == a;
    } else {
      assert (a + b)[..|a + b| - 1] == a + b[..|b| - 1];
      PlaceConcat(le, a, b[..|b| - 1], x);
    }
  }

  lemma PlaceAroundPair<T(!new)>(le: (T, T) -> bool, a: seq<T>, f: T, g: T, b: seq<T>, x: T)
    requires Tied(le, f, g)
    ensures Place(le, a + [f, g] + b, x) ==
      var p := Place(le, b, x); if p > 0 || le(f, x) then |a| + 2 + p else Place(le, a, x)
  {
    PlaceConcat(le, a + [f, g], b, x);
    PlaceConcat(le, a, [f, g], x);
    assert [f, g][..1] == [f] && [f][..0] == [];
  }

  lemma SpliceAfter<T>(a: seq<T>, b: seq<T>, p: nat, x: T)
    requires p <= |b|
    ensures (a + b)[..|a| + p] + [x] + (a + b)[|a| + p..] == a + (b[..p] + [x] + b[p..])
  {}

  lemma SpliceBefore<T>(a: seq<T>, b: seq<T>, q: nat, x: T)
    requires q <= |a|
    ensures (a + b)[..q] + [x] + (a + b)[q..] == (a[..q] + [x] + a[q..]) + b
  {}

  /** Where x goes, seen from a tied pair. */
  function InsertedBefore<T>(le: (T, T) -> bool, a: seq<T>, f: T, b: seq<T>, x: T): seq<T> {
    if Place(le, b, x) > 0 || le(f, x) then a else Insert(le, a, x)
  }

  function InsertedBehind<T>(le: (T, T) -> bool, f: T, b: seq<T>, x: T): seq<T> {
    if Place(le, b, x) > 0 || le(f, x) then Insert(le, b, x) else b
  }

  lemma InsertAroundPair<T(!new)>(le: (T, T) -> bool, a: seq<T>, f: T, g: T, b: seq<T>, x: T)
    requires Tied(le, f, g)
    ensures Insert(le, a + [f, g] + b, x) == InsertedBefore(le, a, f, b, x) + [f, g] + InsertedBehind(le, f, b, x)
  {
    PlaceAroundPair(le, a, f, g, b, x);
    var p := Place(le, b, x);
    if p > 0 || le(f, x) {
      SpliceAfter(a + [f, g], b, p, x);
    } else {
      var q, pair := Place(le, a, x), [f, g];
      SpliceBefore(a, pair + b, q, x);
      assert a + pair + b == a + (pair + b);
      assert Insert(le, a, x) + pair + b == Insert(le, a, x) + (pair + b);
    }
  }

  lemma SortLast<T>(le: (T, T) -> bool, s: seq<T>, x: T)
    ensures Sort(le, s + [x]) == Insert(le, Sort(le, s), x)
  {
    assert (s + [x])[..|s + [x]| - 1] == s;
  }

  lemma SortPair<T>(le: (T, T) -> bool, f: T, g: T)
    requires le(f, g)
    ensures Sort(le, [f, g]) == [f, g]
  {
    assert [f, g][..1] == [f] && [f][..0] == [];
    assert Sort(le, [f]) == [f];
  }

  /** What ends up before and behind a tied pair when rest is sorted in after it. */
  function Around<T>(le: (T, T) -> bool, f: T, rest: seq<T>): (seq<T>, seq<T>) {
    if rest == [] then ([], [])
    else
      var (a, b) := Around(le, f, rest[..|rest| - 1]);
      (InsertedBefore(le, a, f, b, rest[|rest| - 1]), InsertedBehind(le, f, b, rest[|rest| - 1]))
  }

  lemma {:induction false} AroundTied<T(!new)>(le: (T, T) -> bool, f: T, g: T, rest: seq<T>)
    requires Tied(le, f, g)
    ensures Around(le, f, rest) == Around(le, g, rest)
    decreases |rest|
  {
    if rest != [] {
      AroundTied(le, f, g, rest[..|rest| - 1]);
    }
  }

  lemma AroundLast<T>(le: (T, T) -> bool, f: T, front: seq<T>, x: T)
    ensures var (a, b) := Around(le, f, front);
      Around(le, f, front + [x]) == (InsertedBefore(le, a, f, b, x), InsertedBehind(le, f, b, x))
  {
    assert (front + [x])[..|front + [x]| - 1] == front;
  }

  /** f and g end up side by side, in the order given. */
  ghost predicate SideBySide<T>(le: (T, T) -> bool, f: T, g: T, rest: seq<T>) {
    Sort(le, [f, g] + rest) == Around(le, f, rest).0 + [f, g] + Around(le, f, rest).1
  }

  lemma SideBySideAlone<T>(le: (T, T) -> bool, f: T, g: T)
    requires le(f, g)
    ensures SideBySide(le, f, g, [])
  {
    SortPair(le, f, g);
    assert [f, g] + [] == [f, g] && [] + [f, g] + [] == [f, g];
  }

  lemma SideBySideLast<T(!new)>(le: (T, T) -> bool, f: T, g: T, front: seq<T>, x: T)
    requires Tied(le, f, g) && SideBySide(le, f, g, front)
    ensures SideBySide(le, f, g, front + [x])
  {
    var (a, b) := Around(le, f, front);
    assert [f, g] + (front + [x]) == [f, g] + front + [x];
    SortLast(le, [f, g] + front, x);
    InsertAroundPair(le, a, f, g, b, x);
    AroundLast(le, f, front, x);
  }

  /** Stability once more: a tied pair at the front of a list stays together, at a place that does not depend
      on which of the two comes first. */
  lemma {:induction false} SortAroundPair<T(!new)>(le: (T, T) -> bool, f: T, g: T, rest: seq<T>)
    requires Tied(le, f, g)
    ensures SideBySide(le, f, g, rest)
    decreases |rest|
  {
    if rest == [] {
      SideBySideAlone(le, f, g);
    } else {
      var front, x := rest[..|rest| - 1], rest[|rest| - 1];
      SortAroundPair(le, f, g, front);
      SideBySideLast(le, f, g, front, x);
      assert rest == front + [x];
    }
  }

  lemma SwapTiedPair<T(!new)>(le: (T, T) -> bool, f: T, g: T, rest: seq<T>) returns (a: seq<T>, b: seq<T>)
    requires Tied(le, f, g)
    ensures Sort(le, [f, g] + rest) == a + [f, g] + b && Sort(le, [g, f] + rest) == a + [g, f] + b
  {
    SortAroundPair(le, f, g, rest);
    SortAroundPair(le, g, f, rest);
    AroundTied(le, f, g, rest);
    a, b := Around(le, f, rest).0, Around(le, f, rest).1;
  }

  /** In-place insertion sort. */
  method InsertionSort<T>(le: (T, T) -> bool, a: array<T>)
    modifies a
    ensures a[..] == Sort(le, old(a[..]))
  {
    ghost var was := a[..];
    for i := 0 to a.Length
      invariant a[..i] == Sort(le, was[..i])
      invariant forall k | i <= k < a.Length :: a[k] == was[k]
    {
      assert was[..i + 1][..i] == was[..i];
      SinkLast(le, a, i, Sort(le, was[..i]));
    }
    assert was[..a.Length] == was && a[..a.Length] == a[..];
  }

  /** Moves the element at i down to its place in the sorted prefix p. */
  method SinkLast<T>(le: (T, T) -> bool, a: array<T>, i: nat, ghost p: seq<T>)
    requires i < a.Length && |p| == i && a[..i] == p
    modifies a
    ensures a[..i + 1] == Insert(le, p, old(a[i]))
    ensures forall k | i < k < a.Length :: a[k] == old(a[k])
  {
    ghost var x := a[i];
    assert forall k | 0 <= k < i :: a[k] == a[..i][k];
    var j := i;
    while j > 0 && !le(a[j - 1], a[j])
      invariant 0 <= j <= i && a[j] == x
      invariant forall k | 0 <= k < j :: a[k] == p[k]
      invariant forall k | j < k <= i :: a[k] == p[k - 1]
      invariant forall k | i < k < a.Length :: a[k] == old(a[k])
      invariant forall k | j <= k < i :: !le(p[k], x)
    {
      a[j - 1], a[j] := a[j], a[j - 1];
      j := j - 1;
    }
    assert Place(le, p, x) == j;
    assert a[..i + 1] == p[..j] + [x] + p[j..];
  }
}
