/** What a merge means, path by path, and when laying down overlays is associative. */
module MergeLaws {
  import opened Base
  import opened NetJson
  import Sorting

  /** The value at path p. */
  function At(x: Json, p: Path): Option<Json>
    decreases |p|
  {
    if p == [] then Some(x)
    else if x.Obj? && p[0] in x.fields then At(x.fields[p[0]], p[1..])
    else None
  }

  datatype Content = Branch | Leaf(value: Json)

  /** What a reader of the tree meets at p: an object, a value that is not an object, or nothing. */
  function Slot(x: Json, p: Path): Option<Content> {
    match At(x, p)
    case None => None
    case Some(Obj(_)) => Some(Branch)
    case Some(v) => Some(Leaf(v))
  }

  /** x has a value at p, or a value that is not an object above p. */
  predicate Touches(x: Json, p: Path)
    decreases |p|
  {
    p == [] || !x.Obj? || (p[0] in x.fields && Touches(x.fields[p[0]], p[1..]))
  }

  /** The recursive test says what it should: something at p, or a non-object at a strict prefix. */
  lemma {:induction false} TouchesMeans(x: Json, p: Path)
    ensures Touches(x, p) <==>
      At(x, p).Some? || exists n: nat :: n < |p| && At(x, p[..n]).Some? && !At(x, p[..n]).value.Obj?
    decreases |p|
  {
    if p != [] {
      assert p[..0] == [];
      if x.Obj? && p[0] in x.fields {
        var y, q := x.fields[p[0]], p[1..];
        TouchesMeans(y, q);
        forall n: nat | n < |q| ensures At(y, q[..n]) == At(x, p[..n + 1]) {
          assert p[..n + 1][1..] == q[..n];
        }
        if n: nat :| n < |q| && At(y, q[..n]).Some? && !At(y, q[..n]).value.Obj? {
          assert At(x, p[..n + 1]) == At(y, q[..n]);
        }
        if n: nat :| n < |p| && At(x, p[..n]).Some? && !At(x, p[..n]).value.Obj? {
          assert n > 0 && At(x, p[..n]) == At(y, q[..n - 1]);
        }
      } else if x.Obj? {
        forall n: nat | n < |p| && n > 0 ensures At(x, p[..n]).None? {
          assert p[..n][0] == p[0];
        }
      } else {
        assert At(x, p[..0]) == Some(x);
      }
    }
  }

  lemma {:induction false} AtNormal(x: Json, p: Path)
    ensures At(Normal(x), p) == match At(x, p) case None => None case Some(v) => Some(Normal(v))
    decreases |p|
  {
    if p != [] && x.Obj? && p[0] in x.fields {
      AtNormal(x.fields[p[0]], p[1..]);
    }
  }

  /** y is what a JSON document holds for x: an int is its number, a list of strings is an array of them, a nil
      list is null, and everything else is itself. */
  ghost predicate Encodes(x: Json, y: Json)
    decreases x
  {
    match x
    case Null => y == Null
    case Bool(flag) => y == Bool(flag)
    case Num(value) => y == Num(value)
    case Str(text) => y == Str(text)
    case GoInt(n) => y == Num(n as real)
    case GoStrings(None) => y == Null
    case GoStrings(Some(list)) => y.Arr? && |y.items| == |list| && forall i | 0 <= i < |list| :: y.items[i] == Str(list[i])
    case Arr(items) => y.Arr? && |y.items| == |items| && forall i | 0 <= i < |items| :: Encodes(items[i], y.items[i])
    case Obj(fields) => y.Obj? && y.fields.Keys == fields.Keys && forall k | k in fields :: Encodes(fields[k], y.fields[k])
  }

  /** The round trip gives the JSON value, and there is only one. */
  lemma {:induction false} NormalEncodes(x: Json, y: Json)
    ensures Encodes(x, y) <==> Normal(x) == y
    decreases x
  {
    match x
    case Arr(items) =>
      if y.Arr? && |y.items| == |items| {
        forall i | 0 <= i < |items| ensures Encodes(items[i], y.items[i]) <==> Normal(items[i]) == y.items[i] {
          NormalEncodes(items[i], y.items[i]);
        }
        assert Normal(x) == y <==> forall i | 0 <= i < |items| :: Normal(x).items[i] == y.items[i];
      }
    case Obj(fields) =>
      if y.Obj? && y.fields.Keys == fields.Keys {
        forall k | k in fields ensures Encodes(fields[k], y.fields[k]) <==> Normal(fields[k]) == y.fields[k] {
          NormalEncodes(fields[k], y.fields[k]);
        }
        assert Normal(x).fields.Keys == fields.Keys;
        assert Normal(x) == y <==> forall k | k in fields :: Normal(x).fields[k] == y.fields[k];
      }
    case GoStrings(Some(list)) =>
      if y.Arr? && |y.items| == |list| {
        assert Normal(x) == y <==> forall i | 0 <= i < |list| :: Normal(x).items[i] == y.items[i];
      }
    case _ =>
  }

  /** One overlay: the upper tree decides every path it touches, the lower tree the rest. */
  lemma {:induction false} OverlaySlot(x: Json, y: Json, p: Path)
    ensures Slot(Overlay(x, y), p) == Slot(Normal(if Touches(y, p) then y else x), p)
    decreases |p|
  {
    if p != [] && x.Obj? && y.Obj? && p[0] in x.fields && p[0] in y.fields {
      OverlaySlot(x.fields[p[0]], y.fields[p[0]], p[1..]);
    } else if p != [] && y.Obj? && p[0] in y.fields {
      UntouchedIsEmpty(y.fields[p[0]], p[1..]);
    }
  }

  /** A value of the upper tree that is not an object arrives at its path as its JSON value: ints as numbers,
      string lists as arrays, at any depth below it too. */
  lemma OverlayValue(x: Json, y: Json, p: Path, v: Json)
    requires At(y, p) == Some(v) && !v.Obj?
    ensures At(Overlay(x, y), p).Some? && Encodes(v, At(Overlay(x, y), p).value)
  {
    TouchesMeans(y, p);
    OverlaySlot(x, y, p);
    AtNormal(y, p);
    NormalEncodes(v, Normal(v));
    assert !Normal(v).Obj?;
    assert Slot(Overlay(x, y), p) == Some(Leaf(Normal(v)));
  }

  /** In particular the Go values that overlays bring. */
  lemma OverlayGoValues(x: Json, y: Json, p: Path)
    ensures forall n | At(y, p) == Some(GoInt(n)) :: At(Overlay(x, y), p) == Some(Num(n as real))
    ensures At(y, p) == Some(GoStrings(None)) ==> At(Overlay(x, y), p) == Some(Null)
    ensures forall list | At(y, p) == Some(GoStrings(Some(list))) ::
      && At(Overlay(x, y), p).Some? && At(Overlay(x, y), p).value.Arr?
      && var items := At(Overlay(x, y), p).value.items;
      && |items| == |list| && forall i | 0 <= i < |list| :: items[i] == Str(list[i])
  {
    if At(y, p).Some? && (At(y, p).value.GoInt? || At(y, p).value.GoStrings?) {
      OverlayValue(x, y, p, At(y, p).value);
    }
  }

  lemma {:induction false} UntouchedIsEmpty(y: Json, p: Path)
    ensures !Touches(y, p) ==> At(Normal(y), p).None?
    decreases |p|
  {
    if p != [] && y.Obj? && p[0] in y.fields {
      UntouchedIsEmpty(y.fields[p[0]], p[1..]);
    }
  }

  lemma AtKey(x: Json, k: string)
    requires x.Obj?
    ensures At(x, [k]) == if k in x.fields then Some(x.fields[k]) else None
  {
    assert [k][1..] == [];
    if k in x.fields {
      assert At(x.fields[k], []) == Some(x.fields[k]);
    }
  }

  /** Trees that answer alike on every path are equal, so the slot theorems determine the merge. */
  lemma {:induction false} SlotsDetermine(x: Json, y: Json)
    requires forall p: Path :: Slot(x, p) == Slot(y, p)
    ensures x == y
    decreases x
  {
    assert Slot(x, []) == Slot(y, []);
    if x.Obj? {
      forall k ensures k in x.fields <==> k in y.fields {
        assert Slot(x, [k]) == Slot(y, [k]);
        AtKey(x, k);
        AtKey(y, k);
      }
      forall k | k in x.fields ensures x.fields[k] == y.fields[k] {
        forall p: Path ensures Slot(x.fields[k], p) == Slot(y.fields[k], p) {
          assert ([k] + p)[1..] == p;
          assert Slot(x, [k] + p) == Slot(y, [k] + p);
        }
        SlotsDetermine(x.fields[k], y.fields[k]);
      }
      assert x.fields == y.fields;
    }
  }

  /** Does this source have a say at p? */
  function Speaks(p: Path): Source -> bool {
    (s: Source) => s.json.Some? && Touches(Obj(s.json.value), p)
  }

  /** The slot a source asks for at p. */
  function Says(s: Source, p: Path): Option<Content>
    requires s.json.Some?
  {
    Slot(Normal(Obj(s.json.value)), p)
  }

  /** A stack of sources reads, at every path, like the last source that touches the path. */
  lemma {:induction false} StackSlot(ts: seq<Source>, p: Path)
    ensures Stack(ts).None? <==> forall s | s in ts :: s.json.None?
    ensures Stack(ts).Some? ==>
      Slot(Obj(Stack(ts).value), p) ==
        match Sorting.LastWhere(Speaks(p), ts) case None => None case Some(s) => Says(s, p)
  {
    if |ts| != 0 {
      var front, s := ts[..|ts| - 1], ts[|ts| - 1];
      assert ts == front + [s];
      StackSlot(front, p);
      if s.json.Some? {
        var top := Obj(s.json.value);
        if Stack(front).None? {
          assert Obj(CloneMap(s.json.value)) == Normal(top);
          UntouchedIsEmpty(top, p);
        } else {
          var below := Obj(Stack(front).value);
          StackIsNormal(front);
          NormalFixes(below);
          OverlaySlot(below, top, p);
        }
      }
    }
  }

  /** A merge never holds a Go int or string slice, even when a source does. */
  lemma {:induction false} StackIsNormal(ts: seq<Source>)
    ensures Stack(ts).Some? ==> IsNormal(Obj(Stack(ts).value))
  {
    if |ts| != 0 {
      StackIsNormal(ts[..|ts| - 1]);
      var top := ts[|ts| - 1].json;
      if top.Some? {
        NormalIsNormal(Obj(top.value));
        assert Obj(CloneMap(top.value)) == Normal(Obj(top.value));
        if Stack(ts[..|ts| - 1]).Some? {
          OverlayIsNormal(Obj(Stack(ts[..|ts| - 1]).value), Obj(top.value));
        }
      }
    }
  }

  lemma PriorityIsTotal()
    ensures Sorting.TotalPreorder(NotAbove)
  {}

  /** The source that decides path p: it touches p, no toucher has a higher priority, and among
      equal priorities none comes later in the caller's list. */
  ghost predicate Decides(sources: seq<Source>, p: Path, i: nat) {
    && i < |sources| && Speaks(p)(sources[i])
    && (forall j | 0 <= j < |sources| && Speaks(p)(sources[j]) :: sources[j].priority <= sources[i].priority)
    && (forall j | i < j < |sources| && Speaks(p)(sources[j]) :: sources[j].priority < sources[i].priority)
  }

  /** The path semantics of Merge over the caller's unsorted list. */
  lemma MergeSlot(sources: seq<Source>, p: Path)
    requires Merged(sources).Some?
    ensures forall i: nat | Decides(sources, p, i) ::
      Slot(Obj(Merged(sources).value), p) == Says(sources[i], p)
    ensures (forall i: nat :: !Decides(sources, p, i)) && p != [] ==>
      Slot(Obj(Merged(sources).value), p).None?
    ensures (exists s | s in sources :: Speaks(p)(s)) ==> exists i: nat :: Decides(sources, p, i)
  {
    if |sources| != 0 {
      var ts, f := InOrder(sources), Speaks(p);
      PriorityIsTotal();
      StackSlot(ts, p);
      Sorting.LastWhereSort(NotAbove, f, sources);
      forall i: nat | i < |sources| ensures Decides(sources, p, i) <==> Sorting.Wins(NotAbove, f, sources, i) {}
      if Sorting.LastWhere(f, ts).Some? {
        var w: nat :| Sorting.Wins(NotAbove, f, sources, w) && sources[w] == Sorting.LastWhere(f, ts).value;
        assert Decides(sources, p, w);
        forall i: nat | Decides(sources, p, i) ensures i == w {
          Sorting.WinsUnique(NotAbove, f, sources, i, w);
        }
      } else {
        forall i: nat ensures !Decides(sources, p, i) {
          if i < |sources| { assert sources[i] in sources; }
        }
      }
    }
  }

  /** A value that is not an object stands at p in the merge exactly when the deciding source put it there. */
  lemma MergeLeaf(sources: seq<Source>, p: Path, v: Json)
    requires Merged(sources).Some? && p != []
    ensures Slot(Obj(Merged(sources).value), p) == Some(Leaf(v)) <==>
      exists i: nat :: Decides(sources, p, i) && Says(sources[i], p) == Some(Leaf(v))
  {
    MergeSlot(sources, p);
  }

  /** The value a deciding source has at p, when it is not an object, is in the merge as its JSON value. */
  lemma MergeValue(sources: seq<Source>, p: Path, i: nat, v: Json)
    requires Merged(sources).Some? && Decides(sources, p, i)
    requires At(Obj(sources[i].json.value), p) == Some(v) && !v.Obj?
    ensures At(Obj(Merged(sources).value), p).Some? && Encodes(v, At(Obj(Merged(sources).value), p).value)
  {
    MergeSlot(sources, p);
    AtNormal(Obj(sources[i].json.value), p);
    NormalEncodes(v, Normal(v));
    assert !Normal(v).Obj?;
  }

  /** Merge returns nil only for a non-empty list of nils. */
  lemma MergeNil(sources: seq<Source>)
    ensures Merged(sources).None? <==> sources != [] && forall s | s in sources :: s.json.None?
  {
    if sources != [] {
      StackSlot(InOrder(sources), []);
      Sorting.SortPermutes(NotAbove, sources);
      forall s ensures s in sources <==> s in InOrder(sources) {
        assert s in multiset(sources) <==> s in multiset(InOrder(sources));
      }
    }
  }

  // ---- when the order of the caller's list shows ----

  /** s has a say at p, and no source with one has a higher priority. */
  predicate Top(sources: seq<Source>, p: Path, s: Source) {
    s in sources && Speaks(p)(s) && forall t | t in sources && Speaks(p)(t) :: t.priority <= s.priority
  }

  ghost predicate TopsAgreeAt(sources: seq<Source>, p: Path) {
    forall s, t | Top(sources, p, s) && Top(sources, p, t) :: Says(s, p) == Says(t, p)
  }

  /** At every path the sources of highest priority that have a say there say the same. */
  ghost predicate TopsAgree(sources: seq<Source>) {
    forall p: Path :: TopsAgreeAt(sources, p)
  }

  lemma SameMembers(sources: seq<Source>, others: seq<Source>)
    requires multiset(sources) == multiset(others)
    ensures forall s :: s in sources <==> s in others
    ensures Merged(sources).None? <==> Merged(others).None?
    ensures sources == [] <==> others == []
  {
    assert |sources| == |multiset(sources)| == |multiset(others)| == |others|;
    forall s ensures s in sources <==> s in others {
      assert s in multiset(sources) <==> s in multiset(others);
    }
    MergeNil(sources);
    MergeNil(others);
  }

  lemma DeciderIsTop(sources: seq<Source>, p: Path, i: nat)
    requires Decides(sources, p, i)
    ensures Top(sources, p, sources[i])
  {
    forall t | t in sources && Speaks(p)(t) ensures t.priority <= sources[i].priority {
      var j :| 0 <= j < |sources| && sources[j] == t;
    }
  }

  lemma SameSlot(sources: seq<Source>, others: seq<Source>, p: Path)
    requires multiset(sources) == multiset(others) && TopsAgreeAt(sources, p)
    requires Merged(sources).Some? && Merged(others).Some?
    ensures Slot(Obj(Merged(sources).value), p) == Slot(Obj(Merged(others).value), p)
  {
    SameMembers(sources, others);
    MergeSlot(sources, p);
    MergeSlot(others, p);
    if s :| s in sources && Speaks(p)(s) {
      assert s in others;
      var i: nat :| Decides(sources, p, i);
      var j: nat :| Decides(others, p, j);
      DeciderIsTop(sources, p, i);
      DeciderIsTop(others, p, j);
      assert Top(sources, p, others[j]);
    }
  }

  lemma MergedAlike(sources: seq<Source>, others: seq<Source>)
    requires multiset(sources) == multiset(others) && TopsAgree(sources)
    ensures Merged(sources) == Merged(others)
  {
    SameMembers(sources, others);
    if Merged(sources).Some? {
      var x, y := Obj(Merged(sources).value), Obj(Merged(others).value);
      forall p: Path ensures Slot(x, p) == Slot(y, p) {
        assert TopsAgreeAt(sources, p);
        SameSlot(sources, others, p);
      }
      SlotsDetermine(x, y);
    }
  }

  /** A top source at the end of the list decides. */
  lemma LastTopDecides(sources: seq<Source>, p: Path, front: seq<Source>, s: Source)
    requires multiset(front + [s]) == multiset(sources) && Top(sources, p, s)
    ensures Merged(front + [s]).Some? && Slot(Obj(Merged(front + [s]).value), p) == Says(s, p)
  {
    var list := front + [s];
    SameMembers(list, sources);
    MergeNil(list);
    assert list[|front|] == s && s in list;
    MergeSlot(list, p);
    assert Decides(list, p, |front|);
  }

  lemma PairAtEnd(rest: seq<Source>, s: Source, t: Source)
    ensures multiset(rest + [s] + [t]) == multiset([s, t] + rest)
  {}

  lemma OrderShows(sources: seq<Source>, p: Path) returns (others: seq<Source>)
    requires !TopsAgreeAt(sources, p)
    ensures multiset(others) == multiset(sources) && Merged(others) != Merged(sources)
  {
    var s, t :| Top(sources, p, s) && Top(sources, p, t) && Says(s, p) != Says(t, p);
    var rest := Sorting.TakePair(sources, s, t);
    var one, two := rest + [s] + [t], rest + [t] + [s];
    PairAtEnd(rest, s, t);
    PairAtEnd(rest, t, s);
    LastTopDecides(sources, p, rest + [s], t);
    LastTopDecides(sources, p, rest + [t], s);
    others := if Merged(one) == Merged(sources) then two else one;
  }

  /** Every order of the caller's list merges alike, if and only if at each path the sources of highest
      priority that have a say there say the same. */
  lemma MergeOrderInvisibleIff(sources: seq<Source>)
    ensures (forall others | multiset(others) == multiset(sources) :: Merged(others) == Merged(sources)) <==> TopsAgree(sources)
  {
    if TopsAgree(sources) {
      forall others | multiset(others) == multiset(sources) ensures Merged(others) == Merged(sources) {
        MergedAlike(sources, others);
      }
    } else {
      var p: Path :| !TopsAgreeAt(sources, p);
      var others := OrderShows(sources, p);
    }
  }

  /** With distinct priorities the order of the caller's list does not matter. */
  lemma MergeIgnoresOrder(sources: seq<Source>, others: seq<Source>)
    requires multiset(sources) == multiset(others)
    requires forall s, t | s in sources && t in sources && s.priority == t.priority :: s == t
    ensures Merged(sources) == Merged(others)
  {
    MergedAlike(sources, others);
  }

  /** Every key of a is in c, and recursively so where both hold objects: a leaves no trace under c. */
  predicate Covers(c: Json, a: Json)
    requires a.Obj? && c.Obj?
    decreases a
  {
    forall k | k in a.fields ::
      k in c.fields && (a.fields[k].Obj? && c.fields[k].Obj? ==> Covers(c.fields[k], a.fields[k]))
  }

  lemma {:induction false} CoversMeans(c: Json, a: Json)
    requires a.Obj? && c.Obj?
    ensures Covers(c, a) <==> Overlay(a, c) == Normal(c)
    decreases a
  {
    forall k | k in a.fields && k in c.fields && a.fields[k].Obj? && c.fields[k].Obj?
      ensures Covers(c.fields[k], a.fields[k]) <==> Overlay(a.fields[k], c.fields[k]) == Normal(c.fields[k])
    {
      CoversMeans(c.fields[k], a.fields[k]);
    }
    var o, n := Overlay(a, c).fields, Normal(c).fields;
    if Covers(c, a) {
      forall k | k in o ensures k in n && o[k] == n[k] {
        if k in a.fields {
          assert o[k] == Overlay(a.fields[k], c.fields[k]);
          assert a.fields[k].Obj? && c.fields[k].Obj? ==> Covers(c.fields[k], a.fields[k]);
        }
      }
      assert o == n;
    } else {
      var k :| k in a.fields && !(k in c.fields && (a.fields[k].Obj? && c.fields[k].Obj? ==> Covers(c.fields[k], a.fields[k])));
      assert k in o && (k in n ==> o[k] != n[k]);
    }
  }

  /** At p the three trees hold an object, a non-object and an object, and the last does not cover the first. */
  predicate Clash(a: Json, b: Json, c: Json, p: Path) {
    && At(a, p).Some? && At(a, p).value.Obj?
    && At(b, p).Some? && !At(b, p).value.Obj?
    && At(c, p).Some? && At(c, p).value.Obj?
    && !Covers(At(c, p).value, At(a, p).value)
  }

  ghost predicate Associates(a: Json, b: Json, c: Json) {
    Overlay(Overlay(a, b), c) == Overlay(a, Overlay(b, c))
  }

  /** Associativity can only be lost where all three trees have a value, with objects at both ends. */
  lemma AssociatesByKey(a: Json, b: Json, c: Json)
    ensures !(a.Obj? && c.Obj?) ==> Associates(a, b, c)
    ensures a.Obj? && c.Obj? && !b.Obj? ==> (Associates(a, b, c) <==> Covers(c, a))
    ensures a.Obj? && b.Obj? && c.Obj? ==>
      (Associates(a, b, c) <==>
       forall k | k in a.fields && k in b.fields && k in c.fields :: Associates(a.fields[k], b.fields[k], c.fields[k]))
  {
    OverlayNormalBelow(b, c);
    OverlayNormalAbove(a, c);
    OverlayNormalAbove(b, c);
    OverlayIsNormal(b, c);
    NormalFixes(Overlay(b, c));
    NormalTwice(c);
    if a.Obj? && c.Obj? && !b.Obj? {
      CoversMeans(c, a);
    } else if a.Obj? && b.Obj? && c.Obj? {
      AssociatesObjects(a, b, c);
    }
  }

  lemma AssociatesObjects(a: Json, b: Json, c: Json)
    requires a.Obj? && b.Obj? && c.Obj?
    ensures Associates(a, b, c) <==>
      forall k | k in a.fields && k in b.fields && k in c.fields :: Associates(a.fields[k], b.fields[k], c.fields[k])
  {
    var l, r := Overlay(Overlay(a, b), c).fields, Overlay(a, Overlay(b, c)).fields;
    assert l.Keys == r.Keys;
    forall k | k in l
      ensures l[k] == r[k] <==> (k in a.fields && k in b.fields && k in c.fields ==> Associates(a.fields[k], b.fields[k], c.fields[k]))
    {
      OneKey(a, b, c, k);
    }
    if forall k | k in l :: l[k] == r[k] {
      assert l == r;
    }
  }

  lemma OneKey(a: Json, b: Json, c: Json, k: string)
    requires a.Obj? && b.Obj? && c.Obj? && k in Overlay(Overlay(a, b), c).fields
    ensures k in Overlay(a, Overlay(b, c)).fields
    ensures Overlay(Overlay(a, b), c).fields[k] == Overlay(a, Overlay(b, c)).fields[k] <==>
      (k in a.fields && k in b.fields && k in c.fields ==> Associates(a.fields[k], b.fields[k], c.fields[k]))
  {
    if k in a.fields {
      NormalTwice(a.fields[k]);
      if k in b.fields { OverlayIsNormal(a.fields[k], b.fields[k]); NormalFixes(Overlay(a.fields[k], b.fields[k])); OverlayNormalAbove(a.fields[k], b.fields[k]); }
      if k in c.fields { OverlayNormalBelow(a.fields[k], c.fields[k]); OverlayNormalAbove(a.fields[k], c.fields[k]); }
    }
    if k in b.fields {
      NormalTwice(b.fields[k]);
      if k in c.fields { OverlayNormalBelow(b.fields[k], c.fields[k]); OverlayIsNormal(b.fields[k], c.fields[k]); NormalFixes(Overlay(b.fields[k], c.fields[k])); }
    }
    if k in c.fields { NormalTwice(c.fields[k]); }
  }

  ghost predicate Clashes(a: Json, b: Json, c: Json) {
    exists p: Path :: Clash(a, b, c, p)
  }

  lemma ClashStep(a: Json, b: Json, c: Json, p: Path)
    requires a.Obj? && b.Obj? && c.Obj?
    ensures Clash(a, b, c, p) <==>
      && p != [] && p[0] in a.fields && p[0] in b.fields && p[0] in c.fields
      && Clash(a.fields[p[0]], b.fields[p[0]], c.fields[p[0]], p[1..])
  {}

  lemma ClashesByKey(a: Json, b: Json, c: Json)
    requires a.Obj? && b.Obj? && c.Obj?
    ensures Clashes(a, b, c) <==>
      exists k :: k in a.fields && k in b.fields && k in c.fields && Clashes(a.fields[k], b.fields[k], c.fields[k])
  {
    if p: Path :| Clash(a, b, c, p) {
      ClashStep(a, b, c, p);
      assert Clashes(a.fields[p[0]], b.fields[p[0]], c.fields[p[0]]);
    }
    if k, q: Path :| k in a.fields && k in b.fields && k in c.fields && Clash(a.fields[k], b.fields[k], c.fields[k], q) {
      assert ([k] + q)[1..] == q;
      ClashStep(a, b, c, [k] + q);
    }
  }

  /** Deep merge is associative on a, b, c exactly when no path clashes. */
  lemma {:induction false} AssociatesIff(a: Json, b: Json, c: Json)
    ensures Associates(a, b, c) <==> !Clashes(a, b, c)
    decreases a
  {
    AssociatesByKey(a, b, c);
    if a.Obj? && b.Obj? && c.Obj? {
      ClashesByKey(a, b, c);
      forall k | k in a.fields && k in b.fields && k in c.fields
        ensures Associates(a.fields[k], b.fields[k], c.fields[k]) <==> !Clashes(a.fields[k], b.fields[k], c.fields[k])
      {
        AssociatesIff(a.fields[k], b.fields[k], c.fields[k]);
      }
    } else if a.Obj? && c.Obj? {
      assert Clash(a, b, c, []) <==> !Covers(c, a);
    }
  }

  /** An object, then a scalar, then an object at one path: the grouping shows in the result. */
  lemma AssociativityFails()
    ensures
      var a, b, c := Obj(map["lan" := Obj(map["mtu" := Num(1500.0)])]), Obj(map["lan" := Null]), Obj(map["lan" := Obj(map[])]);
      !Associates(a, b, c) && Clash(a, b, c, ["lan"])
  {
    var a, b, c := Obj(map["lan" := Obj(map["mtu" := Num(1500.0)])]), Obj(map["lan" := Null]), Obj(map["lan" := Obj(map[])]);
    assert ["lan"][1..] == [];
    assert At(a, ["lan"]).value.fields.Keys == {"mtu"};
    assert "mtu" in At(a, ["lan"]).value.fields;
    assert Clash(a, b, c, ["lan"]);
    AssociatesIff(a, b, c);
  }
}
