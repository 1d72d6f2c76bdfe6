/** NetJSON trees as the Go code holds them, and the prioritised deep merge. */
module NetJson {
  import opened Base
  import Sorting

  /** A decoded JSON tree plus the two Go values that overlays put into one:
      int, and []string, which may be nil. */
  datatype Json =
    | Null
    | Bool(flag: bool)
    | Num(value: real)
    | Str(text: string)
    | Arr(items: seq<Json>)
    | Obj(fields: map<string, Json>)
    | GoInt(n: int)
    | GoStrings(list: Option<seq<string>>)

  type Fields = map<string, Json>

  type Path = seq<string>

  /** The value a JSON round trip (marshal, then unmarshal into any) returns. */
  function Normal(x: Json): Json {
    match x
    case Arr(items) => Arr(seq(|items|, i requires 0 <= i < |items| => Normal(items[i])))
    case Obj(fields) => Obj(map k | k in fields :: Normal(fields[k]))
    case GoInt(n) => Num(n as real)
    case GoStrings(None) => Null
    case GoStrings(Some(list)) => Arr(seq(|list|, i requires 0 <= i < |list| => Str(list[i])))
    case _ => x
  }

  /** Only what encoding/json itself produces. */
  predicate IsNormal(x: Json) {
    match x
    case Arr(items) => forall i | 0 <= i < |items| :: IsNormal(items[i])
    case Obj(fields) => forall k | k in fields :: IsNormal(fields[k])
    case GoInt(_) => false
    case GoStrings(_) => false
    case _ => true
  }

  lemma {:induction false} NormalIsNormal(x: Json)
    ensures IsNormal(Normal(x))
  {
    match x
    case Arr(items) =>
      forall i | 0 <= i < |items| ensures IsNormal(Normal(items[i])) { NormalIsNormal(items[i]); }
    case Obj(fields) =>
      forall k | k in fields ensures IsNormal(Normal(fields[k])) { NormalIsNormal(fields[k]); }
    case _ =>
  }

  /** The normal trees are exactly the fixed points of the round trip. */
  lemma {:induction false} NormalFixes(x: Json)
    ensures IsNormal(x) <==> Normal(x) == x
  {
    NormalIsNormal(x);
    if IsNormal(x) {
      match x
      case Arr(items) =>
        forall i | 0 <= i < |items| ensures Normal(items[i]) == items[i] { NormalFixes(items[i]); }
      case Obj(fields) =>
        forall k | k in fields ensures Normal(fields[k]) == fields[k] { NormalFixes(fields[k]); }
        assert (map k | k in fields :: Normal(fields[k])) == fields;
      case _ =>
    }
  }

  /** y laid over x: objects merge key by key, everything else in y replaces what x has. */
  function Overlay(x: Json, y: Json): Json
    decreases y
  {
    if x.Obj? && y.Obj? then
      Obj(map k | k in x.fields.Keys + y.fields.Keys ::
            if k !in y.fields then Normal(x.fields[k])
            else if k !in x.fields then Normal(y.fields[k])
            else Overlay(x.fields[k], y.fields[k]))
    else Normal(y)
  }

  lemma NormalTwice(x: Json)
    ensures Normal(Normal(x)) == Normal(x)
  {
    NormalIsNormal(x);
    NormalFixes(Normal(x));
  }

  /** The result of an overlay is JSON-normal, whatever Go values the inputs hold. */
  lemma {:induction false} OverlayIsNormal(x: Json, y: Json)
    ensures IsNormal(Overlay(x, y))
    decreases y
  {
    NormalIsNormal(y);
    if x.Obj? && y.Obj? {
      forall k | k in x.fields.Keys + y.fields.Keys ensures IsNormal(Overlay(x, y).fields[k]) {
        if k !in y.fields {
          NormalIsNormal(x.fields[k]);
        } else if k !in x.fields {
          NormalIsNormal(y.fields[k]);
        } else {
          OverlayIsNormal(x.fields[k], y.fields[k]);
        }
      }
    }
  }

  /** Cloning what lies below first makes no difference. */
  lemma {:induction false} OverlayNormalBelow(x: Json, y: Json)
    ensures Overlay(Normal(x), y) == Overlay(x, y)
    decreases y
  {
    if x.Obj? && y.Obj? {
      forall k | k in x.fields ensures Normal(Normal(x.fields[k])) == Normal(x.fields[k]) {
        NormalTwice(x.fields[k]);
      }
      forall k | k in x.fields && k in y.fields
        ensures Overlay(Normal(x.fields[k]), y.fields[k]) == Overlay(x.fields[k], y.fields[k])
      {
        OverlayNormalBelow(x.fields[k], y.fields[k]);
      }
    }
  }

  /** Cloning what is laid on top first makes no difference. */
  lemma {:induction false} OverlayNormalAbove(x: Json, y: Json)
    ensures Overlay(x, Normal(y)) == Overlay(x, y)
    decreases y
  {
    NormalTwice(y);
    if x.Obj? && y.Obj? {
      forall k | k in y.fields ensures Normal(Normal(y.fields[k])) == Normal(y.fields[k]) {
        NormalTwice(y.fields[k]);
      }
      forall k | k in x.fields && k in y.fields
        ensures Overlay(x.fields[k], Normal(y.fields[k])) == Overlay(x.fields[k], y.fields[k])
      {
        OverlayNormalAbove(x.fields[k], y.fields[k]);
      }
    }
  }

  function CloneMap(m: Fields): Fields {
    map k | k in m :: Normal(m[k])
  }

  /** The map-range loop of deepMerge, with the iteration order left open. */
  method DeepMerge(dst: Fields, src: Fields) returns (out: Fields)
    ensures Obj(out) == Overlay(Obj(dst), Obj(src))
    decreases Obj(src)
  {
    ghost var goal := Overlay(Obj(dst), Obj(src)).fields;
    out := CloneMap(dst);
    var todo := src.Keys;
    while todo != {}
      invariant todo <= src.Keys
      invariant out.Keys == dst.Keys + (src.Keys - todo)
      invariant forall k | k in out :: out[k] == if k in todo then Normal(dst[k]) else goal[k]
    {
      var k :| k in todo;
      var v := DeepMergeAt(out, dst, src, k);
      out := out[k := v];
      todo := todo - {k};
    }
    assert out == goal;
  }

  /** One round of the loop: what is stored under k. */
  method DeepMergeAt(out: Fields, ghost dst: Fields, src: Fields, k: string) returns (v: Json)
    requires k in src && (k in out <==> k in dst) && (k in out ==> out[k] == Normal(dst[k]))
    ensures v == Overlay(Obj(dst), Obj(src)).fields[k]
    decreases Obj(src), 0
  {
    assert src[k] < Obj(src);
    if k in out && out[k].Obj? && src[k].Obj? {
      OverlayNormalBelow(dst[k], src[k]);
      var merged := DeepMerge(out[k].fields, src[k].fields);
      return Obj(merged);
    }
    return Normal(src[k]);
  }

  datatype Source = Source(name: string, priority: int, json: Option<Fields>)

  predicate NotAbove(s: Source, t: Source) { s.priority <= t.priority }

  /** The sources in the order Merge lays them down. */
  function InOrder(sources: seq<Source>): seq<Source> {
    Sorting.Sort(NotAbove, sources)
  }

  /** One source laid on what the sources below it gave; nil JSON is skipped. */
  function Laid(below: Option<Fields>, top: Option<Fields>): Option<Fields> {
    if top.None? then below
    else if below.None? then Some(CloneMap(top.value))
    else Some(Overlay(Obj(below.value), Obj(top.value)).fields)
  }

  /** Laying sources down one after the other; nil is returned when all are nil. */
  function Stack(sources: seq<Source>): Option<Fields> {
    if |sources| == 0 then None else Laid(Stack(sources[..|sources| - 1]), sources[|sources| - 1].json)
  }

  function Merged(sources: seq<Source>): Option<Fields> {
    if |sources| == 0 then Some(map[]) else Stack(InOrder(sources))
  }

  method LayDown(below: Option<Fields>, top: Option<Fields>) returns (out: Option<Fields>)
    ensures out == Laid(below, top)
  {
    if top.None? {
      return below;
    }
    if below.None? {
      return Some(CloneMap(top.value));
    }
    var merged := DeepMerge(below.value, top.value);
    return Some(merged);
  }

  /** Merge: sorts the caller's slice in place, then folds. */
  method Merge(sources: array<Source>) returns (out: Option<Fields>)
    modifies sources
    ensures sources[..] == InOrder(old(sources[..]))
    ensures out == Merged(old(sources[..]))
  {
    if sources.Length == 0 {
      return Some(map[]);
    }
    Sorting.InsertionSort(NotAbove, sources);
    ghost var sorted := sources[..];
    out := None;
    for i := 0 to sources.Length
      invariant sources[..] == sorted
      invariant out == Stack(sorted[..i])
    {
      assert sorted[..i + 1][..i] == sorted[..i] && sources[i] == sorted[i];
      out := LayDown(out, sources[i].json);
    }
    assert sorted[..sources.Length] == sorted;
  }
}
