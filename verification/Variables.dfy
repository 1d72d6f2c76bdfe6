/** Variable substitution: {"$var": path, "default": value} objects and template strings. */
module Variables {
  import opened Base
  import opened NetJson
  import opened MergeLaws

  function Lookup(vars: Fields, path: string): Option<Json> {
    At(Obj(vars), Split(path, '.'))
  }

  /** lookup walks the dotted path one step at a time. */
  method LookupStepwise(vars: Fields, path: string) returns (r: Option<Json>)
    ensures r == Lookup(vars, path)
  {
    var parts := Split(path, '.');
    var cur := Obj(vars);
    for i := 0 to |parts|
      invariant At(cur, parts[i..]) == Lookup(vars, path)
    {
      if !cur.Obj? || parts[i] !in cur.fields {
        return None;
      }
      assert parts[i..][1..] == parts[i + 1..];
      cur := cur.fields[parts[i]];
    }
    return Some(cur);
  }

  predicate IsVarObject(x: Json) {
    x.Obj? && "$var" in x.fields && x.fields["$var"].Str?
  }

  /** What walk puts in place of a $var object. */
  function Replacement(x: Json, vars: Fields): Json
    requires IsVarObject(x)
  {
    match Lookup(vars, x.fields["$var"].text)
    case Some(v) => v
    case None => if "default" in x.fields then x.fields["default"] else x
  }

  function Walk(x: Json, vars: Fields): Json
    decreases x
  {
    if IsVarObject(x) then Replacement(x, vars)
    else match x
      case Obj(fields) => Obj(map k | k in fields :: Walk(fields[k], vars))
      case Arr(items) => Arr(seq(|items|, i requires 0 <= i < |items| => Walk(items[i], vars)))
      case _ => x
  }

  /** The recursive closure walk, filling a fresh map or slice in a loop. */
  method WalkInto(x: Json, vars: Fields) returns (y: Json)
    ensures y == Walk(x, vars)
    decreases x
  {
    if IsVarObject(x) {
      var found := LookupStepwise(vars, x.fields["$var"].text);
      return if found.Some? then found.value else if "default" in x.fields then x.fields["default"] else x;
    }
    match x
    case Obj(fields) =>
      var out, todo := map[], fields.Keys;
      while todo != {}
        invariant todo <= fields.Keys && out.Keys == fields.Keys - todo
        invariant forall k | k in out :: out[k] == Walk(fields[k], vars)
      {
        var k :| k in todo;
        assert fields[k] < x;
        var v := WalkInto(fields[k], vars);
        out, todo := out[k := v], todo - {k};
      }
      assert out == Walk(x, vars).fields;
      return Obj(out);
    case Arr(items) =>
      var out := [];
      for i := 0 to |items|
        invariant |out| == i && forall j | 0 <= j < i :: out[j] == Walk(items[j], vars)
      {
        var v := WalkInto(items[i], vars);
        out := out + [v];
      }
      assert out == Walk(x, vars).items;
      return Arr(out);
    case _ =>
      return x;
  }

  /** No $var object anywhere that walk would look. */
  predicate NoVar(x: Json) {
    && !IsVarObject(x)
    && match x
       case Obj(fields) => forall k | k in fields :: NoVar(fields[k])
       case Arr(items) => forall i | 0 <= i < |items| :: NoVar(items[i])
       case _ => true
  }

  predicate VarsClean(vars: Fields) {
    forall k | k in vars :: NoVar(vars[k])
  }

  /** Every outermost $var object has an unresolvable path and no default. */
  predicate Settled(x: Json, vars: Fields)
    decreases x
  {
    if IsVarObject(x) then Lookup(vars, x.fields["$var"].text).None? && "default" !in x.fields
    else match x
      case Obj(fields) => forall k | k in fields :: Settled(fields[k], vars)
      case Arr(items) => forall i | 0 <= i < |items| :: Settled(items[i], vars)
      case _ => true
  }

  /** The first pass turns this object into a $var object: its "$var" key holds one that becomes a string. */
  predicate TurnsIntoVar(x: Json, vars: Fields) {
    && x.Obj? && !IsVarObject(x) && "$var" in x.fields
    && IsVarObject(x.fields["$var"]) && Replacement(x.fields["$var"], vars).Str?
  }

  /** What one pass needs: defaults it uses are settled, and objects it turns into $var objects
      are unresolvable and carry no default. */
  predicate OnePassSuffices(x: Json, vars: Fields)
    decreases x
  {
    if IsVarObject(x) then
      Lookup(vars, x.fields["$var"].text).None? && "default" in x.fields ==> Settled(x.fields["default"], vars)
    else if TurnsIntoVar(x, vars) then
      Lookup(vars, Replacement(x.fields["$var"], vars).text).None? && "default" !in x.fields
    else match x
      case Obj(fields) => forall k | k in fields :: OnePassSuffices(fields[k], vars)
      case Arr(items) => forall i | 0 <= i < |items| :: OnePassSuffices(items[i], vars)
      case _ => true
  }

  lemma {:induction false} NoVarAt(x: Json, p: Path)
    requires NoVar(x)
    ensures At(x, p).Some? ==> NoVar(At(x, p).value)
    decreases |p|
  {
    if p != [] && x.Obj? && p[0] in x.fields {
      NoVarAt(x.fields[p[0]], p[1..]);
    }
  }

  lemma LookupClean(vars: Fields, path: string)
    requires VarsClean(vars)
    ensures Lookup(vars, path).Some? ==> NoVar(Lookup(vars, path).value)
  {
    var parts := Split(path, '.');
    if parts[0] in vars {
      NoVarAt(vars[parts[0]], parts[1..]);
    }
  }

  lemma {:induction false} NoVarSettled(x: Json, vars: Fields)
    requires NoVar(x)
    ensures Settled(x, vars)
    decreases x
  {
    match x
    case Obj(fields) =>
      forall k | k in fields ensures Settled(fields[k], vars) { NoVarSettled(fields[k], vars); }
    case Arr(items) =>
      forall i | 0 <= i < |items| ensures Settled(items[i], vars) { NoVarSettled(items[i], vars); }
    case _ =>
  }

  /** A pass changes nothing exactly on settled trees. */
  lemma {:induction false} WalkFixes(x: Json, vars: Fields)
    requires VarsClean(vars)
    ensures Walk(x, vars) == x <==> Settled(x, vars)
    decreases x
  {
    if IsVarObject(x) {
      LookupClean(vars, x.fields["$var"].text);
      if "default" in x.fields {
        assert x.fields["default"] < x;
      }
    } else {
      match x
      case Obj(fields) =>
        forall k | k in fields ensures Walk(fields[k], vars) == fields[k] <==> Settled(fields[k], vars) {
          WalkFixes(fields[k], vars);
        }
        var w := Walk(x, vars).fields;
        if Settled(x, vars) {
          assert w == fields;
        } else {
          var k :| k in fields && !Settled(fields[k], vars);
          assert w[k] != fields[k];
        }
      case Arr(items) =>
        forall i | 0 <= i < |items| ensures Walk(items[i], vars) == items[i] <==> Settled(items[i], vars) {
          WalkFixes(items[i], vars);
        }
        var w := Walk(x, vars).items;
        if Settled(x, vars) {
          assert w == items;
        } else {
          var i :| 0 <= i < |items| && !Settled(items[i], vars);
          assert w[i] != items[i];
        }
      case _ =>
    }
  }

  lemma WalkTurnsIntoVar(x: Json, vars: Fields)
    requires !IsVarObject(x)
    ensures IsVarObject(Walk(x, vars)) <==> TurnsIntoVar(x, vars)
  {
    if x.Obj? && "$var" in x.fields {
      assert Walk(x, vars).fields["$var"] == Walk(x.fields["$var"], vars);
    }
  }

  /** One pass settles the tree exactly when OnePassSuffices; values of clean variables never need a second look. */
  lemma {:induction false} WalkSettles(x: Json, vars: Fields)
    requires VarsClean(vars)
    ensures Settled(Walk(x, vars), vars) <==> OnePassSuffices(x, vars)
    decreases x
  {
    if IsVarObject(x) {
      LookupClean(vars, x.fields["$var"].text);
      var v := Lookup(vars, x.fields["$var"].text);
      if v.Some? {
        NoVarSettled(v.value, vars);
      }
    } else {
      WalkTurnsIntoVar(x, vars);
      match x
      case Obj(fields) =>
        forall k | k in fields ensures Settled(Walk(fields[k], vars), vars) <==> OnePassSuffices(fields[k], vars) {
          WalkSettles(fields[k], vars);
        }
        SettlesByKey(x, vars);
      case Arr(items) =>
        forall i | 0 <= i < |items| ensures Settled(Walk(items[i], vars), vars) <==> OnePassSuffices(items[i], vars) {
          WalkSettles(items[i], vars);
        }
        SettlesByItem(x, vars);
      case _ =>
    }
  }

  lemma SettlesByKey(x: Json, vars: Fields)
    requires x.Obj? && !IsVarObject(x)
    requires forall k | k in x.fields :: Settled(Walk(x.fields[k], vars), vars) <==> OnePassSuffices(x.fields[k], vars)
    requires IsVarObject(Walk(x, vars)) <==> TurnsIntoVar(x, vars)
    ensures Settled(Walk(x, vars), vars) <==> OnePassSuffices(x, vars)
  {
    var w := Walk(x, vars).fields;
    if TurnsIntoVar(x, vars) {
      assert w["$var"] == Walk(x.fields["$var"], vars) == Replacement(x.fields["$var"], vars);
    } else if OnePassSuffices(x, vars) {
      forall k | k in w ensures Settled(w[k], vars) {}
    } else {
      var k :| k in x.fields && !OnePassSuffices(x.fields[k], vars);
      assert !Settled(w[k], vars);
    }
  }

  lemma SettlesByItem(x: Json, vars: Fields)
    requires x.Arr?
    requires forall i | 0 <= i < |x.items| :: Settled(Walk(x.items[i], vars), vars) <==> OnePassSuffices(x.items[i], vars)
    ensures Settled(Walk(x, vars), vars) <==> OnePassSuffices(x, vars)
  {
    var w := Walk(x, vars).items;
    if OnePassSuffices(x, vars) {
      forall i | 0 <= i < |w| ensures Settled(w[i], vars) {}
    } else {
      var i :| 0 <= i < |x.items| && !OnePassSuffices(x.items[i], vars);
      assert !Settled(w[i], vars);
    }
  }

  /** A second pass is the identity exactly when the first one sufficed. */
  lemma WalkTwice(x: Json, vars: Fields)
    requires VarsClean(vars)
    ensures Walk(Walk(x, vars), vars) == Walk(x, vars) <==> OnePassSuffices(x, vars)
  {
    WalkSettles(x, vars);
    WalkFixes(Walk(x, vars), vars);
  }

  lemma LookupTop(vars: Fields, name: string)
    requires name in vars && '.' !in name
    ensures Lookup(vars, name) == Some(vars[name])
  {
    SplitJoin([name], '.');
    AtKey(Obj(vars), name);
  }

  /** Clean variables and clean defaults alone are not enough. When variable a holds the name of variable b,
      {"$var": {"$var": a}} becomes {"$var": b} in the first pass and the value of b in the second. */
  lemma SecondPassMatters(vars: Fields, a: string, b: string)
    requires VarsClean(vars) && a in vars && b in vars && '.' !in a && '.' !in b && vars[a] == Str(b)
    ensures var x := Obj(map["$var" := Obj(map["$var" := Str(a)])]);
      !IsVarObject(x) && !OnePassSuffices(x, vars) && Walk(Walk(x, vars), vars) == vars[b] != Walk(x, vars)
  {
    var inner := Obj(map["$var" := Str(a)]);
    var x := Obj(map["$var" := inner]);
    LookupTop(vars, a);
    LookupTop(vars, b);
    assert x.fields["$var"] == inner && Replacement(inner, vars) == Str(b);
    assert Walk(inner, vars) == Str(b);
    var once := Walk(x, vars);
    assert once.fields["$var"] == Str(b) && IsVarObject(once);
    assert NoVar(vars[b]);
    WalkTwice(x, vars);
  }

  /** applyStringTemplates: the template engine, with its data fixed, is an uninterpreted string function. */
  function Render(x: Json, engine: string -> string): Json {
    match x
    case Str(text) => if HasAction(text) then Str(engine(text)) else x
    case Obj(fields) => Obj(map k | k in fields :: Render(fields[k], engine))
    case Arr(items) => Arr(seq(|items|, i requires 0 <= i < |items| => Render(items[i], engine)))
    case _ => x
  }

  /** strings.Contains(t, "{{") */
  predicate HasAction(text: string) {
    exists i | 0 <= i < |text| - 1 :: text[i] == '{' && text[i + 1] == '{'
  }

  /** The closure render, filling a fresh map or slice in a loop. */
  method RenderInto(x: Json, engine: string -> string) returns (y: Json)
    ensures y == Render(x, engine)
    decreases x
  {
    match x
    case Str(text) =>
      return if HasAction(text) then Str(engine(text)) else x;
    case Obj(fields) =>
      var out, todo := map[], fields.Keys;
      while todo != {}
        invariant todo <= fields.Keys && out.Keys == fields.Keys - todo
        invariant forall k | k in out :: out[k] == Render(fields[k], engine)
      {
        var k :| k in todo;
        assert fields[k] < x;
        var v := RenderInto(fields[k], engine);
        out, todo := out[k := v], todo - {k};
      }
      assert out == Render(x, engine).fields;
      return Obj(out);
    case Arr(items) =>
      var out := [];
      for i := 0 to |items|
        invariant |out| == i && forall j | 0 <= j < i :: out[j] == Render(items[j], engine)
      {
        var v := RenderInto(items[i], engine);
        out := out + [v];
      }
      assert out == Render(x, engine).items;
      return Arr(out);
    case _ =>
      return x;
  }

  /** Rendering keeps the shape of the tree: paths correspond one to one. */
  lemma {:induction false} RenderAt(x: Json, engine: string -> string, p: Path)
    ensures At(Render(x, engine), p) == match At(x, p) case None => None case Some(v) => Some(Render(v, engine))
    decreases |p|
  {
    if p != [] && x.Obj? && p[0] in x.fields {
      RenderAt(x.fields[p[0]], engine, p[1..]);
    }
  }

  /** No $var object at p or above it. */
  predicate PlainPath(x: Json, p: Path)
    decreases |p|
  {
    !IsVarObject(x) && (p != [] && x.Obj? && p[0] in x.fields ==> PlainPath(x.fields[p[0]], p[1..]))
  }

  /** Away from $var objects substitution keeps the path and works below it. */
  lemma {:induction false} WalkAt(x: Json, vars: Fields, p: Path)
    requires PlainPath(x, p)
    ensures At(Walk(x, vars), p) == match At(x, p) case None => None case Some(v) => Some(Walk(v, vars))
    decreases |p|
  {
    if p != [] && x.Obj? && p[0] in x.fields {
      WalkAt(x.fields[p[0]], vars, p[1..]);
    }
  }

  /** A string is a template when "{{" occurs in it. */
  lemma HasActionMeans(text: string)
    ensures HasAction(text) <==> exists a, b :: text == a + "{{" + b
  {
    if i :| 0 <= i < |text| - 1 && text[i] == '{' && text[i + 1] == '{' {
      assert text == text[..i] + "{{" + text[i + 2..];
    }
    if a, b :| text == a + "{{" + b {
      assert text[|a|] == '{' && text[|a| + 1] == '{';
    }
  }

  /** y is x with every template string, wherever it stands, replaced by what the engine makes of it. */
  ghost predicate RenderedAs(x: Json, y: Json, engine: string -> string)
    decreases x
  {
    match x
    case Str(text) => y == if exists a, b :: text == a + "{{" + b then Str(engine(text)) else x
    case Obj(fields) => y.Obj? && y.fields.Keys == fields.Keys && forall k | k in fields :: RenderedAs(fields[k], y.fields[k], engine)
    case Arr(items) => y.Arr? && |y.items| == |items| && forall i | 0 <= i < |items| :: RenderedAs(items[i], y.items[i], engine)
    case _ => y == x
  }

  lemma {:induction false} RenderMeans(x: Json, engine: string -> string)
    ensures RenderedAs(x, Render(x, engine), engine)
    decreases x
  {
    match x
    case Str(text) => HasActionMeans(text);
    case Obj(fields) =>
      forall k | k in fields ensures RenderedAs(fields[k], Render(fields[k], engine), engine) { RenderMeans(fields[k], engine); }
    case Arr(items) =>
      forall i | 0 <= i < |items| ensures RenderedAs(items[i], Render(items[i], engine), engine) { RenderMeans(items[i], engine); }
    case _ =>
  }

  /** What becomes of the strings of a tree: a template is replaced by what the engine makes of it, any other
      string stays. */
  lemma RenderText(x: Json, engine: string -> string, p: Path, text: string)
    requires At(x, p) == Some(Str(text))
    ensures (exists a, b :: text == a + "{{" + b) ==> At(Render(x, engine), p) == Some(Str(engine(text)))
    ensures !(exists a, b :: text == a + "{{" + b) ==> At(Render(x, engine), p) == Some(Str(text))
  {
    RenderAt(x, engine, p);
    HasActionMeans(text);
  }

  /** No $var object strictly above p. */
  predicate PlainAbove(x: Json, p: Path)
    decreases |p|
  {
    p == [] || (!IsVarObject(x) && (x.Obj? && p[0] in x.fields ==> PlainAbove(x.fields[p[0]], p[1..])))
  }

  /** A $var object becomes the value at its dotted path among the variables, else its default, else it stays. */
  lemma {:induction false} WalkVarAt(x: Json, vars: Fields, p: Path, fields: Fields, dotted: string)
    requires PlainAbove(x, p) && At(x, p) == Some(Obj(fields)) && "$var" in fields && fields["$var"] == Str(dotted)
    ensures At(Walk(x, vars), p) == Some(
      match At(Obj(vars), Split(dotted, '.'))
      case Some(v) => v
      case None => if "default" in fields then fields["default"] else Obj(fields))
    decreases |p|
  {
    if p != [] {
      WalkVarAt(x.fields[p[0]], vars, p[1..], fields, dotted);
    }
  }

  /** y is x with every outermost $var object, in objects and arrays alike, replaced by its variable's value or its
      default; one that has neither stays. */
  ghost predicate SubstitutedAs(x: Json, y: Json, vars: Fields)
    decreases x
  {
    if x.Obj? && "$var" in x.fields && x.fields["$var"].Str? then
      var found := At(Obj(vars), Split(x.fields["$var"].text, '.'));
      y == if found.Some? then found.value else if "default" in x.fields then x.fields["default"] else x
    else match x
      case Obj(fields) => y.Obj? && y.fields.Keys == fields.Keys && forall k | k in fields :: SubstitutedAs(fields[k], y.fields[k], vars)
      case Arr(items) => y.Arr? && |y.items| == |items| && forall i | 0 <= i < |items| :: SubstitutedAs(items[i], y.items[i], vars)
      case _ => y == x
  }

  lemma {:induction false} WalkMeans(x: Json, vars: Fields)
    ensures SubstitutedAs(x, Walk(x, vars), vars)
    decreases x
  {
    if !IsVarObject(x) {
      match x
      case Obj(fields) =>
        forall k | k in fields ensures SubstitutedAs(fields[k], Walk(fields[k], vars), vars) { WalkMeans(fields[k], vars); }
      case Arr(items) =>
        forall i | 0 <= i < |items| ensures SubstitutedAs(items[i], Walk(items[i], vars), vars) { WalkMeans(items[i], vars); }
      case _ =>
    }
  }

  /** ApplyVars: clone, substitute, render. A nil tree, or a root replaced by a non-object, reads as empty. */
  function ApplyVars(tree: Option<Fields>, vars: Fields, engine: string -> string): Fields {
    var cloned := match tree case None => map[] case Some(m) => CloneMap(m);
    var walked := Walk(Obj(cloned), vars);
    Render(Obj(if walked.Obj? then walked.fields else map[]), engine).fields
  }

  /** The same three steps in the order the code takes them. */
  method ApplyVarsInSteps(tree: Option<Fields>, vars: Fields, engine: string -> string) returns (out: Fields)
    ensures out == ApplyVars(tree, vars, engine)
  {
    var cloned := match tree case None => map[] case Some(m) => CloneMap(m);
    var walked := WalkInto(Obj(cloned), vars);
    var rendered := RenderInto(Obj(if walked.Obj? then walked.fields else map[]), engine);
    return rendered.fields;
  }

  /** A value of a template away from $var objects comes out rendered at the same path. */
  lemma ApplyVarsKeeps(tree: Fields, vars: Fields, engine: string -> string, p: Path)
    requires IsNormal(Obj(tree)) && PlainPath(Obj(tree), p)
    ensures At(Obj(ApplyVars(Some(tree), vars, engine)), p) ==
      match At(Obj(tree), p) case None => None case Some(v) => Some(Render(Walk(v, vars), engine))
  {
    NormalFixes(Obj(tree));
    var x := Obj(tree);
    assert Obj(CloneMap(tree)) == Normal(x) == x;
    WalkAt(x, vars, p);
    RenderAt(Walk(x, vars), engine, p);
  }

  /** A resolvable $var object of a template comes out as its variable's value, rendered. */
  lemma ApplyVarsResolves(tree: Fields, vars: Fields, engine: string -> string, p: Path, fields: Fields, dotted: string, v: Json)
    requires IsNormal(Obj(tree)) && p != [] && PlainAbove(Obj(tree), p)
    requires At(Obj(tree), p) == Some(Obj(fields)) && "$var" in fields && fields["$var"] == Str(dotted)
    requires At(Obj(vars), Split(dotted, '.')) == Some(v)
    ensures At(Obj(ApplyVars(Some(tree), vars, engine)), p) == Some(Render(v, engine))
  {
    NormalFixes(Obj(tree));
    var x := Obj(tree);
    assert Obj(CloneMap(tree)) == Normal(x) == x;
    WalkVarAt(x, vars, p, fields, dotted);
    RenderAt(Walk(x, vars), engine, p);
  }

  /** No tree, or a root that a $var replaces by something that is not an object, gives the empty tree. */
  lemma ApplyVarsEmpty(tree: Fields, vars: Fields, engine: string -> string, dotted: string, v: Json)
    requires IsNormal(Obj(tree)) && "$var" in tree && tree["$var"] == Str(dotted)
    requires At(Obj(vars), Split(dotted, '.')) == Some(v) && !v.Obj?
    ensures ApplyVars(None, vars, engine) == map[]
    ensures ApplyVars(Some(tree), vars, engine) == map[]
  {
    NormalFixes(Obj(tree));
    assert Obj(CloneMap(tree)) == Normal(Obj(tree)) == Obj(tree);
    WalkVarAt(Obj(tree), vars, [], tree, dotted);
    assert Walk(Obj(map[]), vars) == Obj(map[]);
  }
}
