/** The canonical archive: name sanitising, entry order and the checksum of the result. */
module Tarball {
  import opened Base
  import Sorting

  function TrimSlashes(s: string): (t: string)
    ensures t != "" ==> t[0] != '/'
  {
    if s != "" && s[0] == '/' then TrimSlashes(s[1..]) else s
  }

  /** filepath.Clean's treatment of one component of a relative path. */
  function Push(stack: seq<string>, part: string): seq<string> {
    if part == "" || part == "." then stack
    else if part == ".." && stack != [] && stack[|stack| - 1] != ".." then stack[..|stack| - 1]
    else stack + [part]
  }

  function Squash(parts: seq<string>): seq<string> {
    if parts == [] then [] else Push(Squash(parts[..|parts| - 1]), parts[|parts| - 1])
  }

  function CleanName(name: string): string {
    var stack := Squash(Split(TrimSlashes(name), '/'));
    if stack == [] then "." else Join(stack, '/')
  }

  /** Components of a clean relative name: none empty or ".", and ".." only as a leading run. */
  predicate Canonical(stack: seq<string>) {
    && (forall i | 0 <= i < |stack| :: stack[i] != "" && stack[i] != "." && '/' !in stack[i])
    && (forall i, j | 0 <= i < j < |stack| && stack[j] == ".." :: stack[i] == "..")
  }

  lemma {:induction false} SquashCanonical(parts: seq<string>)
    requires forall i | 0 <= i < |parts| :: '/' !in parts[i]
    ensures Canonical(Squash(parts))
  {
    if parts != [] {
      SquashCanonical(parts[..|parts| - 1]);
    }
  }

  lemma {:induction false} SquashFixes(stack: seq<string>)
    requires Canonical(stack)
    ensures Squash(stack) == stack
  {
    if stack != [] {
      var front := stack[..|stack| - 1];
      SquashFixes(front);
      assert stack == front + [stack[|stack| - 1]];
    }
  }

  /** A clean name is ".", or its slash-separated components are canonical; in particular it is relative. */
  lemma CleanNameShape(name: string)
    ensures var c := CleanName(name); c == "." || (c != "" && c[0] != '/' && Canonical(Split(c, '/')))
  {
    var stack := Squash(Split(TrimSlashes(name), '/'));
    SquashCanonical(Split(TrimSlashes(name), '/'));
    if stack != [] {
      SplitJoin(stack, '/');
      assert Join(stack, '/')[0] == stack[0][0];
    }
  }

  lemma CleanNameTwice(name: string)
    ensures CleanName(CleanName(name)) == CleanName(name)
  {
    var stack := Squash(Split(TrimSlashes(name), '/'));
    SquashCanonical(Split(TrimSlashes(name), '/'));
    if stack == [] {
      SplitJoin(["."], '/');
      assert ["."][..0] == [];
      assert Squash(["."]) == [];
    } else {
      CleanNameShape(name);
      SplitJoin(stack, '/');
      SquashFixes(stack);
    }
  }

  // ---- what cleaning does to a path ----

  /** A component that names something: not empty, "." or "..". */
  predicate Ordinary(part: string) {
    part != "" && part != "." && part != ".." && '/' !in part
  }

  lemma {:induction false} SquashConcat(a: seq<string>, b: seq<string>, c: seq<string>)
    requires Squash(a) == Squash(b)
    ensures Squash(a + c) == Squash(b + c)
    decreases |c|
  {
    if c == [] {
      assert a + c == a && b + c == b;
    } else {
      var n := |c| - 1;
      SquashConcat(a, b, c[..n]);
      assert (a + c)[..|a + c| - 1] == a + c[..n] && (b + c)[..|b + c| - 1] == b + c[..n];
    }
  }

  lemma SquashLast(a: seq<string>, part: string)
    ensures Squash(a + [part]) == Push(Squash(a), part)
  {
    assert (a + [part])[..|a|] == a;
  }

  /** Empty and "." components, and a component followed by "..", drop out of a path anywhere. */
  lemma SquashDrops(a: seq<string>, part: string, b: seq<string>)
    ensures Squash(a + [""] + b) == Squash(a + b)
    ensures Squash(a + ["."] + b) == Squash(a + b)
    ensures Ordinary(part) ==> Squash(a + [part] + [".."] + b) == Squash(a + b)
  {
    SquashLast(a, "");
    SquashLast(a, ".");
    SquashLast(a, part);
    SquashLast(a + [part], "..");
    SquashConcat(a + [""], a, b);
    SquashConcat(a + ["."], a, b);
    if Ordinary(part) {
      assert (Squash(a) + [part])[..|Squash(a)|] == Squash(a);
      SquashConcat(a + [part] + [".."], a, b);
    }
  }

  lemma {:induction false} LeadingSlashes(name: string)
    ensures Squash(Split(TrimSlashes(name), '/')) == Squash(Split(name, '/'))
  {
    if name != "" && name[0] == '/' {
      LeadingSlashes(name[1..]);
      SquashDrops([], "", Split(name[1..], '/'));
      assert [] + [""] + Split(name[1..], '/') == Split(name, '/');
      assert [] + Split(name[1..], '/') == Split(name[1..], '/');
    }
  }

  predicate Separated(parts: seq<string>) {
    |parts| >= 1 && forall part | part in parts :: '/' !in part
  }

  lemma CleanOfParts(parts: seq<string>)
    requires Separated(parts)
    ensures CleanName(Join(parts, '/')) == if Squash(parts) == [] then "." else Join(Squash(parts), '/')
  {
    LeadingSlashes(Join(parts, '/'));
    SplitJoin(parts, '/');
  }

  lemma SameClean(parts: seq<string>, others: seq<string>)
    requires Separated(parts) && Separated(others) && Squash(parts) == Squash(others)
    ensures CleanName(Join(parts, '/')) == CleanName(Join(others, '/'))
  {
    CleanOfParts(parts);
    CleanOfParts(others);
  }

  /** The laws of cleaning, for a path given by its components: empty and "." components make no difference, */
  lemma CleanDropsDots(a: seq<string>, b: seq<string>)
    requires Separated(a + b)
    ensures CleanName(Join(a + [""] + b, '/')) == CleanName(Join(a + b, '/'))
    ensures CleanName(Join(a + ["."] + b, '/')) == CleanName(Join(a + b, '/'))
  {
    SquashDrops(a, "", b);
    forall part | part in a || part in b ensures '/' !in part { assert part in a + b; }
    SameClean(a + [""] + b, a + b);
    SameClean(a + ["."] + b, a + b);
  }

  /** a name cancels against a ".." behind it, */
  lemma CleanCancels(a: seq<string>, part: string, b: seq<string>)
    requires Separated(a + b) && Ordinary(part)
    ensures CleanName(Join(a + [part] + [".."] + b, '/')) == CleanName(Join(a + b, '/'))
  {
    SquashDrops(a, part, b);
    forall part' | part' in a || part' in b ensures '/' !in part' { assert part' in a + b; }
    SameClean(a + [part] + [".."] + b, a + b);
  }

  /** leading slashes go, and what is clean already stays. */
  lemma CleanFixes(name: string, stack: seq<string>)
    ensures CleanName("/" + name) == CleanName(name)
    ensures stack != [] && Canonical(stack) ==> CleanName(Join(stack, '/')) == Join(stack, '/')
    ensures CleanName("") == "."
  {
    assert ("/" + name)[1..] == name;
    assert [""][..0] == [] && Squash([""]) == [];
    if stack != [] && Canonical(stack) {
      SquashFixes(stack);
      CleanOfParts(stack);
    }
  }

  datatype File = File(name: string, data: Bytes, mode: int)

  datatype Entry = Entry(name: string, data: Bytes, mode: int)

  /** What add writes for one input: nothing when the clean name is ".". */
  function EntriesOf(f: File): seq<Entry> {
    if CleanName(f.name) == "." then []
    else [Entry(CleanName(f.name), f.data, if f.mode == 0 then 420 else f.mode)]
  }

  function Written(files: seq<File>): seq<Entry> {
    if files == [] then [] else Written(files[..|files| - 1]) + EntriesOf(files[|files| - 1])
  }

  /** Byte-wise string order. */
  predicate Le(s: string, t: string) {
    s == "" || (t != "" && (s[0] < t[0] || (s[0] == t[0] && Le(s[1..], t[1..]))))
  }

  predicate ByName(f: File, g: File) { Le(f.name, g.name) }

  lemma {:induction false} LeAntisymmetric(s: string, t: string)
    requires Le(s, t) && Le(t, s)
    ensures s == t
  {
    if s != "" && t != "" {
      LeAntisymmetric(s[1..], t[1..]);
      assert s == [s[0]] + s[1..] && t == [t[0]] + t[1..];
    }
  }

  lemma {:induction false} LeTotal(s: string, t: string)
    ensures Le(s, t) || Le(t, s)
  {
    if s != "" && t != "" {
      LeTotal(s[1..], t[1..]);
    }
  }

  lemma {:induction false} LeTransitive(s: string, t: string, u: string)
    requires Le(s, t) && Le(t, u)
    ensures Le(s, u)
  {
    if s != "" && s[0] == t[0] == u[0] {
      LeTransitive(s[1..], t[1..], u[1..]);
    }
  }

  /** At the first place where s and t differ, s has the smaller byte; or s ends there. */
  predicate FirstDifferenceBelow(s: string, t: string) {
    || s < t
    || exists k :: 0 <= k < |s| && k < |t| && s[..k] == t[..k] && s[k] < t[k]
  }

  /** The order is that of the first difference. */
  lemma {:induction false} LeMeans(s: string, t: string)
    ensures Le(s, t) <==> s == t || FirstDifferenceBelow(s, t)
  {
    if s != "" && t != "" {
      if s[0] == t[0] {
        LeMeans(s[1..], t[1..]);
        LeStep(s, t);
      } else {
        assert s[..0] == t[..0];
        assert s[0] < t[0] ==> FirstDifferenceBelow(s, t);
      }
    }
  }

  lemma LeStep(s: string, t: string)
    requires s != "" && t != "" && s[0] == t[0]
    ensures s == t <==> s[1..] == t[1..]
    ensures FirstDifferenceBelow(s, t) <==> FirstDifferenceBelow(s[1..], t[1..])
  {
    var s', t' := s[1..], t[1..];
    assert s == [s[0]] + s' && t == [t[0]] + t';
    assert s < t <==> s' < t' by {
      if s' < t' { assert t[..|s|] == s; }
      if s < t { assert t'[..|s'|] == s'; }
    }
    if k :| 0 <= k < |s'| && k < |t'| && s'[..k] == t'[..k] && s'[k] < t'[k] {
      assert s[..k + 1] == [s[0]] + s'[..k] && t[..k + 1] == [t[0]] + t'[..k];
    }
    if k :| 0 <= k < |s| && k < |t| && s[..k] == t[..k] && s[k] < t[k] {
      assert k > 0 && s'[..k - 1] == s[..k][1..] && t'[..k - 1] == t[..k][1..];
    }
  }

  /** Names in ascending byte order, equal names allowed: told without the comparison, at the first difference. */
  predicate Ascending(files: seq<File>) {
    && (forall i, j, k | 0 <= i < j < |files| && 0 <= k < |files[i].name| && k < |files[j].name| ::
          files[i].name[..k] == files[j].name[..k] && files[i].name[k] != files[j].name[k] ==>
            files[i].name[k] < files[j].name[k])
    && (forall i, j | 0 <= i < j < |files| :: !(files[j].name < files[i].name))
  }

  lemma NoDescent(s: string, t: string)
    requires Le(s, t)
    ensures forall k | 0 <= k < |s| && k < |t| :: s[..k] == t[..k] && s[k] != t[k] ==> s[k] < t[k]
    ensures !(t < s)
  {
    LeMeans(s, t);
    if t < s || exists k :: 0 <= k < |s| && k < |t| && s[..k] == t[..k] && s[k] > t[k] {
      assert FirstDifferenceBelow(t, s);
      LeMeans(t, s);
      LeAntisymmetric(s, t);
    }
  }

  lemma SortedAscends(files: seq<File>)
    requires Sorting.Sorted(ByName, files)
    ensures Ascending(files)
  {
    forall i, j | 0 <= i < j < |files|
      ensures !(files[j].name < files[i].name)
      ensures forall k | 0 <= k < |files[i].name| && k < |files[j].name| ::
        files[i].name[..k] == files[j].name[..k] && files[i].name[k] != files[j].name[k] ==> files[i].name[k] < files[j].name[k]
    {
      assert ByName(files[i], files[j]);
      NoDescent(files[i].name, files[j].name);
    }
  }

  lemma LeIsTotal()
    ensures Sorting.TotalPreorder(Le)
    ensures Sorting.TotalPreorder(ByName)
  {
    forall s, t ensures Le(s, t) || Le(t, s) { LeTotal(s, t); }
    forall s, t, u | Le(s, t) && Le(t, u) ensures Le(s, u) { LeTransitive(s, t, u); }
    forall f, g ensures ByName(f, g) || ByName(g, f) { LeTotal(f.name, g.name); }
    forall f, g, h | ByName(f, g) && ByName(g, h) ensures ByName(f, h) { LeTransitive(f.name, g.name, h.name); }
  }

  /** The elements of a finite set in some order. */
  ghost function Listed(keys: set<string>): (r: seq<string>)
    ensures multiset(r) == multiset(keys)
  {
    if keys == {} then []
    else
      var k :| k in keys;
      var rest := Listed(keys - {k});
      assert multiset(keys) == multiset(keys - {k}) + multiset{k};
      [k] + rest
  }

  ghost function SortedKeys(keys: set<string>): seq<string> {
    Sorting.Sort(Le, Listed(keys))
  }

  /** However the map hands out its keys, sorting them gives one and the same list. */
  lemma SortedKeysUnique(keys: set<string>, listed: seq<string>)
    requires multiset(listed) == multiset(keys)
    ensures Sorting.Sort(Le, listed) == SortedKeys(keys)
  {
    LeIsTotal();
    Sorting.SortSorted(Le, listed);
    Sorting.SortSorted(Le, Listed(keys));
    Sorting.SortPermutes(Le, listed);
    Sorting.SortPermutes(Le, Listed(keys));
    var s := Sorting.Sort(Le, listed);
    forall x, y | x in s && y in s && Le(x, y) && Le(y, x) ensures x == y { LeAntisymmetric(x, y); }
    Sorting.SortedUnique(Le, s, SortedKeys(keys));
  }

  function ExtraFiles(extra: map<string, Bytes>, keys: seq<string>): seq<File>
    requires forall k | k in keys :: k in extra
  {
    seq(|keys|, i requires 0 <= i < |keys| => File(keys[i], extra[keys[i]], 420))
  }

  lemma SortedKeysAreKeys(keys: set<string>)
    ensures forall k :: k in SortedKeys(keys) <==> k in keys
  {
    Sorting.SortPermutes(Le, Listed(keys));
    forall k ensures k in SortedKeys(keys) <==> k in keys {
      assert k in multiset(SortedKeys(keys)) <==> k in multiset(keys);
    }
  }

  ghost function SortedExtra(extra: map<string, Bytes>): seq<File> {
    SortedKeysAreKeys(extra.Keys);
    ExtraFiles(extra, SortedKeys(extra.Keys))
  }

  /** The entry list of an archive: UCI files by name, then extras by name. */
  ghost function Entries(files: seq<File>, extra: map<string, Bytes>): seq<Entry> {
    Written(Sorting.Sort(ByName, files)) + Written(SortedExtra(extra))
  }

  /** tar and gzip, and SHA-256 in hexadecimal: which headers tar accepts, and the bytes of an entry list. */
  datatype Codec = Codec(accepts: Entry -> bool, pack: seq<Entry> -> Bytes, sha: Bytes -> Digest)

  datatype Archive = Archive(bytes: Bytes, sum: Digest)

  ghost function Built(codec: Codec, files: seq<File>, extra: map<string, Bytes>): Option<Archive> {
    var entries := Entries(files, extra);
    if forall e | e in entries :: codec.accepts(e) then Some(Archive(codec.pack(entries), codec.sha(codec.pack(entries))))
    else None
  }

  /** add, for one input: appends its entry unless the header is refused. */
  method Add(codec: Codec, written: seq<Entry>, f: File) returns (ok: bool, r: seq<Entry>)
    ensures ok <==> forall e | e in EntriesOf(f) :: codec.accepts(e)
    ensures ok ==> r == written + EntriesOf(f)
  {
    var name := CleanName(f.name);
    if name == "." {
      return true, written;
    }
    var e := Entry(name, f.data, if f.mode == 0 then 420 else f.mode);
    assert EntriesOf(f) == [e];
    if !codec.accepts(e) {
      return false, written;
    }
    return true, written + [e];
  }

  /** The for-range over the extra map: its keys in whatever order the runtime picks. */
  method RangeKeys(extra: map<string, Bytes>) returns (keys: array<string>)
    ensures fresh(keys) && multiset(keys[..]) == multiset(extra.Keys)
  {
    var todo := extra.Keys;
    var listed := [];
    while todo != {}
      invariant multiset(listed) + multiset(todo) == multiset(extra.Keys)
    {
      var k :| k in todo;
      assert multiset(todo) == multiset(todo - {k}) + multiset{k};
      listed, todo := listed + [k], todo - {k};
    }
    keys := new string[|listed|](i requires 0 <= i < |listed| => listed[i]);
    assert keys[..] == listed;
  }

  /** Build: sorts the caller's slice in place, writes entry by entry, stops at the first refused header. */
  method Build(codec: Codec, files: array<File>, extra: map<string, Bytes>) returns (r: Option<Archive>)
    modifies files
    ensures files[..] == Sorting.Sort(ByName, old(files[..]))
    ensures r == Built(codec, old(files[..]), extra)
  {
    Sorting.InsertionSort(ByName, files);
    var ok, written := AddAll(codec, [], files[..]);
    if !ok {
      return None;
    }
    assert written == Written(files[..]);
    var extras := OrderExtra(extra);
    ok, written := AddAll(codec, written, extras);
    if !ok {
      return None;
    }
    return Some(Archive(codec.pack(written), codec.sha(codec.pack(written))));
  }

  /** Collects the keys of extra, sorts them in place and looks the contents up. */
  method OrderExtra(extra: map<string, Bytes>) returns (extras: seq<File>)
    ensures extras == SortedExtra(extra)
  {
    var keys := RangeKeys(extra);
    SortedKeysUnique(extra.Keys, keys[..]);
    SortedKeysAreKeys(extra.Keys);
    Sorting.InsertionSort(Le, keys);
    return ExtraFiles(extra, keys[..]);
  }

  method AddAll(codec: Codec, before: seq<Entry>, files: seq<File>) returns (ok: bool, written: seq<Entry>)
    ensures ok <==> forall e | e in Written(files) :: codec.accepts(e)
    ensures ok ==> written == before + Written(files)
  {
    written := before;
    for i := 0 to |files|
      invariant written == before + Written(files[..i])
      invariant forall e | e in Written(files[..i]) :: codec.accepts(e)
    {
      assert files[..i + 1][..i] == files[..i];
      var fine, more := Add(codec, written, files[i]);
      if !fine {
        WrittenPrefix(files, i + 1);
        return false, written;
      }
      written := more;
    }
    assert files[..|files|] == files;
    return true, written;
  }

  lemma {:induction false} WrittenPrefix(files: seq<File>, n: nat)
    requires n <= |files|
    ensures forall e | e in Written(files[..n]) :: e in Written(files)
    decreases |files|
  {
    if n < |files| {
      assert files[..|files| - 1][..n] == files[..n];
      WrittenPrefix(files[..|files| - 1], n);
    } else {
      assert files[..n] == files;
    }
  }

  lemma EntriesOfWritten(files: seq<File>, e: Entry)
    ensures e in Written(files) <==> exists f | f in files :: e in EntriesOf(f)
  {
    if files != [] {
      var front, last := files[..|files| - 1], files[|files| - 1];
      assert files == front + [last];
      EntriesOfWritten(front, e);
      assert e in Written(files) <==> e in Written(front) || e in EntriesOf(last);
      if f :| f in files && e in EntriesOf(f) {
        assert f in front || f == last;
      }
    }
  }

  lemma SortedMembers(files: seq<File>)
    ensures forall f :: f in Sorting.Sort(ByName, files) <==> f in files
  {
    Sorting.SortPermutes(ByName, files);
    forall f ensures f in Sorting.Sort(ByName, files) <==> f in files {
      assert f in multiset(Sorting.Sort(ByName, files)) <==> f in multiset(files);
    }
  }

  lemma SortedExtraMembers(extra: map<string, Bytes>)
    ensures forall f :: f in SortedExtra(extra) <==> f.name in extra && f == File(f.name, extra[f.name], 420)
  {
    var keys, extras := SortedKeys(extra.Keys), SortedExtra(extra);
    SortedKeysAreKeys(extra.Keys);
    forall f ensures f in extras <==> f.name in extra && f == File(f.name, extra[f.name], 420) {
      if f in extras {
        var i :| 0 <= i < |extras| && extras[i] == f;
        assert keys[i] in keys;
      } else if f.name in extra {
        var i :| 0 <= i < |keys| && keys[i] == f.name;
        assert extras[i] in extras;
      }
    }
  }

  /** e is what one input asks for: its clean name, its bytes, and its mode or 0644. */
  predicate AskedBy(e: Entry, f: File) {
    CleanName(f.name) != "." && e.name == CleanName(f.name) && e.data == f.data && e.mode == if f.mode == 0 then 420 else f.mode
  }

  /** An archive holds an entry exactly when some UCI file or extra file with a clean name other
      than "." asks for it. */
  lemma EntriesComplete(files: seq<File>, extra: map<string, Bytes>, e: Entry)
    ensures e in Entries(files, extra) <==>
      exists f :: (f in files || (f.name in extra && f == File(f.name, extra[f.name], 420))) && AskedBy(e, f)
  {
    forall f ensures e in EntriesOf(f) <==> AskedBy(e, f) {}
    EntriesOfWritten(Sorting.Sort(ByName, files), e);
    EntriesOfWritten(SortedExtra(extra), e);
    SortedMembers(files);
    SortedExtraMembers(extra);
  }

  /** Files are written one after the other, each as the one entry it asks for or not at all. */
  lemma WrittenInOrder(before: seq<File>, f: File, behind: seq<File>)
    ensures Written([]) == []
    ensures Written(before + [f] + behind) ==
      Written(before) +
      (if CleanName(f.name) == "." then [] else [Entry(CleanName(f.name), f.data, if f.mode == 0 then 420 else f.mode)]) +
      Written(behind)
  {
    WrittenConcat(before + [f], behind);
    WrittenConcat(before, [f]);
    assert [f][..0] == [] && Written([f]) == [] + EntriesOf(f);
  }

  /** us rearranges the UCI files and es lists the extras once each, both by ascending name. */
  ghost predicate Arranged(files: seq<File>, extra: map<string, Bytes>, us: seq<File>, es: seq<File>) {
    && multiset(us) == multiset(files) && Ascending(us)
    && |es| == |extra| && (forall f :: f in es <==> f.name in extra && f == File(f.name, extra[f.name], 420)) && Ascending(es)
  }

  lemma SortedArranged(files: seq<File>, extra: map<string, Bytes>)
    ensures Arranged(files, extra, Sorting.Sort(ByName, files), SortedExtra(extra))
  {
    LeIsTotal();
    Sorting.SortPermutes(ByName, files);
    Sorting.SortSorted(ByName, files);
    SortedAscends(Sorting.Sort(ByName, files));
    SortedExtraSorted(extra);
    SortedAscends(SortedExtra(extra));
    SortedExtraMembers(extra);
  }

  ghost predicate Packs(codec: Codec, entries: seq<Entry>, r: Option<Archive>) {
    if forall e | e in entries :: codec.accepts(e) then r == Some(Archive(codec.pack(entries), codec.sha(codec.pack(entries))))
    else r == None
  }

  /** What Build packs, and in which order: the UCI files by ascending name, then the extras by ascending name.
      It fails exactly when a header among them is refused. */
  lemma BuiltInOrder(codec: Codec, files: seq<File>, extra: map<string, Bytes>) returns (us: seq<File>, es: seq<File>)
    ensures Arranged(files, extra, us, es)
    ensures Packs(codec, Written(us) + Written(es), Built(codec, files, extra))
  {
    us, es := Sorting.Sort(ByName, files), SortedExtra(extra);
    SortedArranged(files, extra);
  }

  lemma SortedExtraSorted(extra: map<string, Bytes>)
    ensures Sorting.Sorted(ByName, SortedExtra(extra)) && |SortedExtra(extra)| == |extra|
  {
    var keys, es := SortedKeys(extra.Keys), SortedExtra(extra);
    LeIsTotal();
    Sorting.SortSorted(Le, Listed(extra.Keys));
    forall i, j | 0 <= i < j < |es| ensures ByName(es[i], es[j]) {
      assert Le(keys[i], keys[j]);
    }
    assert |Listed(extra.Keys)| == |multiset(Listed(extra.Keys))| == |multiset(extra.Keys)| == |extra.Keys| == |extra|;
  }

  // ---- when the order of the rendered files shows ----

  /** Any two files of one name ask for the same entry. */
  predicate OrderHidden(files: seq<File>) {
    forall f, g | f in files && g in files && f.name == g.name :: EntriesOf(f) == EntriesOf(g)
  }

  /** All that matters of a file: its name, which sorts it, and its entry. */
  datatype Slot = Slot(name: string, entries: seq<Entry>)

  function SlotOf(f: File): Slot { Slot(f.name, EntriesOf(f)) }

  function Slots(files: seq<File>): seq<Slot> {
    Sorting.Mapped(SlotOf, files)
  }

  predicate SlotByName(x: Slot, y: Slot) { Le(x.name, y.name) }

  function Flat(slots: seq<Slot>): seq<Entry> {
    if slots == [] then [] else Flat(slots[..|slots| - 1]) + slots[|slots| - 1].entries
  }

  lemma {:induction false} WrittenIsFlat(files: seq<File>)
    ensures Written(files) == Flat(Slots(files))
  {
    if files != [] {
      Sorting.MappedFront(SlotOf, files);
      WrittenIsFlat(files[..|files| - 1]);
    }
  }

  lemma SlotOrder()
    ensures Sorting.TotalPreorder(SlotByName)
  {
    forall x, y ensures SlotByName(x, y) || SlotByName(y, x) { LeTotal(x.name, y.name); }
    forall x, y, z | SlotByName(x, y) && SlotByName(y, z) ensures SlotByName(x, z) { LeTransitive(x.name, y.name, z.name); }
  }

  lemma SortedSlots(files: seq<File>)
    ensures var slots := Slots(Sorting.Sort(ByName, files));
      Sorting.Sorted(SlotByName, slots) && multiset(slots) == multiset(Slots(files))
  {
    LeIsTotal();
    Sorting.SortSorted(ByName, files);
    Sorting.SortPermutes(ByName, files);
    Sorting.MappedPermutes(SlotOf, Sorting.Sort(ByName, files), files);
    Sorting.MappedSorted(ByName, SlotByName, SlotOf, Sorting.Sort(ByName, files));
  }

  lemma TiesAreEqual(files: seq<File>, x: Slot, y: Slot)
    requires OrderHidden(files) && x in Slots(files) && y in Slots(files) && SlotByName(x, y) && SlotByName(y, x)
    ensures x == y
  {
    LeAntisymmetric(x.name, y.name);
    var i :| 0 <= i < |files| && Slots(files)[i] == x;
    var j :| 0 <= j < |files| && Slots(files)[j] == y;
    assert x == SlotOf(files[i]) && y == SlotOf(files[j]);
    assert files[i] in files && files[j] in files && files[i].name == files[j].name;
  }

  /** A hidden order does not show. */
  lemma EntriesIgnoreOrder(files: seq<File>, others: seq<File>, extra: map<string, Bytes>)
    requires multiset(files) == multiset(others) && OrderHidden(files)
    ensures Entries(files, extra) == Entries(others, extra)
  {
    var s, t := Slots(Sorting.Sort(ByName, files)), Slots(Sorting.Sort(ByName, others));
    SortedSlots(files);
    SortedSlots(others);
    Sorting.MappedPermutes(SlotOf, files, others);
    forall x, y | x in s && y in s && SlotByName(x, y) && SlotByName(y, x) ensures x == y {
      assert x in multiset(s) && y in multiset(s);
      TiesAreEqual(files, x, y);
    }
    SlotOrder();
    Sorting.SortedUnique(SlotByName, s, t);
    WrittenIsFlat(Sorting.Sort(ByName, files));
    WrittenIsFlat(Sorting.Sort(ByName, others));
  }

  lemma {:induction false} WrittenConcat(s: seq<File>, t: seq<File>)
    ensures Written(s + t) == Written(s) + Written(t)
    decreases |t|
  {
    if t == [] {
      assert s + t == s;
    } else {
      assert (s + t)[..|s + t| - 1] == s + t[..|t| - 1];
      WrittenConcat(s, t[..|t| - 1]);
    }
  }

  lemma WrittenPair(f: File, g: File)
    ensures Written([f, g]) == EntriesOf(f) + EntriesOf(g)
  {
    assert [f, g][..1] == [f] && [f][..0] == [];
    assert Written([f]) == [] + EntriesOf(f);
  }

  lemma WrittenAround(a: seq<File>, f: File, g: File, b: seq<File>)
    ensures Written(a + [f, g] + b) == Written(a) + (EntriesOf(f) + EntriesOf(g)) + Written(b)
  {
    WrittenConcat(a + [f, g], b);
    WrittenConcat(a, [f, g]);
    WrittenPair(f, g);
  }

  /** Swapping two files of one name with different entries shows, whatever else is in the list. */
  lemma TiedPairShows(f: File, g: File, rest: seq<File>, extra: map<string, Bytes>)
    requires f.name == g.name && EntriesOf(f) != EntriesOf(g)
    ensures Entries([f, g] + rest, extra) != Entries([g, f] + rest, extra)
  {
    LeTotal(f.name, f.name);
    var a, b := Sorting.SwapTiedPair(ByName, f, g, rest);
    WrittenAround(a, f, g, b);
    WrittenAround(a, g, f, b);
    var k := |Written(a)|;
    assert Entries([f, g] + rest, extra)[k] == EntriesOf(f)[0];
    assert Entries([g, f] + rest, extra)[k] == EntriesOf(g)[0];
  }

  lemma OrderShows(files: seq<File>, extra: map<string, Bytes>) returns (others: seq<File>)
    requires !OrderHidden(files)
    ensures multiset(others) == multiset(files) && Entries(others, extra) != Entries(files, extra)
  {
    var f, g :| f in files && g in files && f.name == g.name && EntriesOf(f) != EntriesOf(g);
    var rest := Sorting.TakePair(files, f, g);
    TiedPairShows(f, g, rest, extra);
    others := if Entries([f, g] + rest, extra) == Entries(files, extra) then [g, f] + rest else [f, g] + rest;
  }

  /** The order of the rendered files is invisible in the archive, for every permutation, if and only if any
      two files of one name ask for the same entry. The order of the extras map never shows. */
  lemma OrderInvisibleIff(files: seq<File>, extra: map<string, Bytes>)
    ensures (forall others | multiset(others) == multiset(files) :: Entries(others, extra) == Entries(files, extra))
       <==> OrderHidden(files)
  {
    if OrderHidden(files) {
      forall others | multiset(others) == multiset(files) ensures Entries(others, extra) == Entries(files, extra) {
        EntriesIgnoreOrder(files, others, extra);
      }
    } else {
      var others := OrderShows(files, extra);
    }
  }

  /** So then Build gives the same archive for every order. */
  lemma BuiltIgnoresOrder(codec: Codec, files: seq<File>, others: seq<File>, extra: map<string, Bytes>)
    requires multiset(files) == multiset(others) && OrderHidden(files)
    ensures Built(codec, files, extra) == Built(codec, others, extra)
  {
    EntriesIgnoreOrder(files, others, extra);
  }

  /** The network and the WireGuard file share a name, so the archive would show their order. The renderer
      always lists the network file first. */
  lemma SharedNameShowsOrder(a: Bytes, b: Bytes, rest: seq<File>, extra: map<string, Bytes>)
    requires a != b
    ensures var f, g := File("etc/config/network", a, 420), File("etc/config/network", b, 420);
      Entries([f, g] + rest, extra) != Entries([g, f] + rest, extra)
  {
    NetworkName();
    TiedPairShows(File("etc/config/network", a, 420), File("etc/config/network", b, 420), rest, extra);
  }

  lemma NetworkName()
    ensures CleanName("etc/config/network") != "."
  {
    var name := ["etc", "config", "network"];
    assert name[1..] == ["config", "network"] && name[1..][1..] == ["network"];
    assert Join(name, '/') == "etc/config/network";
    SplitJoin(name, '/');
    SquashFixes(name);
  }
}
