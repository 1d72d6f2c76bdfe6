/** Vocabulary shared by the other modules: optional values, bytes, digests and the
    one-character form of Go's strings.Split and strings.Join. */
module Base {

  datatype Option<+T> = None | Some(value: T)

  newtype Byte = b: int | 0 <= b < 256

  type Bytes = seq<Byte>

  /** A SHA-256 sum in hexadecimal; which function produces it is left uninterpreted. */
  type Digest = s: string | |s| == 64 witness seq(64, _ => '0')

  lemma Associate(a: string, b: string, c: string)
    ensures a + b + c == a + (b + c)
  {}

  function LowerChar(c: char): char {
    if 'A' <= c <= 'Z' then (c as int + 32) as char else c
  }

  /** strings.ToLower on ASCII. */
  function Lower(s: string): string {
    seq(|s|, i requires 0 <= i < |s| => LowerChar(s[i]))
  }

  predicate SameLetter(c: char, d: char) {
    || c == d
    || ('A' <= c <= 'Z' && d as int == c as int + 32)
    || ('A' <= d <= 'Z' && c as int == d as int + 32)
  }

  /** Equal up to the case of ASCII letters: strings.EqualFold. */
  predicate SameFold(s: string, t: string) {
    |s| == |t| && forall i | 0 <= i < |s| :: SameLetter(s[i], t[i])
  }

  lemma LowerCharMeans(c: char, d: char)
    ensures LowerChar(c) == LowerChar(d) <==> SameLetter(c, d)
  {
    assert LowerChar(c) as int == if 'A' <= c <= 'Z' then c as int + 32 else c as int;
    assert LowerChar(d) as int == if 'A' <= d <= 'Z' then d as int + 32 else d as int;
  }

  /** Lower-casing identifies exactly the strings that differ in case only, and leaves no capital. */
  lemma LowerMeans(s: string, t: string)
    ensures Lower(s) == Lower(t) <==> SameFold(s, t)
    ensures SameFold(s, Lower(s)) && forall c | c in Lower(s) :: !('A' <= c <= 'Z')
  {
    if |s| == |t| {
      forall i | 0 <= i < |s| ensures Lower(s)[i] == Lower(t)[i] <==> SameLetter(s[i], t[i]) {
        LowerCharMeans(s[i], t[i]);
      }
    } else {
      assert |Lower(s)| != |Lower(t)|;
    }
  }

  /** The ASCII white space of unicode.IsSpace. */
  predicate IsSpace(c: char) {
    c == ' ' || c == '\t' || c == '\n' || c == '\U{0B}' || c == '\U{0C}' || c == '\r'
  }

  predicate Blank(s: string) {
    forall c | c in s :: IsSpace(c)
  }

  /** strings.TrimSpace on ASCII. */
  function TrimSpace(s: string): string {
    if s == "" then ""
    else if IsSpace(s[0]) then TrimSpace(s[1..])
    else if IsSpace(s[|s| - 1]) then TrimSpace(s[..|s| - 1])
    else s
  }

  /** What is left has no white space at its ends, and only white space was taken away. */
  lemma {:induction false} TrimSpaceMeans(s: string) returns (a: string, b: string)
    ensures s == a + TrimSpace(s) + b && Blank(a) && Blank(b)
    ensures var t := TrimSpace(s); t != "" ==> !IsSpace(t[0]) && !IsSpace(t[|t| - 1])
  {
    a, b := "", "";
    if s != "" && IsSpace(s[0]) {
      a, b := TrimSpaceMeans(s[1..]);
      a := [s[0]] + a;
    } else if s != "" && IsSpace(s[|s| - 1]) {
      a, b := TrimSpaceMeans(s[..|s| - 1]);
      b := b + [s[|s| - 1]];
    }
  }

  /** White space around a string does not matter. */
  lemma {:induction false} TrimSpaceAround(a: string, s: string, b: string)
    requires Blank(a) && Blank(b)
    ensures TrimSpace(a + s + b) == TrimSpace(s)
    decreases |a| + |s| + |b|
  {
    var whole := a + s + b;
    if a != "" {
      assert whole[1..] == a[1..] + s + b;
      TrimSpaceAround(a[1..], s, b);
    } else if s == "" {
      assert whole == b;
      if b != "" {
        assert whole[1..] == b[1..] && b[1..] == "" + "" + b[1..];
        TrimSpaceAround("", "", b[1..]);
      }
    } else if IsSpace(s[0]) {
      assert whole[1..] == "" + s[1..] + b;
      TrimSpaceAround("", s[1..], b);
    } else if b != "" {
      assert whole[|whole| - 1] == b[|b| - 1] && whole[0] == s[0];
      assert whole[..|whole| - 1] == "" + s + b[..|b| - 1];
      TrimSpaceAround("", s, b[..|b| - 1]);
    } else {
      assert whole == s;
    }
  }

  /** Trimming again, also after lower-casing, changes nothing. */
  lemma TrimmedStays(s: string)
    ensures TrimSpace(TrimSpace(s)) == TrimSpace(s)
    ensures TrimSpace(Lower(TrimSpace(s))) == Lower(TrimSpace(s)) && Lower(Lower(s)) == Lower(s)
  {
    var a, b := TrimSpaceMeans(s);
    TrimSpaceAround(a, TrimSpace(s), b);
  }

  function Join(parts: seq<string>, c: char): string {
    if |parts| == 0 then ""
    else if |parts| == 1 then parts[0]
    else parts[0] + [c] + Join(parts[1..], c)
  }

  function Split(s: string, c: char): (parts: seq<string>)
    ensures |parts| >= 1
    ensures forall i | 0 <= i < |parts| :: c !in parts[i]
  {
    if s == "" then [""]
    else
      var rest := Split(s[1..], c);
      if s[0] == c then [""] + rest else [[s[0]] + rest[0]] + rest[1..]
  }

  /** Splitting loses nothing. */
  lemma {:induction false} JoinSplit(s: string, c: char)
    ensures Join(Split(s, c), c) == s
  {
    if s != "" {
      var rest := Split(s[1..], c);
      JoinSplit(s[1..], c);
      if s[0] == c {
        assert ([""] + rest)[1..] == rest;
      } else {
        var parts := Split(s, c);
        assert parts[1..] == rest[1..];
        if |rest| > 1 {
          assert parts[0] + [c] + Join(parts[1..], c) == [s[0]] + (rest[0] + [c] + Join(rest[1..], c));
        }
      }
    }
  }

  /** Prefixing a separator-free piece extends the first part. */
  lemma {:induction false} SplitPrefix(a: string, s: string, c: char)
    requires c !in a
    ensures Split(a + s, c) == [a + Split(s, c)[0]] + Split(s, c)[1..]
  {
    if a == "" {
      assert a + s == s && a + Split(s, c)[0] == Split(s, c)[0];
    } else {
      assert (a + s)[1..] == a[1..] + s;
      SplitPrefix(a[1..], s, c);
      assert [a[0]] + (a[1..] + Split(s, c)[0]) == a + Split(s, c)[0];
    }
  }

  /** Joining separator-free parts and splitting again gives the parts back. */
  lemma {:induction false} SplitJoin(parts: seq<string>, c: char)
    requires |parts| >= 1
    requires forall i | 0 <= i < |parts| :: c !in parts[i]
    ensures Split(Join(parts, c), c) == parts
  {
    if |parts| == 1 {
      SplitPrefix(parts[0], "", c);
      assert parts[0] + "" == parts[0];
    } else {
      SplitJoin(parts[1..], c);
      var tail := [c] + Join(parts[1..], c);
      assert tail[1..] == Join(parts[1..], c);
      assert Split(tail, c) == [""] + parts[1..];
      SplitPrefix(parts[0], tail, c);
      assert Join(parts, c) == parts[0] + tail;
      assert parts[0] + "" == parts[0];
    }
  }

  /** Splitting at the first separator. */
  lemma SplitFirst(a: string, s: string, c: char)
    requires c !in a
    ensures Split(a + [c] + s, c) == [a] + Split(s, c)
  {
    var tail := [c] + s;
    assert tail[1..] == s && a + [c] + s == a + tail;
    assert Split(tail, c) == [""] + Split(s, c);
    SplitPrefix(a, tail, c);
    assert a + "" == a;
  }
}
