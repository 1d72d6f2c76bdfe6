/** UCI text emission: the quoting printer behind the render functions, and why its output
    determines what was printed. */
module Uci {
  import opened Base

  /** One call of a render function on its builder. */
  datatype Call =
    | AddHeader(kind: string, name: Option<string>)
    | AddOpt(key: string, value: string)
    | AddBool(key: string, on: bool)
    | AddList(key: string, value: string)
    | AddBlank

  /** One line of a UCI file. */
  datatype Line =
    | Header(kind: string, name: Option<string>)
    | Setting(key: string, value: string)
    | Entry(key: string, value: string)
    | Blank

  /** q: every quote gets a backslash in front; backslashes stay as they are. */
  function Quote(s: string): string {
    if s == "" then ""
    else (if s[0] == '\'' then "\\'" else [s[0]]) + Quote(s[1..])
  }

  function Unquote(t: string): string {
    if t == "" then ""
    else if |t| > 1 && t[0] == '\\' && t[1] == '\'' then "'" + Unquote(t[2..])
    else [t[0]] + Unquote(t[1..])
  }

  /** q has a left inverse on every string, trailing and repeated backslashes included. */
  lemma {:induction false} UnquoteQuote(s: string)
    ensures Unquote(Quote(s)) == s
  {
    if s != "" {
      UnquoteQuote(s[1..]);
      if s[0] == '\'' {
        assert Quote(s)[2..] == Quote(s[1..]);
      } else {
        assert Quote(s)[1..] == Quote(s[1..]);
        QuoteHead(s[1..]);
      }
    }
  }

  lemma QuoteHead(s: string)
    ensures s != "" ==> Quote(s) != "" && Quote(s)[0] != '\''
  {}

  /** Every quote in w has a backslash right before it. */
  predicate Guarded(w: string) {
    forall i | 0 <= i < |w| && w[i] == '\'' :: i > 0 && w[i - 1] == '\\'
  }

  lemma {:induction false} QuoteGuarded(s: string)
    ensures Guarded(Quote(s))
  {
    if s != "" {
      QuoteGuarded(s[1..]);
      QuoteHead(s[1..]);
      var head := if s[0] == '\'' then "\\'" else [s[0]];
      forall i | 0 <= i < |Quote(s)| && Quote(s)[i] == '\'' ensures i > 0 && Quote(s)[i - 1] == '\\' {
        if i >= |head| {
          assert Quote(s)[i] == Quote(s[1..])[i - |head|];
        }
      }
    }
  }

  /** The lines a call leaves: empty values and false booleans leave none. */
  function LinesOf(c: Call): seq<Line> {
    match c
    case AddHeader(kind, name) => [Header(kind, name)]
    case AddOpt(key, value) => if value == "" then [] else [Setting(key, value)]
    case AddBool(key, on) => if on then [Setting(key, "1")] else []
    case AddList(key, value) => if value == "" then [] else [Entry(key, value)]
    case AddBlank => [Blank]
  }

  function Lines(calls: seq<Call>): seq<Line> {
    if |calls| == 0 then [] else Lines(calls[..|calls| - 1]) + LinesOf(calls[|calls| - 1])
  }

  /** What a call appends to the builder. */
  function Appended(c: Call): string {
    match c
    case AddHeader(kind, None) => "config " + kind + "\n"
    case AddHeader(kind, Some(name)) => "config " + kind + " '" + Quote(name) + "'\n"
    case AddOpt(key, value) => if value == "" then "" else "\toption " + key + " '" + Quote(value) + "'\n"
    case AddBool(key, on) => if on then "\toption " + key + " '1'\n" else ""
    case AddList(key, value) => if value == "" then "" else "\tlist " + key + " '" + Quote(value) + "'\n"
    case AddBlank => "\n"
  }

  function Emitted(calls: seq<Call>): string {
    if |calls| == 0 then "" else Emitted(calls[..|calls| - 1]) + Appended(calls[|calls| - 1])
  }

  /** The builder, filled call by call. */
  method Emit(calls: seq<Call>) returns (text: string)
    ensures text == Emitted(calls)
  {
    text := "";
    for i := 0 to |calls|
      invariant text == Emitted(calls[..i])
    {
      assert calls[..i + 1][..i] == calls[..i];
      text := text + Appended(calls[i]);
    }
    assert calls[..|calls|] == calls;
  }

  /** The part of a line before its quoted value, or before its newline. */
  function Stem(l: Line): string {
    match l
    case Header(kind, None) => "config " + kind
    case Header(kind, Some(_)) => "config " + kind + " "
    case Setting(key, _) => "\toption " + key + " "
    case Entry(key, _) => "\tlist " + key + " "
    case Blank => ""
  }

  function Quoted(l: Line): Option<string> {
    match l
    case Header(_, name) => name
    case Setting(_, value) => Some(value)
    case Entry(_, value) => Some(value)
    case Blank => None
  }

  /** From the quoted value to the end of the line. */
  function Rest(v: Option<string>): string {
    match v case None => "\n" case Some(s) => "'" + Quote(s) + "'\n"
  }

  function LineText(l: Line): string {
    Stem(l) + Rest(Quoted(l))
  }

  /** The items of a list written one after the other. */
  function Spelled<T>(write: T -> string, items: seq<T>): string {
    if |items| == 0 then "" else write(items[0]) + Spelled(write, items[1..])
  }

  function Text(lines: seq<Line>): string {
    Spelled(LineText, lines)
  }

  /** Section types and option names: no blank, quote or newline. */
  predicate Identifier(s: string) {
    ' ' !in s && '\'' !in s && '\n' !in s
  }

  predicate CallOk(c: Call) {
    match c
    case AddHeader(kind, _) => Identifier(kind)
    case AddOpt(key, _) => Identifier(key)
    case AddBool(key, _) => Identifier(key)
    case AddList(key, _) => Identifier(key)
    case AddBlank => true
  }

  predicate LineOk(l: Line) {
    match l
    case Header(kind, _) => Identifier(kind)
    case Setting(key, value) => Identifier(key) && value != ""
    case Entry(key, value) => Identifier(key) && value != ""
    case Blank => true
  }

  predicate AllOk(calls: seq<Call>) {
    forall c | c in calls :: CallOk(c)
  }

  predicate LinesOk(lines: seq<Line>) {
    forall l | l in lines :: LineOk(l)
  }

  lemma SpelledOne<T>(write: T -> string, x: T)
    ensures Spelled(write, [x]) == write(x)
  {
    assert [x][1..] == [] && write(x) + "" == write(x);
  }

  lemma {:induction false} SpelledConcat<T>(write: T -> string, xs: seq<T>, ys: seq<T>)
    ensures Spelled(write, xs + ys) == Spelled(write, xs) + Spelled(write, ys)
  {
    if |xs| == 0 {
      assert xs + ys == ys;
    } else {
      SpelledConcat(write, xs[1..], ys);
      assert (xs + ys)[1..] == xs[1..] + ys;
      Associate(write(xs[0]), Spelled(write, xs[1..]), Spelled(write, ys));
    }
  }

  /** Emission only depends on the lines the calls leave. */
  lemma {:induction false} EmittedIsText(calls: seq<Call>)
    requires AllOk(calls)
    ensures Emitted(calls) == Text(Lines(calls)) && LinesOk(Lines(calls))
  {
    if |calls| != 0 {
      var front, c := calls[..|calls| - 1], calls[|calls| - 1];
      EmittedIsText(front);
      SpelledConcat(LineText, Lines(front), LinesOf(c));
      AppendedIsText(c);
    }
  }

  lemma AppendedIsText(c: Call)
    requires CallOk(c)
    ensures Appended(c) == Text(LinesOf(c)) && LinesOk(LinesOf(c))
  {
    if |LinesOf(c)| == 1 {
      var l := LinesOf(c)[0];
      assert LinesOf(c)[1..] == [] && LineOk(l);
      SpelledOne(LineText, l);
      assert LinesOf(c) == [l];
      match c
      case AddBool(key, _) =>
        assert "1"[1..] == "" && Quote("1") == "1";
        Associate("\toption " + key + " ", "'1", "'\n");
        assert "'" + Quote("1") + "'\n" == "'1'\n";
      case AddHeader(kind, Some(name)) => AssociateQuoted("config " + kind, Quote(name));
      case AddOpt(key, value) => AssociateQuoted("\toption " + key, Quote(value));
      case AddList(key, value) => AssociateQuoted("\tlist " + key, Quote(value));
      case _ =>
    }
  }

  lemma AssociateQuoted(front: string, q: string)
    ensures front + " '" + q + "'\n" == (front + " ") + ("'" + q + "'\n")
  {
    assert front + " '" == front + " " + "'";
  }

  /** A stem has neither quote nor newline, and ends in a blank when a quoted value follows. */
  lemma StemShape(l: Line)
    requires LineOk(l)
    ensures '\'' !in Stem(l) && '\n' !in Stem(l)
    ensures Quoted(l).Some? ==> Stem(l) != "" && Stem(l)[|Stem(l)| - 1] == ' '
  {}

  /** The stem tells the kind of line and its key. */
  lemma StemDecides(l: Line, m: Line)
    requires LineOk(l) && LineOk(m) && Stem(l) == Stem(m) && Quoted(l) == Quoted(m)
    ensures l == m
  {
    if l != Blank && m != Blank {
      assert Stem(l)[0] == Stem(m)[0] && Stem(l)[1] == Stem(m)[1];
      var cut := if l.Header? then 7 else if l.Setting? then 8 else 6;
      var end := |Stem(l)| - if Quoted(l).Some? then 1 else 0;
      assert Stem(l)[cut..end] == if l.Header? then l.kind else l.key;
      assert Stem(m)[cut..end] == if m.Header? then m.kind else m.key;
    }
  }

  lemma StemSplits(a: string, b: string, s: string, t: string)
    requires '\'' !in a && '\n' !in a && '\'' !in b && '\n' !in b
    requires s != "" && t != "" && (s[0] == '\'' || s[0] == '\n') && (t[0] == '\'' || t[0] == '\n')
    requires a + s == b + t
    ensures a == b && s == t
  {
    var whole := a + s;
    assert whole[|a|] == s[0] && whole[|b|] == t[0];
    assert |a| == |b|;
    assert a == whole[..|a|] && b == whole[..|b|];
    assert s == whole[|a|..] && t == whole[|b|..];
  }

  lemma CutAfterNewline(w: string, n: nat)
    requires Guarded(w) && 0 < n <= |w| && w[n - 1] == '\n'
    ensures Guarded(w[n..])
  {
    forall i | 0 <= i < |w[n..]| && w[n..][i] == '\'' ensures i > 0 && w[n..][i - 1] == '\\' {
      assert w[n + i] == '\'';
    }
  }

  lemma SkipBareLine(stem: string, tail: string, w: string, after: string)
    requires '\'' !in stem && '\n' !in stem && Guarded(w)
    requires stem + "\n" + tail == w + "'\n" + after
    ensures |w| > |stem| && Guarded(w[|stem| + 1..])
    ensures tail == w[|stem| + 1..] + "'\n" + after
  {
    var whole := stem + "\n" + tail;
    assert whole[|w|] == '\'' && whole[|stem|] == '\n';
    assert |w| > |stem|;
    assert w[|stem|] == whole[|stem|];
    CutAfterNewline(w, |stem| + 1);
    assert tail == whole[|stem| + 1..];
  }

  lemma SwapReadings(stem: string, q: string, tail: string, w: string, after: string)
    requires '\'' !in stem && stem != "" && stem[|stem| - 1] == ' ' && Guarded(w) && Guarded(q)
    requires stem + ("'" + q + "'\n") + tail == w + "'\n" + after
    ensures q != "" && Guarded(q[1..]) && after == q[1..] + "'\n" + tail
  {
    var whole := stem + ("'" + q + "'\n") + tail;
    assert whole[|stem| - 1] == ' ' && whole[|stem|] == '\'' && whole[|w|] == '\'';
    assert |w| == |stem|;
    assert whole[|stem| + 1..] == q + "'\n" + tail;
    assert whole[|w| + 1..] == "\n" + after;
    assert (q + "'\n" + tail)[0] == '\n';
    assert q != "" && q[0] == '\n';
    CutAfterNewline(q, 1);
    assert after == ("\n" + after)[1..] == (q + "'\n" + tail)[1..];
  }

  /** A reading that starts inside a quoted value never meets the end of an emitted text: the quotes it
      takes for closing ones are opening ones, and the other way round, for as long as it goes on. */
  lemma {:induction false} NoSecondReading(xs: seq<Line>, w: string, ys: seq<Line>)
    requires LinesOk(xs) && LinesOk(ys) && Guarded(w)
    ensures Text(xs) != w + "'\n" + Text(ys)
    decreases |Text(xs)|
  {
    if Text(xs) == w + "'\n" + Text(ys) {
      var x, tail := xs[0], Text(xs[1..]);
      StemShape(x);
      if Quoted(x).None? {
        SkipBareLine(Stem(x), tail, w, Text(ys));
        NoSecondReading(xs[1..], w[|Stem(x)| + 1..], ys);
      } else {
        QuoteGuarded(Quoted(x).value);
        SwapReadings(Stem(x), Quote(Quoted(x).value), tail, w, Text(ys));
        NoSecondReading(ys, Quote(Quoted(x).value)[1..], xs[1..]);
      }
    }
  }

  lemma EarlierQuote(p: string, s: string, q: string, t: string)
    requires |p| < |q| && Guarded(q) && p + "'\n" + s == q + "'\n" + t
    ensures |q| > |p| + 1 && Guarded(q[|p| + 2..]) && s == q[|p| + 2..] + "'\n" + t
  {
    var whole := p + "'\n" + s;
    assert whole[|p|] == '\'' && whole[|p| + 1] == '\n' && whole[|q|] == '\'';
    assert |q| != |p| + 1;
    assert q[|p| + 1] == whole[|p| + 1];
    CutAfterNewline(q, |p| + 2);
    assert s == whole[|p| + 2..];
  }

  /** Of two readings of one text, neither closes the first value earlier. */
  lemma SameClosingQuote(v: string, xs: seq<Line>, w: string, ys: seq<Line>)
    requires LinesOk(xs) && LinesOk(ys)
    requires Quote(v) + "'\n" + Text(xs) == Quote(w) + "'\n" + Text(ys)
    ensures |Quote(v)| >= |Quote(w)|
  {
    if |Quote(v)| < |Quote(w)| {
      QuoteGuarded(w);
      EarlierQuote(Quote(v), Text(xs), Quote(w), Text(ys));
      NoSecondReading(xs, Quote(w)[|Quote(v)| + 2..], ys);
    }
  }

  /** The text determines the lines, whatever the values contain. */
  lemma {:induction false} TextDetermines(xs: seq<Line>, ys: seq<Line>)
    requires LinesOk(xs) && LinesOk(ys) && Text(xs) == Text(ys)
    ensures xs == ys
  {
    if |xs| != 0 && |ys| != 0 {
      var x, y, tx, ty := xs[0], ys[0], Text(xs[1..]), Text(ys[1..]);
      StemShape(x);
      StemShape(y);
      Associate(Stem(x), Rest(Quoted(x)), tx);
      Associate(Stem(y), Rest(Quoted(y)), ty);
      StemSplits(Stem(x), Stem(y), Rest(Quoted(x)) + tx, Rest(Quoted(y)) + ty);
      SameRest(Quoted(x), xs[1..], Quoted(y), ys[1..]);
      StemDecides(x, y);
      TextDetermines(xs[1..], ys[1..]);
    }
  }

  lemma SameRest(v: Option<string>, xs: seq<Line>, w: Option<string>, ys: seq<Line>)
    requires LinesOk(xs) && LinesOk(ys) && Rest(v) + Text(xs) == Rest(w) + Text(ys)
    ensures v == w && Text(xs) == Text(ys)
  {
    assert (Rest(v) + Text(xs))[0] == (Rest(w) + Text(ys))[0];
    if v.None? {
      assert ("\n" + Text(xs))[1..] == ("\n" + Text(ys))[1..];
    } else {
      DropFirst(Quote(v.value), Text(xs));
      DropFirst(Quote(w.value), Text(ys));
      SameClosingQuote(v.value, xs, w.value, ys);
      SameClosingQuote(w.value, ys, v.value, xs);
      EqualHalves(Quote(v.value), Text(xs), Quote(w.value), Text(ys));
      UnquoteQuote(v.value);
      UnquoteQuote(w.value);
    }
  }

  lemma DropFirst(q: string, s: string)
    ensures (("'" + q + "'\n") + s)[1..] == q + "'\n" + s
  {}

  lemma EqualHalves(p: string, s: string, q: string, t: string)
    requires |p| == |q| && p + "'\n" + s == q + "'\n" + t
    ensures p == q && s == t
  {
    var whole := p + "'\n" + s;
    assert p == whole[..|p|] && q == whole[..|q|];
    assert s == whole[|p| + 2..] && t == whole[|q| + 2..];
  }

  /** Two runs of the printer write the same text exactly when they leave the same headers, options
      and list entries; values may hold quotes, backslashes and newlines. */
  lemma EmissionInjective(calls: seq<Call>, others: seq<Call>)
    requires AllOk(calls) && AllOk(others)
    ensures Emitted(calls) == Emitted(others) <==> Lines(calls) == Lines(others)
  {
    EmittedIsText(calls);
    EmittedIsText(others);
    if Emitted(calls) == Emitted(others) {
      TextDetermines(Lines(calls), Lines(others));
    }
  }

  /** s up to, and without, the first c. */
  function UpTo(s: string, c: char): (p: string)
    ensures p <= s && c !in p && (|p| == |s| || s[|p|] == c)
  {
    if s == "" || s[0] == c then "" else [s[0]] + UpTo(s[1..], c)
  }

  /** An independent line reader: key up to the blank, value between the outer quotes; anything that starts
      otherwise than a header, an option or a list entry is not a line. */
  function ReadLine(s: string): Option<Line> {
    if s == "" then Some(Blank)
    else if "config " <= s then
      var (key, value) := ReadFields(s[7..]);
      Some(Header(key, value))
    else if "\toption " <= s then
      var (key, value) := ReadFields(s[8..]);
      if value.Some? then Some(Setting(key, value.value)) else None
    else if "\tlist " <= s then
      var (key, value) := ReadFields(s[6..]);
      if value.Some? then Some(Entry(key, value.value)) else None
    else None
  }

  function ReadFields(rest: string): (string, Option<string>) {
    var key := UpTo(rest, ' ');
    (key, if |rest| < |key| + 3 then None else Some(Unquote(rest[|key| + 2..|rest| - 1])))
  }

  function Read(text: string): Option<seq<Line>>
    decreases |text|
  {
    if text == "" then Some([])
    else
      var line := UpTo(text, '\n');
      var first, rest := ReadLine(line), if |line| == |text| then Some([]) else Read(text[|line| + 1..]);
      if first.Some? && rest.Some? then Some([first.value] + rest.value) else None
  }

  predicate OneLine(l: Line) {
    Quoted(l).Some? ==> '\n' !in Quoted(l).value
  }

  lemma {:induction false} QuoteKeepsLine(s: string)
    requires '\n' !in s
    ensures '\n' !in Quote(s)
  {
    if s != "" {
      QuoteKeepsLine(s[1..]);
    }
  }

  /** A line without its newline. */
  function Body(l: Line): string {
    Stem(l) + match Quoted(l) case None => "" case Some(v) => "'" + Quote(v) + "'"
  }

  lemma ReadKeyed(key: string, v: string)
    requires ' ' !in key
    ensures ReadFields(key + " '" + Quote(v) + "'") == (key, Some(v))
  {
    var q := Quote(v);
    var rest := key + " '" + q + "'";
    assert rest[|key|] == ' ' && forall i | 0 <= i < |key| :: rest[i] == key[i];
    assert |UpTo(rest, ' ')| == |key|;
    assert UpTo(rest, ' ') == rest[..|key|] == key;
    assert rest[|key| + 2..|rest| - 1] == q;
    UnquoteQuote(v);
  }

  /** The keyword a line starts with, and what follows it. */
  function Keyword(l: Line): string {
    match l case Header(_, _) => "config " case Setting(_, _) => "\toption " case Entry(_, _) => "\tlist " case Blank => ""
  }

  function Key(l: Line): string {
    match l case Header(kind, _) => kind case Setting(key, _) => key case Entry(key, _) => key case Blank => ""
  }

  lemma KeyedTail(keyword: string, key: string, w: string)
    ensures var body := keyword + key + " " + ("'" + w + "'");
      keyword <= body && body[|keyword|..] == key + " '" + w + "'"
  {
    assert key + " " + ("'" + w + "'") == key + " '" + w + "'";
    assert keyword + key + " " + ("'" + w + "'") == keyword + (key + " " + ("'" + w + "'"));
  }

  lemma BareTail(keyword: string, key: string)
    ensures var body := keyword + key + ""; keyword <= body && body[|keyword|..] == key
  {}

  lemma BodyTail(l: Line)
    ensures Keyword(l) <= Body(l)
    ensures l != Blank && Quoted(l).None? ==> Body(l)[|Keyword(l)|..] == Key(l)
    ensures Quoted(l).Some? ==> Body(l)[|Keyword(l)|..] == Key(l) + " '" + Quote(Quoted(l).value) + "'"
  {
    match l
    case Header(kind, None) => BareTail("config ", kind);
    case Header(kind, Some(name)) => KeyedTail("config ", kind, Quote(name));
    case Setting(key, value) => KeyedTail("\toption ", key, Quote(value));
    case Entry(key, value) => KeyedTail("\tlist ", key, Quote(value));
    case Blank =>
  }

  lemma BodyKeyword(l: Line)
    requires l != Blank
    ensures "config " <= Body(l) <==> l.Header?
    ensures "\toption " <= Body(l) <==> l.Setting?
    ensures "\tlist " <= Body(l) <==> l.Entry?
  {
    BodyTail(l);
    assert Keyword(l)[0] == Body(l)[0] && Keyword(l)[1] == Body(l)[1];
  }

  lemma ReadBody(l: Line)
    requires LineOk(l)
    ensures ReadLine(Body(l)) == Some(l)
  {
    if l != Blank {
      BodyKeyword(l);
      BodyTail(l);
      if Quoted(l).Some? {
        ReadKeyed(Key(l), Quoted(l).value);
      } else {
        assert UpTo(Key(l), ' ') == Key(l);
      }
      assert ReadFields(Body(l)[|Keyword(l)|..]) == (Key(l), Quoted(l));
    }
  }

  lemma BodyOneLine(l: Line)
    requires LineOk(l) && OneLine(l)
    ensures '\n' !in Body(l)
  {
    StemShape(l);
    if Quoted(l).Some? {
      QuoteKeepsLine(Quoted(l).value);
    }
  }

  lemma CutLine(body: string, tail: string)
    requires '\n' !in body
    ensures UpTo(body + "\n" + tail, '\n') == body && (body + "\n" + tail)[|body| + 1..] == tail
  {
    var text := body + "\n" + tail;
    assert text[|body|] == '\n' && forall i | 0 <= i < |body| :: text[i] == body[i];
    assert |UpTo(text, '\n')| == |body|;
    assert UpTo(text, '\n') == text[..|body|] == body;
  }

  lemma ReadStep(body: string, tail: string)
    requires '\n' !in body && ReadLine(body).Some? && Read(tail).Some?
    ensures Read(body + "\n" + tail) == Some([ReadLine(body).value] + Read(tail).value)
  {
    CutLine(body, tail);
  }

  /** Reading an emitted file gives back its lines, for values that stay on one line. */
  lemma {:induction false} ReadText(lines: seq<Line>)
    requires LinesOk(lines) && forall l | l in lines :: OneLine(l)
    ensures Read(Text(lines)) == Some(lines)
  {
    if |lines| != 0 {
      var l, tail := lines[0], Text(lines[1..]);
      ReadBody(l);
      BodyOneLine(l);
      LineTextIsBody(l);
      assert Text(lines) == Body(l) + "\n" + tail;
      ReadText(lines[1..]);
      ReadStep(Body(l), tail);
      assert [l] + lines[1..] == lines;
    }
  }

  lemma LineTextIsBody(l: Line)
    ensures LineText(l) == Body(l) + "\n"
  {
    match Quoted(l)
    case None =>
    case Some(v) => assert "'" + Quote(v) + "'\n" == "'" + Quote(v) + "'" + "\n";
  }

  /** The reader recovers from the printed text every header, option and list entry, in order. */
  lemma {:induction false} ReadEmitted(calls: seq<Call>)
    requires AllOk(calls) && forall l | l in Lines(calls) :: OneLine(l)
    ensures Read(Emitted(calls)) == Some(Lines(calls))
  {
    EmittedIsText(calls);
    ReadText(Lines(calls));
  }

  lemma {:induction false} LinesConcat(a: seq<Call>, b: seq<Call>)
    ensures Lines(a + b) == Lines(a) + Lines(b)
    decreases |b|
  {
    if b == [] {
      assert a + b == a;
    } else {
      assert (a + b)[..|a + b| - 1] == a + b[..|b| - 1];
      LinesConcat(a, b[..|b| - 1]);
    }
  }

  predicate Legible(calls: seq<Call>) {
    AllOk(calls) && forall l | l in Lines(calls) :: OneLine(l)
  }

  /** What a reader sees of a whole file: what it sees of the calls before c, then new, then what it sees of the rest. */
  predicate Reads(a: seq<Call>, c: Call, b: seq<Call>, added: seq<Line>) {
    && Read(Emitted(a)).Some? && Read(Emitted(b)).Some?
    && Read(Emitted(a + [c] + b)) == Some(Read(Emitted(a)).value + added + Read(Emitted(b)).value)
  }

  /** Every call adds to the file, at its place, exactly the line it is for; empty values and false booleans add none. */
  lemma ReaderSees(a: seq<Call>, c: Call, b: seq<Call>)
    requires Legible(a + [c] + b)
    ensures c.AddHeader? ==> Reads(a, c, b, [Header(c.kind, c.name)])
    ensures c.AddOpt? ==> Reads(a, c, b, if c.value == "" then [] else [Setting(c.key, c.value)])
    ensures c.AddList? ==> Reads(a, c, b, if c.value == "" then [] else [Entry(c.key, c.value)])
    ensures c.AddBool? ==> Reads(a, c, b, if c.on then [Setting(c.key, "1")] else [])
    ensures c.AddBlank? ==> Reads(a, c, b, [Blank])
  {
    LinesConcat(a + [c], b);
    LinesConcat(a, [c]);
    assert [c][..0] == [] && Lines([c]) == [] + LinesOf(c);
    forall x | x in a || x in b ensures CallOk(x) { assert x in a + [c] + b; }
    ReadEmitted(a);
    ReadEmitted(b);
    ReadEmitted(a + [c] + b);
  }
}
