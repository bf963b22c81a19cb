/** `parseSkillFrontmatter`: name and description from the head of a SKILL.md. */
module Frontmatter {
  import opened Domain
  import opened Text

  // ---- String functions of the Go library ---------------------------------------------

  /** `strings.ReplaceAll(s, "\r\n", "\n")`. */
  function Normalize(s: string): string {
    if |s| < 2 then s
    else if s[0] == '\r' && s[1] == '\n' then "\n" + Normalize(s[2..])
    else [s[0]] + Normalize(s[1..])
  }

  predicate At(s: string, i: nat, pattern: string) { i + |pattern| <= |s| && s[i..i + |pattern|] == pattern }

  /** `strings.Index`: the first occurrence. */
  function Index(s: string, pattern: string): (r: Option<nat>)
    ensures r.Some? ==> At(s, r.value, pattern) && forall j :: 0 <= j < r.value ==> !At(s, j, pattern)
    ensures r.None? ==> forall j: nat :: !At(s, j, pattern)
  {
    if |s| < |pattern| then None
    else if s[..|pattern|] == pattern then Some(0)
    else
      assert |s| > 0;
      var r := Index(s[1..], pattern);
      assert forall j: nat :: j > 0 && At(s, j, pattern) ==> At(s[1..], j - 1, pattern);
      if r.None? then None
      else
        assert forall j: nat :: At(s[1..], j, pattern) ==> At(s, j + 1, pattern);
        Some(r.value + 1)
  }

  predicate IsSpace(c: char) {
    || '\t' <= c <= '\r' || c == ' ' || c == '\U{0085}' || c == '\U{00A0}' || c == '\U{1680}'
    || '\U{2000}' <= c <= '\U{200A}' || c == '\U{2028}' || c == '\U{2029}' || c == '\U{202F}'
    || c == '\U{205F}' || c == '\U{3000}'
  }

  predicate IsQuote(c: char) { c == '"' || c == '\'' }

  const Space: char -> bool := (c: char) => IsSpace(c)
  const Quote: char -> bool := (c: char) => IsQuote(c)

  function TrimLeft(s: string, cut: char -> bool): string {
    if s != "" && cut(s[0]) then TrimLeft(s[1..], cut) else s
  }

  function TrimRight(s: string, cut: char -> bool): string {
    if s != "" && cut(s[|s| - 1]) then TrimRight(s[..|s| - 1], cut) else s
  }

  function Trim(s: string, cut: char -> bool): string { TrimRight(TrimLeft(s, cut), cut) }

  /** A value as the parser takes it from its line. */
  function Value(s: string): string { Trim(Trim(s, Space), Quote) }

  // ---- The parser ------------------------------------------------------------------------

  const Open: string := "---\n"
  const Close: string := "\n---"

  /** The text between the opening and the closing line. */
  function Block(data: string): Option<string> {
    var text := Normalize(data);
    if !At(text, 0, Open) then None
    else
      match Index(text[4..], Close)
      case None => None
      case Some(end) => Some(text[4..][..end])
  }

  /** What a line says about a key, if anything. */
  function Says(line: string, key: string): Option<string> {
    match Index(line, ":")
    case None => None
    case Some(i) => if Trim(line[..i], Space) == key then Some(Value(line[i + 1..])) else None
  }

  /** The last line that says something about the key decides. */
  function Field(lines: seq<string>, key: string): string {
    if lines == [] then ""
    else
      match Says(lines[|lines| - 1], key)
      case Some(v) => v
      case None => Field(lines[..|lines| - 1], key)
  }

  function Parsed(data: string): (string, string) {
    match Block(data)
    case None => ("", "")
    case Some(block) => (Field(Split(block, '\n'), "name"), Field(Split(block, '\n'), "description"))
  }

  method Parse(data: string) returns (name: string, description: string)
    ensures (name, description) == Parsed(data)
  {
    name, description := "", "";
    var text := Normalize(data);
    if !(|text| >= 4 && text[..4] == Open) {
      return;
    }
    var end := Index(text[4..], Close);
    if end.None? {
      return;
    }
    var block := text[4..][..end.value];
    var lines := Split(block, '\n');
    for k := 0 to |lines|
      invariant name == Field(lines[..k], "name") && description == Field(lines[..k], "description")
    {
      assert lines[..k + 1][..k] == lines[..k];
      var i := Index(lines[k], ":");
      if i.Some? {
        var val := Trim(Trim(lines[k][i.value + 1..], Space), Quote);
        var key := Trim(lines[k][..i.value], Space);
        if key == "name" {
          name := val;
        } else if key == "description" {
          description := val;
        }
      }
    }
    assert lines[..|lines|] == lines;
  }

  // ---- Line endings ---------------------------------------------------------------------------

  function WithCrlf(s: string): string {
    if s == "" then "" else (if s[0] == '\n' then "\r\n" else [s[0]]) + WithCrlf(s[1..])
  }

  lemma {:induction false} NormalizeCrlf(s: string)
    ensures Normalize(WithCrlf(s)) == s
  {
    if s != "" {
      var rest := WithCrlf(s[1..]);
      NormalizeCrlf(s[1..]);
      if s[0] == '\n' {
        assert ("\r\n" + rest)[2..] == rest;
      } else {
        assert ([s[0]] + rest)[1..] == rest;
        assert rest != "" && s[0] == '\r' ==> rest[0] != '\n' by { CrlfHead(s[1..]); }
        assert s == [s[0]] + s[1..];
      }
    }
  }

  lemma CrlfHead(s: string)
    ensures WithCrlf(s) == "" <==> s == ""
    ensures s != "" ==> WithCrlf(s)[0] != '\n'
  {
  }

  /** Every line feed has a carriage return before it, and nothing else is added. */
  lemma {:induction false} CrlfShape(s: string)
    ensures forall i :: 0 <= i < |WithCrlf(s)| && WithCrlf(s)[i] == '\n' ==> i > 0 && WithCrlf(s)[i - 1] == '\r'
    ensures '\n' !in s ==> WithCrlf(s) == s
  {
    if s != "" {
      CrlfShape(s[1..]);
      var rest := WithCrlf(s[1..]);
      var head := if s[0] == '\n' then "\r\n" else [s[0]];
      forall i | 0 <= i < |WithCrlf(s)| && WithCrlf(s)[i] == '\n'
        ensures i > 0 && WithCrlf(s)[i - 1] == '\r'
      {
        if i >= |head| {
          assert rest[i - |head|] == '\n';
          assert WithCrlf(s)[i - 1] == rest[i - |head| - 1];
        }
      }
      assert s == [s[0]] + s[1..];
    }
  }

  lemma {:induction false} NormalizeIdle(s: string)
    requires forall i: nat :: !At(s, i, "\r\n")
    ensures Normalize(s) == s
  {
    if |s| >= 2 {
      assert !At(s, 0, "\r\n");
      assert s[0..2] == [s[0], s[1]];
      forall i: nat
        ensures !At(s[1..], i, "\r\n")
      {
        assert !At(s, i + 1, "\r\n");
      }
      NormalizeIdle(s[1..]);
      assert s == [s[0]] + s[1..];
    }
  }

  /** Windows line endings make no difference. */
  lemma CrlfSame(s: string)
    requires forall i: nat :: !At(s, i, "\r\n")
    ensures Parsed(WithCrlf(s)) == Parsed(s)
  {
    NormalizeCrlf(s);
    NormalizeIdle(s);
  }

  // ---- Rendering and parsing ---------------------------------------------------------------------

  function Render(name: string, description: string, body: string): string {
    "---" + "\n" + ("name: " + name + "\n" + ("description: " + description + "\n" + ("---" + body)))
  }

  function Chop(s: string): string { if s != "" && s[|s| - 1] == '\r' then s[..|s| - 1] else s }

  lemma NormalizeCons(c: char, s: string)
    requires c != '\r'
    ensures Normalize([c] + s) == [c] + Normalize(s)
  {
    assert ([c] + s)[1..] == s;
    assert s == "" ==> Normalize(s) == "" && [c] + s == [c];
  }

  lemma NormalizeReturn(rest: string)
    ensures Normalize("\r" + "\n" + rest) == "\n" + Normalize(rest)
  {
    assert ("\r" + "\n" + rest)[2..] == rest;
  }

  lemma NormalizeSkip(c: char, s: string)
    requires s != "" && (c == '\r' ==> s[0] != '\n')
    ensures Normalize([c] + s) == [c] + Normalize(s)
  {
    assert ([c] + s)[1..] == s && ([c] + s)[1] == s[0];
  }

  lemma {:induction false} NormalizeLine(line: string, rest: string)
    requires '\n' !in line
    ensures Normalize(line + "\n" + rest) == Chop(line) + "\n" + Normalize(rest)
  {
    if line == "" {
      NormalizeCons('\n', rest);
      assert line + "\n" + rest == ['\n'] + rest;
    } else if line == "\r" {
      NormalizeReturn(rest);
      assert Chop(line) == "";
    } else {
      ConsLine(line, rest);
      ConsChopped(line, Normalize(rest));
      NormalizeLine(line[1..], rest);
      NormalizeSkip(line[0], line[1..] + "\n" + rest);
    }
  }

  lemma ConsLine(line: string, rest: string)
    requires line != "" && line != "\r" && '\n' !in line
    ensures line + "\n" + rest == [line[0]] + (line[1..] + "\n" + rest)
    ensures var tail := line[1..] + "\n" + rest; tail != "" && (line[0] == '\r' ==> tail[0] != '\n')
  {
    assert |line| > 1 ==> (line[1..] + "\n" + rest)[0] == line[1];
    assert line[0] == '\r' ==> |line| > 1;
  }

  lemma ConsChopped(line: string, rest: string)
    requires line != "" && line != "\r"
    ensures [line[0]] + (Chop(line[1..]) + "\n" + rest) == Chop(line) + "\n" + rest
  {
    assert Chop(line) == [line[0]] + Chop(line[1..]);
  }

  lemma NormalizeTail(body: string)
    ensures Normalize("---" + body) == "---" + Normalize(body)
  {
    NormalizeCons('-', body);
    NormalizeCons('-', "-" + body);
    NormalizeCons('-', "--" + body);
    assert "---" + body == "-" + ("-" + ("-" + body)) && "--" + body == "-" + ("-" + body);
  }

  lemma ChoppedLine(key: string, value: string)
    requires key != "" && key[|key| - 1] != '\r'
    ensures Chop(key + value) == key + Chop(value)
  {
  }

  lemma CloseHead(s: string)
    ensures forall j: nat :: At(s, j, Close) ==> s[j] == '\n' && s[j + 1] == '-'
  {
    forall j: nat | At(s, j, Close)
      ensures s[j] == '\n' && s[j + 1] == '-'
    {
      assert s[j..j + 4][0] == '\n' && s[j..j + 4][1] == '-';
    }
  }

  // ---- One line ---------------------------------------------------------------------------------------

  lemma ColonAt(key: string, rest: string)
    requires ':' !in key
    ensures Index(key + ":" + rest, ":") == Some(|key|)
  {
    var s := key + ":" + rest;
    assert s[|key|..|key| + 1] == ":";
    assert At(s, |key|, ":");
    forall j: nat | j < |key|
      ensures !At(s, j, ":")
    {
      assert s[j] == key[j];
      assert s[j..j + 1] == [s[j]];
    }
  }

  lemma KeySays(key: string, rest: string, asked: string)
    requires ':' !in key && key != "" && !IsSpace(key[0]) && !IsSpace(key[|key| - 1])
    ensures Says(key + ":" + rest, asked) == if key == asked then Some(Value(rest)) else None
  {
    ColonAt(key, rest);
    var s := key + ":" + rest;
    assert s[..|key|] == key && s[|key| + 1..] == rest;
    assert Trim(key, Space) == key;
  }

  lemma {:induction false} TrimSnoc(s: string, c: char, cut: char -> bool)
    requires cut(c)
    ensures Trim(s + [c], cut) == Trim(s, cut)
  {
    var t := s + [c];
    if s == "" {
      assert t[1..] == "";
    } else if cut(s[0]) {
      assert t[1..] == s[1..] + [c];
      TrimSnoc(s[1..], c, cut);
    } else {
      assert t[..|t| - 1] == s;
    }
  }

  lemma ValueOfChopped(v: string)
    ensures Value(" " + Chop(v)) == Value(v)
  {
    var c := Chop(v);
    assert (" " + c)[1..] == c;
    if v != "" && v[|v| - 1] == '\r' {
      assert v == c + ['\r'];
      TrimSnoc(c, '\r', Space);
    }
  }

  // ---- Any number of lines -----------------------------------------------------------------------------

  datatype Pair = Pair(key: string, value: string)

  predicate GoodKey(k: string) {
    k != "" && ':' !in k && '\n' !in k && !IsSpace(k[0]) && !IsSpace(k[|k| - 1]) && k[0] != '-'
  }

  /** Proper keys, and values without line breaks. */
  predicate GoodPairs(ps: seq<Pair>) { forall i :: 0 <= i < |ps| ==> GoodKey(ps[i].key) && '\n' !in ps[i].value }

  function Line(p: Pair): string { p.key + ":" + (" " + p.value) }

  function RestOf(ps: seq<Pair>, body: string): string {
    if ps == [] then "---" + body else Line(ps[0]) + "\n" + RestOf(ps[1..], body)
  }

  /** A head with these lines, then any body. */
  function RenderAll(ps: seq<Pair>, body: string): string { "---" + "\n" + RestOf(ps, body) }

  function Chopped(ps: seq<Pair>): (r: seq<Pair>)
    ensures |r| == |ps| && forall i :: 0 <= i < |ps| ==> r[i] == Pair(ps[i].key, Chop(ps[i].value))
  {
    seq(|ps|, i requires 0 <= i < |ps| => Pair(ps[i].key, Chop(ps[i].value)))
  }

  lemma LineOk(p: Pair)
    requires GoodKey(p.key) && '\n' !in p.value
    ensures '\n' !in Line(p) && Line(p) != "" && Line(p)[0] != '-' && Chop(Line(p)) == Line(Pair(p.key, Chop(p.value)))
  {
    var start := p.key + ":" + " ";
    assert Line(p) == start + p.value && Line(Pair(p.key, Chop(p.value))) == start + Chop(p.value);
    ChoppedLine(start, p.value);
  }

  lemma {:induction false} NormalizeRest(ps: seq<Pair>, body: string)
    requires GoodPairs(ps)
    ensures Normalize(RestOf(ps, body)) == RestOf(Chopped(ps), Normalize(body))
    decreases |ps|
  {
    if ps == [] {
      NormalizeTail(body);
    } else {
      LineOk(ps[0]);
      NormalizeLine(Line(ps[0]), RestOf(ps[1..], body));
      NormalizeRest(ps[1..], body);
      assert Chopped(ps)[1..] == Chopped(ps[1..]);
    }
  }

  /** Before a line that does not start with a dash the block goes on. */
  lemma {:induction false} GoesOn(line: string, rest: string)
    requires '\n' !in line && rest != "" && rest[0] != '-' && Index(rest, Close).Some?
    ensures Index(line + "\n" + rest, Close) == Some(|line| + 1 + Index(rest, Close).value)
  {
    var s, n := line + "\n" + rest, |line| + 1;
    assert s[n..] == rest;
    forall j: nat | j < n
      ensures !At(s, j, Close)
    {
      NotInLine(line, rest, j);
    }
    FirstAfter(s, n);
  }

  /** If there is none before `n`, the first is the first from there. */
  lemma {:induction false} FirstAfter(s: string, n: nat)
    requires n <= |s| && Index(s[n..], Close).Some? && forall j: nat :: j < n ==> !At(s, j, Close)
    ensures Index(s, Close) == Some(n + Index(s[n..], Close).value)
  {
    var k := Index(s[n..], Close).value;
    AtShift(s, n, k);
    forall j: nat | j < n + k
      ensures !At(s, j, Close)
    {
      if j >= n {
        AtShift(s, n, j - n);
      }
    }
    FirstIs(s, n + k);
  }

  lemma {:induction false} FirstIs(s: string, k: nat)
    requires At(s, k, Close) && forall j: nat :: j < k ==> !At(s, j, Close)
    ensures Index(s, Close) == Some(k)
  {
  }

  lemma {:induction false} NotInLine(line: string, rest: string, j: nat)
    requires '\n' !in line && rest != "" && rest[0] != '-' && j <= |line|
    ensures !At(line + "\n" + rest, j, Close)
  {
    var s := line + "\n" + rest;
    CloseHead(s);
    if j < |line| {
      assert s[j] == line[j];
    } else {
      assert s[j + 1] == rest[0];
    }
  }

  lemma AtShift(s: string, n: nat, k: nat)
    requires n <= |s|
    ensures At(s, n + k, Close) <==> At(s[n..], k, Close)
  {
    if n + k + 4 <= |s| {
      assert s[n + k..n + k + 4] == s[n..][k..k + 4];
    }
  }

  /** Before three dashes it ends. */
  lemma {:induction false} EndsHere(line: string, b: string)
    requires '\n' !in line
    ensures Index(line + "\n" + ("---" + b), Close) == Some(|line|)
  {
    var s, n := line + "\n" + ("---" + b), |line|;
    assert s[n..n + 4] == Close;
    assert At(s, n, Close);
    CloseHead(s);
    forall j: nat | j < n
      ensures !At(s, j, Close)
    {
      assert s[j] == line[j];
    }
  }

  function Lines(ps: seq<Pair>): (r: seq<string>)
    ensures |r| == |ps| && forall i :: 0 <= i < |ps| ==> r[i] == Line(ps[i])
  {
    seq(|ps|, i requires 0 <= i < |ps| => Line(ps[i]))
  }

  lemma {:induction false} BlockEnds(ps: seq<Pair>, b: string)
    requires GoodPairs(ps) && ps != []
    ensures Index(RestOf(ps, b), Close) == Some(|Join(Lines(ps), '\n')|)
    decreases |ps|
  {
    LineOk(ps[0]);
    if |ps| == 1 {
      EndsHere(Line(ps[0]), b);
      assert RestOf(ps[1..], b) == "---" + b;
    } else {
      BlockEnds(ps[1..], b);
      RestStarts(ps[1..], b);
      GoesOn(Line(ps[0]), RestOf(ps[1..], b));
      JoinLines(ps);
    }
  }

  lemma RestStarts(ps: seq<Pair>, b: string)
    requires GoodPairs(ps) && ps != []
    ensures RestOf(ps, b) != "" && RestOf(ps, b)[0] != '-'
  {
    LineOk(ps[0]);
  }

  lemma JoinLines(ps: seq<Pair>)
    requires |ps| > 1
    ensures Join(Lines(ps), '\n') == Line(ps[0]) + "\n" + Join(Lines(ps[1..]), '\n')
  {
    assert Lines(ps)[1..] == Lines(ps[1..]);
  }

  lemma {:induction false} RestIs(ps: seq<Pair>, b: string)
    requires ps != []
    ensures RestOf(ps, b) == Join(Lines(ps), '\n') + ("\n" + ("---" + b))
    decreases |ps|
  {
    if |ps| == 1 {
      assert RestOf(ps[1..], b) == "---" + b;
      Reassociate(Line(ps[0]), "\n", "---" + b);
    } else {
      RestIs(ps[1..], b);
      JoinLines(ps);
      Reassociate(Line(ps[0]) + "\n", Join(Lines(ps[1..]), '\n'), "\n" + ("---" + b));
    }
  }

  lemma Reassociate(a: string, b: string, c: string)
    ensures (a + b) + c == a + (b + c)
  {
  }

  lemma OpensWith(rest: string)
    ensures var text := "---" + "\n" + rest; At(text, 0, Open) && text[4..] == rest
  {
    var text := "---" + "\n" + rest;
    assert text[0..4] == Open;
  }

  lemma RenderedBlock(ps: seq<Pair>, body: string)
    requires GoodPairs(ps) && ps != []
    ensures Block(RenderAll(ps, body)) == Some(Join(Lines(Chopped(ps)), '\n'))
  {
    NormalizeLine("---", RestOf(ps, body));
    NormalizeRest(ps, body);
    OpensWith(RestOf(Chopped(ps), Normalize(body)));
    BlockEnds(Chopped(ps), Normalize(body));
    RestIs(Chopped(ps), Normalize(body));
  }

  lemma RenderedLines(ps: seq<Pair>)
    requires GoodPairs(ps) && ps != []
    ensures Split(Join(Lines(Chopped(ps)), '\n'), '\n') == Lines(Chopped(ps))
  {
    forall i | 0 <= i < |ps|
      ensures '\n' !in Line(Chopped(ps)[i])
    {
      LineOk(Chopped(ps)[i]);
    }
    SplitJoin(Lines(Chopped(ps)), '\n');
  }

  lemma LineSays(p: Pair, key: string)
    requires GoodKey(p.key)
    ensures Says(Line(Pair(p.key, Chop(p.value))), key) == if p.key == key then Some(Value(p.value)) else None
  {
    KeySays(p.key, " " + Chop(p.value), key);
    ValueOfChopped(p.value);
  }

  /** The last pair with a key. */
  predicate LastWith(ps: seq<Pair>, i: nat, key: string)
    requires i < |ps|
  {
    ps[i].key == key && forall j :: i < j < |ps| ==> ps[j].key != key
  }

  /** What the last line for a key says, nothing if there is none. */
  function LastValue(ps: seq<Pair>, key: string): string {
    if ps == [] then "" else if ps[|ps| - 1].key == key then Value(ps[|ps| - 1].value) else LastValue(ps[..|ps| - 1], key)
  }

  lemma {:induction false} FieldOfAll(ps: seq<Pair>, key: string)
    requires GoodPairs(ps)
    ensures Field(Lines(Chopped(ps)), key) == LastValue(ps, key)
    decreases |ps|
  {
    if ps != [] {
      var n := |ps| - 1;
      LineSays(ps[n], key);
      FieldOfAll(ps[..n], key);
      assert Lines(Chopped(ps))[..n] == Lines(Chopped(ps[..n]));
    }
  }

  lemma {:induction false} LastValueAt(ps: seq<Pair>, i: nat, key: string)
    requires i < |ps| && LastWith(ps, i, key)
    ensures LastValue(ps, key) == Value(ps[i].value)
    decreases |ps|
  {
    if i < |ps| - 1 {
      LastValueAt(ps[..|ps| - 1], i, key);
    }
  }

  lemma {:induction false} NoValue(ps: seq<Pair>, key: string)
    requires forall i :: 0 <= i < |ps| ==> ps[i].key != key
    ensures LastValue(ps, key) == ""
    decreases |ps|
  {
    if ps != [] {
      NoValue(ps[..|ps| - 1], key);
    }
  }

  lemma LastValueIs(ps: seq<Pair>, key: string)
    ensures forall i :: 0 <= i < |ps| && LastWith(ps, i, key) ==> LastValue(ps, key) == Value(ps[i].value)
    ensures (forall i :: 0 <= i < |ps| ==> ps[i].key != key) ==> LastValue(ps, key) == ""
  {
    forall i | 0 <= i < |ps| && LastWith(ps, i, key)
      ensures LastValue(ps, key) == Value(ps[i].value)
    {
      LastValueAt(ps, i, key);
    }
    if forall i :: 0 <= i < |ps| ==> ps[i].key != key {
      NoValue(ps, key);
    }
  }

  /** A head of any lines is read key by key, the last line for a key deciding, whatever other
      keys there are and whatever body follows. */
  lemma ParseAll(ps: seq<Pair>, body: string)
    requires GoodPairs(ps) && ps != []
    ensures forall i :: 0 <= i < |ps| && LastWith(ps, i, "name") ==> Parsed(RenderAll(ps, body)).0 == Value(ps[i].value)
    ensures forall i :: 0 <= i < |ps| && LastWith(ps, i, "description") ==> Parsed(RenderAll(ps, body)).1 == Value(ps[i].value)
    ensures (forall i :: 0 <= i < |ps| ==> ps[i].key != "name") ==> Parsed(RenderAll(ps, body)).0 == ""
    ensures (forall i :: 0 <= i < |ps| ==> ps[i].key != "description") ==> Parsed(RenderAll(ps, body)).1 == ""
  {
    RenderedBlock(ps, body);
    RenderedLines(ps);
    FieldOfAll(ps, "name");
    FieldOfAll(ps, "description");
    LastValueIs(ps, "name");
    LastValueIs(ps, "description");
  }

  // ---- The round trip ------------------------------------------------------------------------------------

  /** Without line breaks in them, rendered values come back trimmed, whatever the body. */
  lemma ParseRendered(name: string, description: string, body: string)
    requires '\n' !in name && '\n' !in description
    ensures Parsed(Render(name, description, body)) == (Value(name), Value(description))
  {
    var ps := [Pair("name", name), Pair("description", description)];
    RenderIsAll(name, description, body);
    assert LastWith(ps, 0, "name") && LastWith(ps, 1, "description");
    ParseAll(ps, body);
  }

  lemma RenderIsAll(name: string, description: string, body: string)
    ensures Render(name, description, body) == RenderAll([Pair("name", name), Pair("description", description)], body)
  {
    var p, q := Pair("name", name), Pair("description", description);
    assert [p, q][1..] == [q] && [q][1..] == [];
    assert Line(p) == "name: " + name && Line(q) == "description: " + description;
    assert RestOf([], body) == "---" + body;
    assert RestOf([q], body) == Line(q) + "\n" + RestOf([], body);
    assert RestOf([p, q], body) == Line(p) + "\n" + RestOf([q], body);
  }

  /** The values that survive: no line break, and neither white space nor a quote outside. */
  predicate Survives(v: string) {
    '\n' !in v && (v == "" || (Bare(v[0]) && Bare(v[|v| - 1])))
  }

  predicate Bare(c: char) { !IsSpace(c) && !IsQuote(c) }

  lemma {:induction false} TrimPart(s: string, cut: char -> bool)
    ensures |TrimLeft(s, cut)| <= |s| && (|TrimLeft(s, cut)| == |s| ==> TrimLeft(s, cut) == s)
    ensures (TrimLeft(s, cut) == s <==> s == "" || !cut(s[0]))
    ensures forall c :: c in TrimLeft(s, cut) ==> c in s
  {
    if s != "" && cut(s[0]) {
      TrimPart(s[1..], cut);
    }
  }

  lemma {:induction false} TrimRightPart(s: string, cut: char -> bool)
    ensures |TrimRight(s, cut)| <= |s| && (|TrimRight(s, cut)| == |s| ==> TrimRight(s, cut) == s)
    ensures (TrimRight(s, cut) == s <==> s == "" || !cut(s[|s| - 1]))
    ensures forall c :: c in TrimRight(s, cut) ==> c in s
  {
    if s != "" && cut(s[|s| - 1]) {
      TrimRightPart(s[..|s| - 1], cut);
    }
  }

  lemma TrimFixed(s: string, cut: char -> bool)
    ensures |Trim(s, cut)| <= |s| && (|Trim(s, cut)| == |s| ==> Trim(s, cut) == s)
    ensures (Trim(s, cut) == s <==> s == "" || (!cut(s[0]) && !cut(s[|s| - 1])))
    ensures forall c :: c in Trim(s, cut) ==> c in s
  {
    TrimPart(s, cut);
    TrimRightPart(TrimLeft(s, cut), cut);
  }

  lemma {:induction false} ValueFixed(v: string)
    requires '\n' !in v
    ensures Value(v) == v <==> Survives(v)
  {
    TrimFixed(v, Space);
    TrimFixed(Trim(v, Space), Quote);
  }

  lemma {:induction false} ValueSubset(v: string)
    requires '\n' !in v
    ensures '\n' !in Value(v)
  {
    TrimFixed(v, Space);
    assert '\n' !in Trim(v, Space);
    TrimFixed(Trim(v, Space), Quote);
    assert '\n' !in Trim(Trim(v, Space), Quote);
  }

  lemma {:induction false} FieldHasNoBreak(lines: seq<string>, key: string)
    requires Plain(lines, '\n')
    ensures '\n' !in Field(lines, key)
    decreases |lines|
  {
    if lines != [] {
      var n := |lines| - 1;
      var line := lines[n];
      assert line in lines;
      match Index(line, ":") {
        case None =>
        case Some(i) => ValueSubset(line[i + 1..]);
      }
      FieldHasNoBreak(lines[..n], key);
    }
  }

  lemma ParsedHasNoBreak(data: string)
    ensures '\n' !in Parsed(data).0 && '\n' !in Parsed(data).1
  {
    match Block(data)
    case None =>
    case Some(block) =>
      SplitParts(block, '\n');
      FieldHasNoBreak(Split(block, '\n'), "name");
      FieldHasNoBreak(Split(block, '\n'), "description");
  }

  /** Rendering and parsing is the identity on exactly the values that survive, whatever
      body follows the closing line. */
  lemma RoundTrip(name: string, description: string, body: string)
    ensures Parsed(Render(name, description, body)) == (name, description) <==> Survives(name) && Survives(description)
  {
    ParsedHasNoBreak(Render(name, description, body));
    if '\n' !in name && '\n' !in description {
      ParseRendered(name, description, body);
      ValueFixed(name);
      ValueFixed(description);
    }
  }

  // ---- Quotes ------------------------------------------------------------------------------------------------

  lemma {:induction false} QuotedValue(v: string, q: char)
    requires Survives(v) && IsQuote(q)
    ensures Value([q] + v + [q]) == v
  {
    var x := [q] + v + [q];
    TrimFixed(x, Space);
    assert x[1..] == v + [q];
    if v == "" {
      assert v + [q] == [q] && [q][1..] == "";
      assert TrimLeft([q], Quote) == TrimLeft("", Quote) == "";
    } else {
      assert TrimLeft(x, Quote) == v + [q];
      assert (v + [q])[..|v|] == v;
      assert TrimRight(v + [q], Quote) == v;
    }
  }

  /** Values that would survive bare may as well be rendered in quotes of either kind. */
  lemma {:induction false} QuotedRoundTrip(name: string, description: string, body: string, q: char, q': char)
    requires Survives(name) && Survives(description) && IsQuote(q) && IsQuote(q')
    ensures Parsed(Render([q] + name + [q], [q'] + description + [q'], body)) == (name, description)
  {
    QuotedValue(name, q);
    QuotedValue(description, q');
    ParseRendered([q] + name + [q], [q'] + description + [q'], body);
  }
}
