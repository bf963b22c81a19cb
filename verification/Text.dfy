/** Splitting and joining strings, as Go's `strings` package does it for one separator. */
module Text {

  function Split(s: string, sep: char): (parts: seq<string>)
    ensures parts != []
  {
    if s == "" then [""]
    else
      var rest := Split(s[1..], sep);
      if s[0] == sep then [""] + rest else [[s[0]] + rest[0]] + rest[1..]
  }

  function Join(parts: seq<string>, sep: char): string {
    if parts == [] then ""
    else if |parts| == 1 then parts[0]
    else parts[0] + [sep] + Join(parts[1..], sep)
  }

  /** No part contains the separator. */
  predicate Plain(parts: seq<string>, sep: char) { forall p :: p in parts ==> sep !in p }

  predicate Free(s: string, banned: set<char>) { forall c :: c in s ==> c !in banned }

  lemma {:induction false} SplitParts(s: string, sep: char)
    ensures Plain(Split(s, sep), sep)
    ensures Join(Split(s, sep), sep) == s
  {
    if s != "" {
      SplitParts(s[1..], sep);
      var rest := Split(s[1..], sep);
      assert s == [s[0]] + s[1..];
      if s[0] == sep {
        JoinNew(rest, sep);
      } else {
        JoinGrow(s[0], rest, sep);
      }
    }
  }

  lemma JoinNew(parts: seq<string>, sep: char)
    requires parts != [] && Plain(parts, sep)
    ensures Join([""] + parts, sep) == [sep] + Join(parts, sep) && Plain([""] + parts, sep)
  {
    assert ([""] + parts)[1..] == parts;
  }

  lemma JoinGrow(c: char, parts: seq<string>, sep: char)
    requires parts != [] && Plain(parts, sep) && c != sep
    ensures var more := [[c] + parts[0]] + parts[1..]; Join(more, sep) == [c] + Join(parts, sep) && Plain(more, sep)
  {
    var more := [[c] + parts[0]] + parts[1..];
    assert more[1..] == parts[1..];
    assert parts[0] in parts && forall p :: p in parts[1..] ==> p in parts;
  }

  /** Splitting what a separator joins: the first part, then the rest. */
  lemma {:induction false} SplitHead(p: string, rest: string, sep: char)
    requires sep !in p
    ensures Split(p + [sep] + rest, sep) == [p] + Split(rest, sep)
  {
    var s := p + [sep] + rest;
    if p == "" {
      assert s[1..] == rest;
    } else {
      assert s[1..] == p[1..] + [sep] + rest;
      SplitHead(p[1..], rest, sep);
      assert p[0] in p && [p[0]] + p[1..] == p;
      assert ([p[1..]] + Split(rest, sep))[1..] == Split(rest, sep);
    }
  }

  lemma {:induction false} SplitPlain(p: string, sep: char)
    requires sep !in p
    ensures Split(p, sep) == [p]
  {
    if p != "" {
      SplitPlain(p[1..], sep);
      assert p[0] in p && [p[0]] + p[1..] == p;
    }
  }

  lemma {:induction false} SplitJoin(parts: seq<string>, sep: char)
    requires parts != [] && Plain(parts, sep)
    ensures Split(Join(parts, sep), sep) == parts
    decreases |parts|
  {
    if |parts| == 1 {
      SplitPlain(parts[0], sep);
    } else {
      SplitJoin(parts[1..], sep);
      SplitHead(parts[0], Join(parts[1..], sep), sep);
      assert parts == [parts[0]] + parts[1..];
    }
  }

  lemma {:induction false} JoinAppend(parts: seq<string>, last: string, sep: char)
    requires parts != []
    ensures Join(parts + [last], sep) == Join(parts, sep) + [sep] + last
    decreases |parts|
  {
    assert (parts + [last])[1..] == parts[1..] + [last];
    if |parts| > 1 {
      JoinAppend(parts[1..], last, sep);
    } else {
      assert parts[1..] + [last] == [last];
    }
  }

  // ---- Characters survive ---------------------------------------------------------

  predicate AllFree(parts: seq<string>, banned: set<char>) { forall p :: p in parts ==> Free(p, banned) }

  lemma {:induction false} SplitFree(s: string, sep: char, banned: set<char>)
    requires Free(s, banned)
    ensures AllFree(Split(s, sep), banned)
  {
    if s != "" {
      assert Free(s[1..], banned);
      SplitFree(s[1..], sep, banned);
      var rest := Split(s[1..], sep);
      assert s[0] in s && rest[0] in rest;
      assert forall p :: p in rest[1..] ==> p in rest;
    }
  }

  lemma {:induction false} JoinFree(parts: seq<string>, sep: char, banned: set<char>)
    requires AllFree(parts, banned) && sep !in banned
    ensures Free(Join(parts, sep), banned)
    decreases |parts|
  {
    if |parts| > 0 {
      assert parts[0] in parts;
      assert forall p :: p in parts[1..] ==> p in parts;
      JoinFree(parts[1..], sep, banned);
    }
  }
}
