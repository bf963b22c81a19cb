/** Path handling: Go's lexical `Clean`, `sanitizePath` and `splitPath`, against what a
    path means, which is a walk through a tree of directories. */
module Paths {
  import opened Domain
  import opened Text

  /** A place in a file system: the names on the way down from the root. */
  type Place = seq<string>

  function Parts(p: string): (r: seq<string>)
    ensures r != []
  {
    Split(p, '/')
  }

  predicate Absolute(p: string) { p != "" && p[0] == '/' }

  // ---- What a path means ------------------------------------------------------------

  /** One step from `at`; the parent of the root is the root. */
  function Step(at: Place, part: string): Place {
    if part == "" || part == "." then at
    else if part == ".." then (if at == [] then [] else at[..|at| - 1])
    else at + [part]
  }

  function Walk(at: Place, parts: seq<string>): Place
    decreases |parts|
  {
    if parts == [] then at else Walk(Step(at, parts[0]), parts[1..])
  }

  // ---- Clean ------------------------------------------------------------------------

  /** The component stack: `..` removes a name, is dropped at the root, and piles up at the
      front of a relative path. */
  function Push(rooted: bool, stack: seq<string>, part: string): seq<string> {
    if part == "" || part == "." then stack
    else if part == ".." then
      if stack != [] && stack[|stack| - 1] != ".." then stack[..|stack| - 1]
      else if rooted then stack
      else stack + [".."]
    else stack + [part]
  }

  function Reduce(rooted: bool, stack: seq<string>, parts: seq<string>): seq<string>
    decreases |parts|
  {
    if parts == [] then stack else Reduce(rooted, Push(rooted, stack, parts[0]), parts[1..])
  }

  function CleanParts(p: string): seq<string> { Reduce(Absolute(p), [], Parts(p)) }

  /** `path.Clean`, and `filepath.Clean` on Unix. */
  function Clean(p: string): string {
    var parts := CleanParts(p);
    if Absolute(p) then "/" + Join(parts, '/')
    else if parts == [] then "."
    else Join(parts, '/')
  }

  /** No empty, `.` or slashed part, and `..` only at the front of a relative path. */
  predicate Normal(rooted: bool, parts: seq<string>) {
    && (forall i :: 0 <= i < |parts| ==> parts[i] != "" && parts[i] != "." && '/' !in parts[i])
    && (forall i :: 0 <= i < |parts| && parts[i] == ".." ==> !rooted)
    && (forall i, j :: 0 <= i < j < |parts| && parts[j] == ".." ==> parts[i] == "..")
  }

  lemma {:induction false} ReduceNormal(rooted: bool, stack: seq<string>, parts: seq<string>)
    requires Normal(rooted, stack) && Plain(parts, '/')
    ensures Normal(rooted, Reduce(rooted, stack, parts))
    decreases |parts|
  {
    if parts != [] {
      assert parts[0] in parts;
      ReduceNormal(rooted, Push(rooted, stack, parts[0]), parts[1..]);
    }
  }

  lemma CleanPartsNormal(p: string)
    ensures Normal(Absolute(p), CleanParts(p))
  {
    SplitParts(p, '/');
    ReduceNormal(Absolute(p), [], Parts(p));
  }

  lemma {:induction false} ReduceOfNormal(rooted: bool, stack: seq<string>, parts: seq<string>)
    requires Normal(rooted, stack + parts)
    ensures Reduce(rooted, stack, parts) == stack + parts
    decreases |parts|
  {
    if parts != [] {
      var all := stack + parts;
      assert all[|stack|] == parts[0];
      if parts[0] == ".." && stack != [] {
        assert all[|stack| - 1] == "..";
      }
      assert stack + [parts[0]] + parts[1..] == all;
      ReduceOfNormal(rooted, stack + [parts[0]], parts[1..]);
    }
  }

  /** The parts of a cleaned path. */
  lemma PartsOfClean(p: string)
    ensures var c := CleanParts(p);
            Parts(Clean(p)) == if Absolute(p) then [""] + (if c == [] then [""] else c)
                               else if c == [] then ["."] else c
    ensures Absolute(Clean(p)) == Absolute(p)
  {
    CleanPartsNormal(p);
    var c := CleanParts(p);
    assert Plain(c, '/');
    if c == [] {
      SplitHead("", "", '/');
      SplitPlain(".", '/');
    } else {
      SplitJoin(c, '/');
      var j := Join(c, '/');
      assert c[0] != "" && '/' !in c[0] && c[0][0] in c[0];
      assert j[0] == c[0][0];
      SplitHead("", j, '/');
      assert "" + ['/'] + j == "/" + j;
    }
  }

  lemma CleanIdempotent(p: string)
    ensures CleanParts(Clean(p)) == CleanParts(p) && Clean(Clean(p)) == Clean(p)
  {
    PartsOfClean(p);
    CleanPartsNormal(p);
    var c, rooted := CleanParts(p), Absolute(p);
    ReduceOfNormal(rooted, [], c);
    assert [] + c == c;
    if rooted {
      assert ([""] + c)[1..] == c;
      assert Push(true, [], "") == [];
      assert Reduce(true, [], [""] + c) == Reduce(true, [], c);
      assert Reduce(true, [], ["", ""]) == Reduce(true, [], [""]) == [];
    } else {
      assert Reduce(false, [], ["."]) == [];
    }
  }

  // ---- Clean preserves meaning ----------------------------------------------------------

  lemma {:induction false} WalkAppend(at: Place, parts: seq<string>, last: string)
    ensures Walk(at, parts + [last]) == Step(Walk(at, parts), last)
    decreases |parts|
  {
    if parts == [] {
      assert parts + [last] == [last] && [last][1..] == [];
    } else {
      assert (parts + [last])[1..] == parts[1..] + [last];
      WalkAppend(Step(at, parts[0]), parts[1..], last);
    }
  }

  lemma PushWalks(rooted: bool, at: Place, stack: seq<string>, part: string)
    requires Normal(rooted, stack) && (rooted ==> at == [])
    ensures Walk(at, Push(rooted, stack, part)) == Step(Walk(at, stack), part)
  {
    if part == ".." && stack != [] && stack[|stack| - 1] != ".." {
      var k := |stack| - 1;
      assert stack == stack[..k] + [stack[k]];
      WalkAppend(at, stack[..k], stack[k]);
    } else {
      WalkAppend(at, stack, part);
    }
  }

  lemma {:induction false} ReduceWalks(rooted: bool, at: Place, stack: seq<string>, parts: seq<string>)
    requires Normal(rooted, stack) && Plain(parts, '/') && (rooted ==> at == [])
    ensures Walk(at, Reduce(rooted, stack, parts)) == Walk(Walk(at, stack), parts)
    decreases |parts|
  {
    if parts != [] {
      assert parts[0] in parts;
      PushWalks(rooted, at, stack, parts[0]);
      ReduceNormal(rooted, stack, [parts[0]]);
      assert Reduce(rooted, stack, [parts[0]]) == Push(rooted, stack, parts[0]);
      ReduceWalks(rooted, at, Push(rooted, stack, parts[0]), parts[1..]);
    }
  }

  /** Where an absolute path leads, and where a relative one leads from `at`. */
  function Target(at: Place, p: string): Place { Walk(if Absolute(p) then [] else at, Parts(p)) }

  /** `Clean` never changes where a path leads. */
  lemma CleanPreserves(at: Place, p: string)
    ensures Target(at, Clean(p)) == Target(at, p)
  {
    CleanTarget(at, p);
    CleanTarget(at, Clean(p));
    CleanIdempotent(p);
    PartsOfClean(p);
  }

  lemma CleanTarget(at: Place, p: string)
    ensures Target(at, p) == Walk(if Absolute(p) then [] else at, CleanParts(p))
  {
    SplitParts(p, '/');
    ReduceWalks(Absolute(p), if Absolute(p) then [] else at, [], Parts(p));
  }

  lemma {:induction false} WalkNames(at: Place, parts: seq<string>)
    requires Normal(true, parts)
    ensures Walk(at, parts) == at + parts
    decreases |parts|
  {
    if parts != [] {
      WalkNames(at + [parts[0]], parts[1..]);
      assert parts == [parts[0]] + parts[1..];
    }
  }

  // ---- sanitizePath -------------------------------------------------------------------------

  const Banned: set<char> := {'\0', '\r', '\n'}

  function Sanitize(raw: string): Option<string> {
    if !Free(raw, Banned) then None else Some(Clean("/" + raw))
  }

  /** The name of a place. */
  function Absolutely(at: Place): string { "/" + Join(at, '/') }

  /** A path is refused for its characters only; otherwise the result names the place that
      walking the raw path from the root reaches, through real names alone, and sanitizing
      it again changes nothing. */
  lemma SanitizeResolves(raw: string)
    ensures Sanitize(raw).None? <==> '\0' in raw || '\r' in raw || '\n' in raw
    ensures Sanitize(raw).Some? ==>
      var at := Walk([], Parts(raw));
      && Sanitize(raw).value == Absolutely(at)
      && Normal(true, at)
      && Parts(Absolutely(at)) == [""] + (if at == [] then [""] else at)
      && Sanitize(Absolutely(at)) == Some(Absolutely(at))
  {
    if Free(raw, Banned) {
      var p := "/" + raw;
      assert p == "" + ['/'] + raw;
      SplitHead("", raw, '/');
      assert ([""] + Parts(raw))[1..] == Parts(raw);
      assert Walk([], Parts(p)) == Walk([], Parts(raw));
      CleanTarget([], p);
      CleanPartsNormal(p);
      WalkNames([], CleanParts(p));
      assert [] + CleanParts(p) == CleanParts(p);
      PartsOfClean(p);
      SanitizeAgain(raw);
    }
  }

  lemma SanitizeAgain(raw: string)
    requires Free(raw, Banned)
    ensures Sanitize(Clean("/" + raw)) == Some(Clean("/" + raw))
  {
    var p := "/" + raw;
    SplitFree(p, '/', Banned);
    ReduceFree(true, [], Parts(p));
    JoinFree(CleanParts(p), '/', Banned);
    assert Free(Clean(p), Banned);
    CleanIdempotent(p);
    PartsOfClean(p);
    RootedTwice(Clean(p));
  }

  /** Rooting a rooted path again only adds an empty part. */
  lemma RootedTwice(p: string)
    requires Absolute(p)
    ensures Clean("/" + p) == Clean(p)
  {
    assert "/" + p == "" + ['/'] + p;
    SplitHead("", p, '/');
    assert ([""] + Parts(p))[1..] == Parts(p);
    assert Push(true, [], "") == [];
  }

  lemma {:induction false} ReduceFree(rooted: bool, stack: seq<string>, parts: seq<string>)
    requires AllFree(stack, Banned) && AllFree(parts, Banned)
    ensures AllFree(Reduce(rooted, stack, parts), Banned)
    decreases |parts|
  {
    if parts != [] {
      assert parts[0] in parts;
      var next := Push(rooted, stack, parts[0]);
      assert forall p :: p in next ==> p in stack || p == parts[0] || p == "..";
      assert forall p :: p in parts[1..] ==> p in parts;
      assert AllFree(next, Banned);
      ReduceFree(rooted, next, parts[1..]);
    }
  }

  // ---- splitPath --------------------------------------------------------------------------------

  /** `strings.LastIndex(p, "/")`. */
  function LastSlash(p: string): (i: int)
    ensures -1 <= i < |p|
    ensures i >= 0 ==> p[i] == '/'
    ensures forall k :: i < k < |p| ==> p[k] != '/'
  {
    if p == "" then -1
    else if p[|p| - 1] == '/' then |p| - 1
    else LastSlash(p[..|p| - 1])
  }

  function SplitPath(p: string): (string, string) {
    var i := LastSlash(p);
    if i < 0 then ("/", p)
    else (if i == 0 then "/" else p[..i], p[i + 1..])
  }

  function Rejoin(dir: string, file: string): string {
    if dir == "/" then "/" + file else dir + "/" + file
  }

  /** The file part has no slash, and rejoining restores the path, except for a path with no
      slash at all or a slash-free name after exactly two slashes. */
  lemma {:induction false} SplitPathRejoins(p: string)
    ensures '/' !in SplitPath(p).1
    ensures Rejoin(SplitPath(p).0, SplitPath(p).1) == p <==> LastSlash(p) >= 0 && !(LastSlash(p) == 1 && p[0] == '/')
  {
    var i := LastSlash(p);
    var (dir, file) := SplitPath(p);
    if i < 0 {
      assert |Rejoin(dir, file)| == |p| + 1;
    } else {
      assert p == p[..i] + ['/'] + p[i + 1..];
      if dir == "/" && i > 0 {
        assert i == 1 && p[0] == p[..1][0];
        assert |Rejoin(dir, file)| == |p| - 1;
      }
      if i == 1 && p[0] == '/' {
        assert p[..1] == "/";
      }
    }
  }

  lemma {:induction false} SplitPathAt(before: string, file: string)
    requires '/' !in file
    ensures SplitPath(before + ['/'] + file) == (if before == "" then "/" else before, file)
  {
    var p, n := before + ['/'] + file, |before|;
    assert p[n] == '/';
    forall k | n < k < |p|
      ensures p[k] != '/'
    {
      assert p[k] == file[k - n - 1];
    }
    assert LastSlash(p) == n;
    assert p[..n] == before && p[n + 1..] == file;
  }

  /** A sanitized path splits into its parent directory and its last name. */
  lemma {:induction false} SplitSanitized(at: Place)
    requires Normal(true, at)
    ensures SplitPath(Absolutely(at)) ==
            if at == [] then ("/", "") else (Absolutely(at[..|at| - 1]), at[|at| - 1])
    ensures Rejoin(SplitPath(Absolutely(at)).0, SplitPath(Absolutely(at)).1) == Absolutely(at)
  {
    if |at| <= 1 {
      var file := Join(at, '/');
      SplitPathAt("", file);
      assert Absolutely(at) == "" + ['/'] + file;
      assert |at| == 1 ==> at[..0] == [];
      assert Absolutely([]) == "/";
    } else {
      var k := |at| - 1;
      var dir, file := Absolutely(at[..k]), at[k];
      assert at == at[..k] + [file];
      JoinAppend(at[..k], file, '/');
      assert Absolutely(at) == dir + ['/'] + file;
      SplitPathAt(dir, file);
      assert at[..k][0] != "" && |dir| > 1;
    }
  }
}
