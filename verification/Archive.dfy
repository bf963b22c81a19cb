/** What `validateSkillTar` lets through: archives whose every entry stays below the
    directory it is extracted to, wherever that is. */
module Archive {
  import opened Domain
  import opened Text
  import opened Paths

  datatype EntryKind = Regular | Directory | Symlink | HardLink | Other

  datatype Entry = Entry(name: string, kind: EntryKind, content: Bytes)

  /** What reading a tar yields: its entries up to the end, or up to a format error. */
  datatype Tar = Tar(entries: seq<Entry>, intact: bool)

  datatype Verdict = Accepted | Invalid | MissingManifest

  const Manifest: string := "SKILL.md"

  predicate HasPrefix(s: string, prefix: string) { |prefix| <= |s| && s[..|prefix|] == prefix }

  predicate Unsafe(clean: string) { Absolute(clean) || clean == ".." || HasPrefix(clean, "../") }

  /** From every directory, the name leads to a place at or below it. */
  ghost predicate Stays(name: string) {
    !Absolute(name) && forall at: Place :: at <= Walk(at, Parts(name))
  }

  /** From every directory, the name leads to the manifest right in it. */
  ghost predicate NamesManifest(name: string) {
    !Absolute(name) && forall at: Place :: Walk(at, Parts(name)) == at + ["SKILL.md"]
  }

  ghost predicate Harmless(e: Entry) { Stays(e.name) && !e.kind.Symlink? && !e.kind.HardLink? }

  ghost predicate AllHarmless(es: seq<Entry>) { forall i :: 0 <= i < |es| ==> Harmless(es[i]) }

  ghost predicate HasManifest(es: seq<Entry>) { exists i :: 0 <= i < |es| && NamesManifest(es[i].name) }

  /** The loop over the entries. The textual tests decide exactly the semantic question. */
  method ValidateTar(tar: Tar) returns (v: Verdict)
    ensures v == Accepted <==> tar.intact && AllHarmless(tar.entries) && HasManifest(tar.entries)
    ensures v == MissingManifest <==> tar.intact && AllHarmless(tar.entries) && !HasManifest(tar.entries)
  {
    var hasManifest := false;
    for i := 0 to |tar.entries|
      invariant forall j :: 0 <= j < i ==> Harmless(tar.entries[j])
      invariant hasManifest <==> exists j :: 0 <= j < i && NamesManifest(tar.entries[j].name)
    {
      var e := tar.entries[i];
      var clean := Clean(e.name);
      UnsafeIffLeaves(e.name);
      if Unsafe(clean) {
        return Invalid;
      }
      ManifestIffNamed(e.name);
      if e.kind.Symlink? || e.kind.HardLink? {
        return Invalid;
      }
      if clean == Manifest {
        hasManifest := true;
      }
    }
    if !tar.intact {
      return Invalid;
    }
    return if hasManifest then Accepted else MissingManifest;
  }

  // ---- The textual tests are exact --------------------------------------------------

  /** On a normalized relative path the test looks at the first part only. */
  lemma UnsafeIsUp(p: string)
    requires !Absolute(p)
    ensures Unsafe(Clean(p)) <==> CleanParts(p) != [] && CleanParts(p)[0] == ".."
  {
    PartsOfClean(p);
    CleanPartsNormal(p);
    var c, clean := CleanParts(p), Clean(p);
    if |c| == 1 {
      SlashInPrefix();
    } else if |c| > 1 {
      assert clean == c[0] + ['/'] + Join(c[1..], '/');
      if HasPrefix(clean, "../") {
        assert clean[..3][0] == '.' && clean[..3][1] == '.' && clean[..3][2] == '/';
        UpFirst(c[0], Join(c[1..], '/'));
      }
      if c[0] == ".." {
        assert clean[..3] == "../";
      }
      assert '/' in clean;
      assert clean != "..";
    }
  }

  lemma SlashInPrefix()
    ensures forall s :: HasPrefix(s, "../") ==> '/' in s
  {
    forall s | HasPrefix(s, "../")
      ensures '/' in s
    {
      assert s[..3][2] == '/';
    }
  }

  lemma UpFirst(first: string, rest: string)
    requires '/' !in first
    requires var s := first + ['/'] + rest; |s| >= 3 && s[0] == '.' && s[1] == '.' && s[2] == '/'
    ensures first == ".."
  {
    var s := first + ['/'] + rest;
    assert s[|first|] == '/';
    assert forall k :: 0 <= k < |first| ==> s[k] == first[k];
    assert first == s[..|first|];
  }

  lemma UnsafeIffLeaves(name: string)
    ensures Unsafe(Clean(name)) <==> !Stays(name)
  {
    PartsOfClean(name);
    if !Absolute(name) {
      UnsafeIsUp(name);
      CleanPartsNormal(name);
      var c := CleanParts(name);
      forall at: Place
        ensures Walk(at, Parts(name)) == Walk(at, c)
      {
        CleanTarget(at, name);
      }
      if c != [] && c[0] == ".." {
        var w := Walk([], c[1..]);
        var x := if w == [] then "x" else w[0] + "x";
        assert Step([x], "..") == [];
        assert Walk([x], c) == w;
        assert !([x] <= w);
      } else {
        forall at: Place
          ensures at <= Walk(at, c)
        {
          WalkNames(at, c);
        }
      }
    }
  }

  lemma ManifestIffNamed(name: string)
    requires !Unsafe(Clean(name))
    ensures Clean(name) == Manifest <==> NamesManifest(name)
  {
    PartsOfClean(name);
    UnsafeIsUp(name);
    CleanPartsNormal(name);
    var c := CleanParts(name);
    SplitPlain(Manifest, '/');
    forall at: Place
      ensures Walk(at, Parts(name)) == at + c
    {
      CleanTarget(at, name);
      WalkNames(at, c);
    }
    if NamesManifest(name) {
      assert c == [] + c == Walk([], Parts(name)) == [] + [Manifest] == [Manifest];
      assert Clean(name) == Join([Manifest], '/') == Manifest;
    }
    if Clean(name) == Manifest {
      assert Parts(Clean(name))[0] == Manifest;
      assert c == [Manifest];
    }
  }

  // ---- Skill names ----------------------------------------------------------------------

  predicate Alphanumeric(c: char) { 'a' <= c <= 'z' || 'A' <= c <= 'Z' || '0' <= c <= '9' }

  /** `^[a-zA-Z0-9][a-zA-Z0-9._-]{0,63}$`. */
  predicate ValidName(name: string) {
    && 1 <= |name| <= 64
    && Alphanumeric(name[0])
    && forall i :: 1 <= i < |name| ==> Alphanumeric(name[i]) || name[i] in {'.', '_', '-'}
  }

  // ---- The pattern as a regular expression ------------------------------------------------------

  /** A character class is a list of ranges. */
  datatype Pattern = OneOf(ranges: seq<(char, char)>) | Then(first: Pattern, second: Pattern) | UpTo(one: Pattern, n: nat)

  ghost predicate InClass(c: char, ranges: seq<(char, char)>) { exists i :: 0 <= i < |ranges| && ranges[i].0 <= c <= ranges[i].1 }

  ghost predicate Matches(p: Pattern, s: string)
    decreases p, 0, 0
  {
    match p
    case OneOf(ranges) => |s| == 1 && InClass(s[0], ranges)
    case Then(first, second) => exists i :: 0 <= i <= |s| && Matches(first, s[..i]) && Matches(second, s[i..])
    case UpTo(one, n) => Repeats(one, n, s)
  }

  /** At most `n` pieces, each matched by `one`. */
  ghost predicate Repeats(one: Pattern, n: nat, s: string)
    decreases one, 1, n
  {
    s == "" || (n > 0 && exists i :: 0 <= i <= |s| && Matches(one, s[..i]) && Repeats(one, n - 1, s[i..]))
  }

  const Head: seq<(char, char)> := [('a', 'z'), ('A', 'Z'), ('0', '9')]
  const Tail: seq<(char, char)> := [('a', 'z'), ('A', 'Z'), ('0', '9'), ('.', '.'), ('_', '_'), ('-', '-')]

  lemma {:induction false} RepeatsClass(ranges: seq<(char, char)>, n: nat, s: string)
    ensures Repeats(OneOf(ranges), n, s) <==> |s| <= n && forall i :: 0 <= i < |s| ==> InClass(s[i], ranges)
    decreases n
  {
    if s != "" && n > 0 {
      forall i | 0 <= i <= |s| && Matches(OneOf(ranges), s[..i])
        ensures i == 1
      {
      }
      RepeatsClass(ranges, n - 1, s[1..]);
      assert Matches(OneOf(ranges), s[..1]) <==> InClass(s[0], ranges);
    }
  }

  lemma Classes(c: char)
    ensures InClass(c, Head) <==> Alphanumeric(c)
    ensures InClass(c, Tail) <==> Alphanumeric(c) || c in {'.', '_', '-'}
  {
    assert Head[0].0 == 'a' && Head[1].0 == 'A' && Head[2].0 == '0';
    assert Tail[0].0 == 'a' && Tail[1].0 == 'A' && Tail[2].0 == '0' && Tail[3].0 == '.' && Tail[4].0 == '_' && Tail[5].0 == '-';
  }

  /** `ValidName` is the regular expression. */
  lemma NameIsPattern(name: string)
    ensures ValidName(name) <==> Matches(Then(OneOf(Head), UpTo(OneOf(Tail), 63)), name)
  {
    var p := Then(OneOf(Head), UpTo(OneOf(Tail), 63));
    forall c ensures (InClass(c, Head) <==> Alphanumeric(c)) && (InClass(c, Tail) <==> Alphanumeric(c) || c in {'.', '_', '-'}) {
      Classes(c);
    }
    if name != "" {
      RepeatsClass(Tail, 63, name[1..]);
      assert Matches(UpTo(OneOf(Tail), 63), name[1..]) <==> Repeats(OneOf(Tail), 63, name[1..]);
      assert Matches(OneOf(Head), name[..1]) <==> InClass(name[0], Head);
      assert forall i :: 0 <= i < |name| - 1 ==> name[1..][i] == name[i + 1];
      assert forall i :: 1 <= i < |name| ==> name[i] == name[1..][i - 1];
      forall i | 0 <= i <= |name| && Matches(OneOf(Head), name[..i])
        ensures i == 1
      {
      }
    }
  }

  /** `path.Join`: empty elements are ignored. */
  function PathJoin(base: string, name: string): string {
    if base == "" then (if name == "" then "" else Clean(name))
    else if name == "" then Clean(base)
    else Clean(base + "/" + name)
  }

  /** A valid name is one plain path element, so a skill's install directory is the child
      of that name of the skills directory, whatever that is. */
  lemma InstallDir(at: Place, base: string, name: string)
    requires ValidName(name)
    ensures Target(at, PathJoin(base, name)) == Target(at, base) + [name]
  {
    assert '/' !in name && name != "." && name != "..";
    if base == "" {
      CleanPreserves(at, name);
      SplitPlain(name, '/');
      SplitPlain("", '/');
      assert Walk(at, [name]) == Step(at, name) == at + [name];
      assert Walk(at, [""]) == at;
    } else {
      var p := base + "/" + name;
      CleanPreserves(at, p);
      SplitLast(base, name);
      WalkAppend(if Absolute(base) then [] else at, Parts(base), name);
      assert p[0] == base[0];
    }
  }

  lemma SplitLast(base: string, name: string)
    requires '/' !in name
    ensures Parts(base + "/" + name) == Parts(base) + [name]
  {
    SplitParts(base, '/');
    JoinAppend(Parts(base), name, '/');
    assert Plain(Parts(base) + [name], '/');
    SplitJoin(Parts(base) + [name], '/');
    assert base + "/" + name == base + ['/'] + name;
  }
}
