/** `injectSkills`: every skill of a user is unpacked into its own directory of a new
    container. The file system is a map from places to nodes; the engine may fail to load,
    prepare or finish any skill. */
module Install {
  import opened Domain
  import opened Paths
  import opened Archive

  datatype Node = Dir | File(content: Bytes) | Special

  type Files = map<Place, Node>

  /** Some node on the way to `p`, or `p` itself, is not a directory. */
  predicate Blocked(fs: Files, p: Place)
    decreases |p|
  {
    (p in fs && !fs[p].Dir?) || (p != [] && Blocked(fs, p[..|p| - 1]))
  }

  /** `mkdir -p`, when nothing is in the way. */
  function MkdirP(fs: Files, p: Place): Files
    decreases |p|
  {
    var up := if p == [] then fs else MkdirP(fs, p[..|p| - 1]);
    if p in up then up else up[p := Dir]
  }

  /** Unpacks one entry: missing parents are made, a file may replace a file, but neither a
      file a directory nor a directory a file. */
  function Put(fs: Files, dest: Place, e: Entry): (Files, bool) {
    var t := Walk(dest, Parts(e.name));
    if e.kind.Directory? then
      if Blocked(fs, t) then (fs, false) else (MkdirP(fs, t), true)
    else if t == [] || Blocked(fs, t[..|t| - 1]) || (t in fs && fs[t].Dir?) then (fs, false)
    else (MkdirP(fs, t[..|t| - 1])[t := if e.kind.Regular? then File(e.content) else Special], true)
  }

  /** Unpacks entries in order until one fails or the transfer breaks after `upTo` of them. */
  function Unpack(fs: Files, dest: Place, es: seq<Entry>, upTo: nat): Files
    decreases |es|
  {
    if es == [] || upTo == 0 then fs
    else
      var (next, ok) := Put(fs, dest, es[0]);
      if ok then Unpack(next, dest, es[1..], upTo - 1) else next
  }

  /** How the engine treats one skill: the archive or the directory is not to be had, or the
      archive is copied, perhaps not to its end. */
  datatype Outcome = Skipped | Copied(upTo: nat)

  datatype Item = Item(name: string, entries: seq<Entry>, outcome: Outcome)

  ghost predicate Sound(s: Item) { ValidName(s.name) && AllHarmless(s.entries) }

  /** `ExtractArchive`: makes the destination, then unpacks into it. */
  function ExtractArchive(fs: Files, dest: Place, es: seq<Entry>, outcome: Outcome): Files {
    if outcome.Skipped? || Blocked(fs, dest) then fs
    else Unpack(MkdirP(fs, dest), dest, es, outcome.upTo)
  }

  /** One skill, in the directory of its name below `base`. */
  function InstallOne(fs: Files, base: Place, s: Item): Files {
    ExtractArchive(fs, base + [s.name], s.entries, s.outcome)
  }

  function InstallAll(fs: Files, base: Place, skills: seq<Item>): Files {
    if skills == [] then fs
    else InstallOne(InstallAll(fs, base, skills[..|skills| - 1]), base, skills[|skills| - 1])
  }

  // ---- Locality ------------------------------------------------------------------------

  ghost predicate Same(f: Files, g: Files, q: Place) { (q in f <==> q in g) && (q in f ==> f[q] == g[q]) }

  ghost predicate Under(d: Place, q: Place) { d <= q }

  ghost predicate SameUnder(f: Files, g: Files, d: Place) { forall q :: Under(d, q) ==> Same(f, g, q) }

  ghost predicate SameOutside(f: Files, g: Files, d: Place) { forall q :: !Under(d, q) ==> Same(f, g, q) }

  /** The directory and all its parents exist. */
  ghost predicate Ready(fs: Files, d: Place) { forall q :: Under(q, d) ==> q in fs && fs[q].Dir? }

  lemma UnderParent(q: Place, p: Place)
    requires p != []
    ensures Under(q, p) <==> q == p || Under(q, p[..|p| - 1])
  {
    if Under(q, p) && |q| == |p| {
      assert q == p[..|p|] == p;
    }
  }

  lemma {:induction false} MkdirAt(fs: Files, p: Place, q: Place)
    ensures q in MkdirP(fs, p) <==> q in fs || Under(q, p)
    ensures q in MkdirP(fs, p) ==> MkdirP(fs, p)[q] == if q in fs then fs[q] else Dir
    decreases |p|
  {
    if p != [] {
      MkdirAt(fs, p[..|p| - 1], q);
      MkdirAt(fs, p[..|p| - 1], p);
      UnderParent(q, p);
      UnderParent(p, p);
    }
  }

  lemma {:induction false} BlockedMeans(fs: Files, p: Place)
    ensures Blocked(fs, p) <==> exists q :: Under(q, p) && q in fs && !fs[q].Dir?
    decreases |p|
  {
    if p != [] {
      BlockedMeans(fs, p[..|p| - 1]);
      forall q ensures Under(q, p) <==> q == p || Under(q, p[..|p| - 1]) {
        UnderParent(q, p);
      }
    } else {
      assert Under(p, p);
    }
  }

  lemma MkdirReady(fs: Files, d: Place)
    requires !Blocked(fs, d)
    ensures Ready(MkdirP(fs, d), d)
  {
    BlockedMeans(fs, d);
    forall q | Under(q, d)
      ensures q in MkdirP(fs, d) && MkdirP(fs, d)[q].Dir?
    {
      MkdirAt(fs, d, q);
    }
  }

  /** Two ways up from the same place meet. */
  lemma Chain(q: Place, d: Place, p: Place)
    requires Under(q, p) && Under(d, p)
    ensures Under(q, d) || Under(d, q)
  {
  }

  /** Below an existing directory, making directories changes nothing else. */
  lemma MkdirLocal(fs: Files, d: Place, p: Place)
    requires Ready(fs, d) && Under(d, p)
    ensures SameOutside(MkdirP(fs, p), fs, d) && Ready(MkdirP(fs, p), d)
  {
    forall q | !Under(d, q)
      ensures Same(MkdirP(fs, p), fs, q)
    {
      MkdirAt(fs, p, q);
      if Under(q, p) {
        Chain(q, d, p);
      }
    }
    forall q | Under(q, d)
      ensures q in MkdirP(fs, p) && MkdirP(fs, p)[q].Dir?
    {
      MkdirAt(fs, p, q);
    }
  }

  lemma BlockedAgrees(f: Files, g: Files, d: Place, p: Place)
    requires Ready(f, d) && Ready(g, d) && SameUnder(f, g, d) && Under(d, p)
    ensures Blocked(f, p) == Blocked(g, p)
  {
    BlockedMeans(f, p);
    BlockedMeans(g, p);
    forall q | Under(q, p)
      ensures q in f && !f[q].Dir? <==> q in g && !g[q].Dir?
    {
      Chain(q, d, p);
    }
  }

  lemma MkdirAgrees(f: Files, g: Files, d: Place, p: Place)
    requires SameUnder(f, g, d)
    ensures SameUnder(MkdirP(f, p), MkdirP(g, p), d)
  {
    forall q | Under(d, q)
      ensures Same(MkdirP(f, p), MkdirP(g, p), q)
    {
      MkdirAt(f, p, q);
      MkdirAt(g, p, q);
    }
  }

  function EntryPlace(d: Place, e: Entry): Place { Walk(d, Parts(e.name)) }

  ghost predicate AllUnder(d: Place, es: seq<Entry>) { forall i :: 0 <= i < |es| ==> Under(d, EntryPlace(d, es[i])) }

  lemma HarmlessStay(d: Place, es: seq<Entry>)
    requires AllHarmless(es)
    ensures AllUnder(d, es)
  {
    forall i | 0 <= i < |es|
      ensures Under(d, EntryPlace(d, es[i]))
    {
      assert Harmless(es[i]);
    }
  }

  lemma PutLocal(fs: Files, d: Place, e: Entry)
    requires Ready(fs, d) && Under(d, EntryPlace(d, e))
    ensures SameOutside(Put(fs, d, e).0, fs, d) && Ready(Put(fs, d, e).0, d)
  {
    var t := EntryPlace(d, e);
    if e.kind.Directory? {
      MkdirLocal(fs, d, t);
    } else if t != d {
      MkdirLocal(fs, d, t[..|t| - 1]);
    } else {
      assert d[..|d|] == d;
    }
  }

  lemma PutAgrees(f: Files, g: Files, d: Place, e: Entry)
    requires Ready(f, d) && Ready(g, d) && SameUnder(f, g, d) && Under(d, EntryPlace(d, e))
    ensures SameUnder(Put(f, d, e).0, Put(g, d, e).0, d) && Put(f, d, e).1 == Put(g, d, e).1
  {
    var t := EntryPlace(d, e);
    if e.kind.Directory? {
      BlockedAgrees(f, g, d, t);
      MkdirAgrees(f, g, d, t);
    } else if t != d {
      PutFileAgrees(f, g, d, e, t);
    } else {
      assert d[..|d|] == d;
    }
  }

  lemma PutFileAgrees(f: Files, g: Files, d: Place, e: Entry, t: Place)
    requires Ready(f, d) && Ready(g, d) && SameUnder(f, g, d) && !e.kind.Directory?
    requires t == EntryPlace(d, e) && d <= t && t != d
    ensures SameUnder(Put(f, d, e).0, Put(g, d, e).0, d) && Put(f, d, e).1 == Put(g, d, e).1
  {
    assert Under(d, t);
    BlockedAgrees(f, g, d, t[..|t| - 1]);
    MkdirAgrees(f, g, d, t[..|t| - 1]);
  }

  lemma {:induction false} UnpackLocal(fs: Files, d: Place, es: seq<Entry>, upTo: nat)
    requires Ready(fs, d) && AllUnder(d, es)
    ensures SameOutside(Unpack(fs, d, es, upTo), fs, d)
    decreases |es|
  {
    if es != [] && upTo > 0 {
      PutLocal(fs, d, es[0]);
      UnpackLocal(Put(fs, d, es[0]).0, d, es[1..], upTo - 1);
    }
  }

  lemma StepAgrees(f: Files, g: Files, d: Place, e: Entry)
    requires Ready(f, d) && Ready(g, d) && SameUnder(f, g, d) && Under(d, EntryPlace(d, e))
    ensures Put(f, d, e).1 == Put(g, d, e).1
    ensures SameUnder(Put(f, d, e).0, Put(g, d, e).0, d) && Ready(Put(f, d, e).0, d) && Ready(Put(g, d, e).0, d)
  {
    PutAgrees(f, g, d, e);
    PutLocal(f, d, e);
    PutLocal(g, d, e);
  }

  lemma {:induction false} UnpackAgrees(f: Files, g: Files, d: Place, es: seq<Entry>, upTo: nat)
    requires Ready(f, d) && Ready(g, d) && SameUnder(f, g, d) && AllUnder(d, es)
    ensures SameUnder(Unpack(f, d, es, upTo), Unpack(g, d, es, upTo), d)
    decreases |es|
  {
    if es != [] && upTo > 0 {
      StepAgrees(f, g, d, es[0]);
      UnpackAgrees(Put(f, d, es[0]).0, Put(g, d, es[0]).0, d, es[1..], upTo - 1);
    }
  }

  // ---- Content ----------------------------------------------------------------------------------

  /** Nothing gets in the way of any entry. */
  ghost predicate Unhindered(fs: Files, d: Place, es: seq<Entry>)
    decreases |es|
  {
    es == [] || (Put(fs, d, es[0]).1 && Unhindered(Put(fs, d, es[0]).0, d, es[1..]))
  }

  ghost predicate NoneAt(d: Place, es: seq<Entry>, q: Place) { forall j :: 0 <= j < |es| ==> EntryPlace(d, es[j]) != q }

  /** No later entry has the place of entry `i`. */
  ghost predicate LastAt(d: Place, es: seq<Entry>, i: nat)
    requires i < |es|
  {
    forall j :: i < j < |es| ==> EntryPlace(d, es[j]) != EntryPlace(d, es[i])
  }

  lemma LastAtTail(d: Place, es: seq<Entry>, i: nat)
    requires i < |es| && LastAt(d, es, i)
    ensures if i == 0 then NoneAt(d, es[1..], EntryPlace(d, es[0])) else es[1..][i - 1] == es[i] && LastAt(d, es[1..], i - 1)
  {
    assert forall j :: 0 <= j < |es| - 1 ==> es[1..][j] == es[j + 1];
  }

  lemma PutKeeps(fs: Files, d: Place, e: Entry, q: Place)
    requires q in fs && EntryPlace(d, e) != q
    ensures Same(Put(fs, d, e).0, fs, q)
  {
    var t := EntryPlace(d, e);
    MkdirAt(fs, t, q);
    if t != [] {
      MkdirAt(fs, t[..|t| - 1], q);
    }
  }

  lemma {:induction false} UnpackKeeps(fs: Files, d: Place, es: seq<Entry>, upTo: nat, q: Place)
    requires q in fs && NoneAt(d, es, q)
    ensures Same(Unpack(fs, d, es, upTo), fs, q)
    decreases |es|
  {
    if es != [] && upTo > 0 {
      PutKeeps(fs, d, es[0], q);
      UnpackKeeps(Put(fs, d, es[0]).0, d, es[1..], upTo - 1, q);
    }
  }

  function NodeOf(e: Entry): Node {
    match e.kind
    case Regular => File(e.content)
    case Directory => Dir
    case _ => Special
  }

  lemma PutWrites(fs: Files, d: Place, e: Entry)
    requires Put(fs, d, e).1
    ensures EntryPlace(d, e) in Put(fs, d, e).0 && Put(fs, d, e).0[EntryPlace(d, e)] == NodeOf(e)
  {
    var t := EntryPlace(d, e);
    if e.kind.Directory? {
      BlockedMeans(fs, t);
      assert Under(t, t);
      MkdirAt(fs, t, t);
    }
  }

  /** Unless something is in the way, a copied skill has every entry of its archive in place,
      and the last entry for a place decides what is there. */
  lemma {:induction false} UnpackWrites(fs: Files, d: Place, es: seq<Entry>, upTo: nat, i: nat)
    requires Unhindered(fs, d, es) && i < |es| <= upTo && LastAt(d, es, i)
    ensures EntryPlace(d, es[i]) in Unpack(fs, d, es, upTo)
    ensures Unpack(fs, d, es, upTo)[EntryPlace(d, es[i])] == NodeOf(es[i])
    decreases |es|
  {
    var next := Put(fs, d, es[0]).0;
    LastAtTail(d, es, i);
    if i == 0 {
      PutWrites(fs, d, es[0]);
      UnpackKeeps(next, d, es[1..], upTo - 1, EntryPlace(d, es[0]));
    } else {
      UnpackWrites(next, d, es[1..], upTo - 1, i - 1);
    }
  }

  lemma PutNothingElse(fs: Files, d: Place, e: Entry, q: Place)
    requires q !in fs && q in Put(fs, d, e).0 && q != EntryPlace(d, e)
    ensures Put(fs, d, e).0[q].Dir? && q <= EntryPlace(d, e)
  {
    var t := EntryPlace(d, e);
    if e.kind.Directory? {
      MkdirAt(fs, t, q);
    } else {
      MkdirAt(fs, t[..|t| - 1], q);
    }
  }

  /** Beyond the entries' own places only directories on the way to them appear. */
  lemma {:induction false} UnpackNothingElse(fs: Files, d: Place, es: seq<Entry>, upTo: nat, q: Place)
    requires q !in fs && q in Unpack(fs, d, es, upTo) && NoneAt(d, es, q)
    ensures Unpack(fs, d, es, upTo)[q].Dir? && exists j :: 0 <= j < |es| && q <= EntryPlace(d, es[j])
    decreases |es|
  {
    if es != [] && upTo > 0 {
      var next := Put(fs, d, es[0]).0;
      assert forall j :: 0 <= j < |es[1..]| ==> es[1..][j] == es[j + 1];
      if q in next {
        PutNothingElse(fs, d, es[0], q);
        UnpackKeeps(next, d, es[1..], upTo - 1, q);
      } else {
        UnpackNothingElse(next, d, es[1..], upTo - 1, q);
        var j :| 0 <= j < |es[1..]| && q <= EntryPlace(d, es[1..][j]);
        assert q <= EntryPlace(d, es[j + 1]);
      }
    }
  }

  // ---- Nothing in the way -------------------------------------------------------------------------

  /** The directory can be made, and there is nothing in it yet. */
  ghost predicate Vacant(fs: Files, d: Place) { !Blocked(fs, d) && forall q :: Under(d, q) && q in fs ==> q == d }

  /** Two entries do not contradict each other: only a directory has entries below it, and a
      place is a directory for both or for neither. */
  ghost predicate Compatible(d: Place, e: Entry, f: Entry) {
    var p, q := EntryPlace(d, e), EntryPlace(d, f);
    && (Under(p, q) && p != q ==> e.kind.Directory?)
    && (Under(q, p) && p != q ==> f.kind.Directory?)
    && (p == q ==> (e.kind.Directory? <==> f.kind.Directory?))
  }

  /** An archive that makes sense: no two entries contradict each other, and only directory
      entries name the destination itself. */
  ghost predicate Consistent(d: Place, es: seq<Entry>) {
    && (forall i, j :: 0 <= i < j < |es| ==> Compatible(d, es[i], es[j]))
    && (forall i :: 0 <= i < |es| && EntryPlace(d, es[i]) == d ==> es[i].kind.Directory?)
  }

  /** The entry can be put into the file system. */
  ghost predicate Fits(fs: Files, d: Place, e: Entry) { Put(fs, d, e).1 }

  lemma PutAt(fs: Files, d: Place, e: Entry, q: Place)
    requires Fits(fs, d, e)
    ensures q in Put(fs, d, e).0 <==> q in fs || Under(q, EntryPlace(d, e))
    ensures q in Put(fs, d, e).0 ==>
      Put(fs, d, e).0[q] == if q == EntryPlace(d, e) then NodeOf(e) else if q in fs then fs[q] else Dir
  {
    var t := EntryPlace(d, e);
    MkdirAt(fs, t, q);
    if e.kind.Directory? {
      PutWrites(fs, d, e);
    } else {
      MkdirAt(fs, t[..|t| - 1], q);
      UnderParent(q, t);
    }
  }

  lemma BlockedAfter(fs: Files, d: Place, e: Entry, p: Place)
    requires Fits(fs, d, e) && !Blocked(fs, p) && (Under(EntryPlace(d, e), p) ==> e.kind.Directory?)
    ensures !Blocked(Put(fs, d, e).0, p)
  {
    BlockedMeans(fs, p);
    BlockedMeans(Put(fs, d, e).0, p);
    forall q | Under(q, p) && q in Put(fs, d, e).0
      ensures Put(fs, d, e).0[q].Dir?
    {
      PutAt(fs, d, e, q);
    }
  }

  lemma FitsStays(fs: Files, d: Place, e: Entry, f: Entry)
    requires Fits(fs, d, e) && Fits(fs, d, f) && Compatible(d, e, f)
    ensures Fits(Put(fs, d, e).0, d, f)
  {
    var p, q := EntryPlace(d, e), EntryPlace(d, f);
    if f.kind.Directory? {
      BlockedAfter(fs, d, e, q);
    } else {
      UnderParent(p, q);
      BlockedAfter(fs, d, e, q[..|q| - 1]);
      PutAt(fs, d, e, q);
    }
  }

  lemma {:induction false} FitsThroughout(fs: Files, d: Place, es: seq<Entry>)
    requires (forall i :: 0 <= i < |es| ==> Fits(fs, d, es[i])) && Consistent(d, es)
    ensures Unhindered(fs, d, es)
    decreases |es|
  {
    if es != [] {
      var next := Put(fs, d, es[0]).0;
      ConsistentTail(d, es);
      forall i | 0 <= i < |es| - 1
        ensures Fits(next, d, es[1..][i])
      {
        assert Compatible(d, es[0], es[i + 1]);
        FitsStays(fs, d, es[0], es[i + 1]);
      }
      FitsThroughout(next, d, es[1..]);
    }
  }

  lemma ConsistentTail(d: Place, es: seq<Entry>)
    requires es != [] && Consistent(d, es)
    ensures Consistent(d, es[1..])
  {
    assert forall j :: 0 <= j < |es| - 1 ==> es[1..][j] == es[j + 1];
  }

  lemma FitsVacant(fs: Files, d: Place, e: Entry)
    requires Vacant(fs, d) && Under(d, EntryPlace(d, e)) && (EntryPlace(d, e) == d ==> e.kind.Directory?)
    ensures Fits(MkdirP(fs, d), d, e)
  {
    var g, t := MkdirP(fs, d), EntryPlace(d, e);
    MkdirReady(fs, d);
    BlockedMeans(g, t);
    forall q | Under(q, t) && q in g
      ensures g[q].Dir?
    {
      Chain(q, d, t);
      MkdirAt(fs, d, q);
    }
    if !e.kind.Directory? {
      assert t != [];
      BlockedMeans(g, t[..|t| - 1]);
      forall q | Under(q, t[..|t| - 1]) ensures Under(q, t) { UnderParent(q, t); }
      MkdirAt(fs, d, t);
    }
  }

  /** A sensible archive unpacks without a hitch into a directory that holds nothing yet. */
  lemma VacantUnhindered(fs: Files, d: Place, es: seq<Entry>)
    requires Vacant(fs, d) && AllUnder(d, es) && Consistent(d, es)
    ensures Unhindered(MkdirP(fs, d), d, es)
  {
    forall i | 0 <= i < |es|
      ensures Fits(MkdirP(fs, d), d, es[i])
    {
      FitsVacant(fs, d, es[i]);
    }
    FitsThroughout(MkdirP(fs, d), d, es);
  }

  /** Nothing disappears, and nothing changes between directory and not directory. */
  ghost predicate KindsStay(f: Files, g: Files) { forall q :: q in f ==> q in g && (f[q].Dir? <==> g[q].Dir?) }

  lemma PutKinds(fs: Files, d: Place, e: Entry)
    ensures KindsStay(fs, Put(fs, d, e).0)
  {
    if Fits(fs, d, e) {
      forall q | q in fs ensures q in Put(fs, d, e).0 && (fs[q].Dir? <==> Put(fs, d, e).0[q].Dir?) {
        PutAt(fs, d, e, q);
        if q == EntryPlace(d, e) && e.kind.Directory? {
          BlockedMeans(fs, q);
          assert Under(q, q);
        }
      }
    }
  }

  /** Unpacking any archive anywhere removes nothing, and replaces neither a directory by a
      file nor a file by a directory. */
  lemma {:induction false} UnpackKinds(fs: Files, d: Place, es: seq<Entry>, upTo: nat)
    ensures KindsStay(fs, Unpack(fs, d, es, upTo))
    decreases |es|
  {
    if es != [] && upTo > 0 {
      PutKinds(fs, d, es[0]);
      UnpackKinds(Put(fs, d, es[0]).0, d, es[1..], upTo - 1);
    }
  }

  /** A transfer that breaks after `k` entries leaves what its first `k` entries make. */
  lemma {:induction false} UnpackTake(fs: Files, d: Place, es: seq<Entry>, k: nat)
    requires k <= |es|
    ensures Unpack(fs, d, es, k) == Unpack(fs, d, es[..k], k)
    decreases |es|
  {
    if k > 0 {
      assert es[..k][1..] == es[1..][..k - 1];
      UnpackTake(Put(fs, d, es[0]).0, d, es[1..], k - 1);
    }
  }

  /** Unpacking stops at the first entry that something is in the way of. */
  lemma {:induction false} UnpackStops(fs: Files, d: Place, es: seq<Entry>, k: nat, upTo: nat)
    requires k < |es| && k < upTo && Unhindered(fs, d, es[..k]) && !Fits(Unpack(fs, d, es[..k], k), d, es[k])
    ensures Unpack(fs, d, es, upTo) == Unpack(fs, d, es[..k], k)
    decreases |es|
  {
    if k > 0 {
      assert es[..k][1..] == es[1..][..k - 1];
      UnpackStops(Put(fs, d, es[0]).0, d, es[1..], k - 1, upTo - 1);
    } else {
      assert es[..0] == [];
      PutRefused(fs, d, es[0]);
    }
  }

  lemma PutRefused(fs: Files, d: Place, e: Entry)
    requires !Fits(fs, d, e)
    ensures Put(fs, d, e).0 == fs
  {
  }

  // ---- One skill -----------------------------------------------------------------------------

  predicate Proceeds(fs: Files, base: Place, s: Item) { s.outcome.Copied? && !Blocked(fs, base + [s.name]) }

  /** Outside its own directory a skill at most creates the skills directory. */
  lemma InstallLocal(fs: Files, base: Place, s: Item)
    requires Sound(s)
    ensures SameOutside(InstallOne(fs, base, s), if Proceeds(fs, base, s) then MkdirP(fs, base) else fs, base + [s.name])
  {
    var dest := base + [s.name];
    if Proceeds(fs, base, s) {
      MkdirReady(fs, dest);
      HarmlessStay(dest, s.entries);
      UnpackLocal(MkdirP(fs, dest), dest, s.entries, s.outcome.upTo);
      forall q | !Under(dest, q)
        ensures Same(MkdirP(fs, dest), MkdirP(fs, base), q)
      {
        MkdirAt(fs, dest, q);
        MkdirAt(fs, base, q);
        assert q <= dest ==> q == dest[..|q|] == base[..|q|];
        assert q <= base ==> q == base[..|q|] == dest[..|q|];
      }
    }
  }

  /** Inside it, the outcome depends on that directory and on what blocks it. */
  lemma InstallAgrees(f: Files, g: Files, base: Place, s: Item)
    requires Sound(s) && SameUnder(f, g, base + [s.name])
    requires Blocked(f, base + [s.name]) == Blocked(g, base + [s.name])
    ensures SameUnder(InstallOne(f, base, s), InstallOne(g, base, s), base + [s.name])
  {
    var dest := base + [s.name];
    if Proceeds(f, base, s) {
      MkdirReady(f, dest);
      MkdirReady(g, dest);
      MkdirAgrees(f, g, dest, dest);
      HarmlessStay(dest, s.entries);
      UnpackAgrees(MkdirP(f, dest), MkdirP(g, dest), dest, s.entries, s.outcome.upTo);
    }
  }

  /** `out` holds the skill's archive in the directory `d`: each entry as the last one for its
      place has it, and beside that only the directories on the way to them. */
  ghost predicate Holds(out: Files, d: Place, es: seq<Entry>) {
    && (forall i :: 0 <= i < |es| && LastAt(d, es, i) ==>
        EntryPlace(d, es[i]) in out && out[EntryPlace(d, es[i])] == NodeOf(es[i]))
    && (forall q :: Under(d, q) && q in out && NoneAt(d, es, q) ==> out[q].Dir?)
    && (forall q :: Under(d, q) && q in out && NoneAt(d, es, q) ==> q == d || exists i :: 0 <= i < |es| && Under(q, EntryPlace(d, es[i])))
  }

  /** The entries that get through. */
  function Through(es: seq<Entry>, outcome: Outcome): seq<Entry> {
    if outcome.Skipped? then [] else if outcome.upTo < |es| then es[..outcome.upTo] else es
  }

  /** What is copied of a skill into a directory that holds nothing yet is all there. */
  lemma InstallHolds(fs: Files, base: Place, s: Item)
    requires Sound(s) && s.outcome.Copied?
    requires Vacant(fs, base + [s.name]) && Consistent(base + [s.name], s.entries)
    ensures Holds(InstallOne(fs, base, s), base + [s.name], Through(s.entries, s.outcome))
  {
    var d, es, upTo := base + [s.name], Through(s.entries, s.outcome), s.outcome.upTo;
    var g := MkdirP(fs, d);
    if upTo < |s.entries| {
      UnpackTake(g, d, s.entries, upTo);
      ConsistentTake(d, s.entries, upTo);
    }
    assert InstallOne(fs, base, s) == Unpack(g, d, es, upTo);
    HarmlessStay(d, es);
    UnpackHolds(fs, d, es, upTo);
  }

  lemma ConsistentTake(d: Place, es: seq<Entry>, k: nat)
    requires k <= |es| && Consistent(d, es)
    ensures Consistent(d, es[..k])
  {
  }

  lemma UnpackHolds(fs: Files, d: Place, es: seq<Entry>, upTo: nat)
    requires Vacant(fs, d) && AllUnder(d, es) && Consistent(d, es) && |es| <= upTo
    ensures Holds(Unpack(MkdirP(fs, d), d, es, upTo), d, es)
  {
    var g := MkdirP(fs, d);
    var out := Unpack(g, d, es, upTo);
    VacantUnhindered(fs, d, es);
    forall i | 0 <= i < |es| && LastAt(d, es, i)
      ensures EntryPlace(d, es[i]) in out && out[EntryPlace(d, es[i])] == NodeOf(es[i])
    {
      UnpackWrites(g, d, es, upTo, i);
    }
    forall q | Under(d, q) && q in out && NoneAt(d, es, q)
      ensures out[q].Dir? && (q == d || exists i :: 0 <= i < |es| && Under(q, EntryPlace(d, es[i])))
    {
      MkdirAt(fs, d, q);
      if q in g {
        UnpackKeeps(g, d, es, upTo, q);
        MkdirReady(fs, d);
      } else {
        UnpackNothingElse(g, d, es, upTo, q);
        var i :| 0 <= i < |es| && q <= EntryPlace(d, es[i]);
        assert Under(q, EntryPlace(d, es[i]));
      }
    }
  }

  /** What holds of a directory holds of every file system that has the same directory. */
  lemma HoldsSame(f: Files, g: Files, d: Place, es: seq<Entry>)
    requires SameUnder(f, g, d) && AllUnder(d, es) && Holds(g, d, es)
    ensures Holds(f, d, es)
  {
    forall i | 0 <= i < |es|
      ensures Same(f, g, EntryPlace(d, es[i]))
    {
      assert Under(d, EntryPlace(d, es[i]));
    }
  }

  // ---- All skills ------------------------------------------------------------------------------

  ghost predicate AllSound(skills: seq<Item>) { forall i :: 0 <= i < |skills| ==> Sound(skills[i]) }

  ghost predicate DistinctNames(skills: seq<Item>) {
    forall i, j :: 0 <= i < j < |skills| ==> skills[i].name != skills[j].name
  }

  ghost predicate Elsewhere(base: Place, skills: seq<Item>, q: Place) {
    forall i :: 0 <= i < |skills| ==> !Under(base + [skills[i].name], q)
  }

  /** What the file system is outside all skill directories. */
  ghost function Ground(fs: Files, base: Place, skills: seq<Item>): Files {
    if exists i :: 0 <= i < |skills| && Proceeds(fs, base, skills[i]) then MkdirP(fs, base) else fs
  }

  /** Each skill directory is what its skill alone would have made of it. */
  ghost predicate OwnDirectories(fs: Files, base: Place, skills: seq<Item>, r: Files) {
    forall i :: 0 <= i < |skills| ==> SameUnder(r, InstallOne(fs, base, skills[i]), base + [skills[i].name])
  }

  /** Elsewhere at most the skills directory was created. */
  ghost predicate OwnGround(fs: Files, base: Place, skills: seq<Item>, r: Files) {
    forall q :: Elsewhere(base, skills, q) ==> Same(r, Ground(fs, base, skills), q)
  }

  /** What one more skill does outside its directory. */
  ghost predicate Stepped(before: Files, after: Files, base: Place, last: Item) {
    SameOutside(after, if Proceeds(before, base, last) then MkdirP(before, base) else before, base + [last.name])
  }

  lemma {:induction false} InstallAllAt(fs: Files, base: Place, skills: seq<Item>)
    requires AllSound(skills) && DistinctNames(skills)
    ensures OwnDirectories(fs, base, skills, InstallAll(fs, base, skills))
    ensures OwnGround(fs, base, skills, InstallAll(fs, base, skills))
    decreases |skills|
  {
    if skills != [] {
      var n := |skills| - 1;
      var before := InstallAll(fs, base, skills[..n]);
      InstallAllAt(fs, base, skills[..n]);
      FreshDirectory(fs, before, base, skills[..n], skills[n]);
      InstallAgrees(before, fs, base, skills[n]);
      InstallLocal(before, base, skills[n]);
      DirectoriesSnoc(fs, before, InstallAll(fs, base, skills), base, skills);
      GroundSnoc(fs, before, InstallAll(fs, base, skills), base, skills);
    }
  }

  lemma DirectoriesSnoc(fs: Files, before: Files, after: Files, base: Place, skills: seq<Item>)
    requires skills != [] && DistinctNames(skills)
    requires OwnDirectories(fs, base, skills[..|skills| - 1], before)
    requires Stepped(before, after, base, skills[|skills| - 1])
    requires SameUnder(after, InstallOne(fs, base, skills[|skills| - 1]), base + [skills[|skills| - 1].name])
    ensures OwnDirectories(fs, base, skills, after)
  {
    var n := |skills| - 1;
    forall i | 0 <= i < n
      ensures SameUnder(after, InstallOne(fs, base, skills[i]), base + [skills[i].name])
    {
      assert skills[..n][i] == skills[i];
      OtherDirectory(fs, before, after, base, skills[i], skills[n]);
    }
  }

  lemma MissesSibling(base: Place, a: string, b: string, q: Place)
    requires a != b && base + [a] <= q
    ensures !(base + [b] <= q) && !(q <= base)
  {
    assert q[|base|] == (base + [a])[|base|];
  }

  /** The earlier skills leave the directory of the last one alone. */
  lemma FreshDirectory(fs: Files, before: Files, base: Place, init: seq<Item>, last: Item)
    requires forall i :: 0 <= i < |init| ==> init[i].name != last.name
    requires OwnGround(fs, base, init, before)
    ensures SameUnder(before, fs, base + [last.name])
    ensures Blocked(before, base + [last.name]) == Blocked(fs, base + [last.name])
  {
    var dest := base + [last.name];
    forall q | Under(dest, q)
      ensures Same(before, fs, q)
    {
      forall i | 0 <= i < |init|
        ensures !Under(base + [init[i].name], q)
      {
        MissesSibling(base, last.name, init[i].name, q);
      }
      assert Elsewhere(base, init, q);
      MissesSibling(base, last.name, last.name + "x", q);
      MkdirAt(fs, base, q);
    }
    BlockedMeans(before, dest);
    BlockedMeans(fs, dest);
    forall q | Under(q, dest)
      ensures q in before && !before[q].Dir? <==> q in fs && !fs[q].Dir?
    {
      UnderParent(q, dest);
      if q == dest {
        assert Under(dest, q);
      } else {
        assert Elsewhere(base, init, q);
        MkdirAt(fs, base, q);
      }
    }
  }

  lemma OtherDirectory(fs: Files, before: Files, after: Files, base: Place, s: Item, last: Item)
    requires s.name != last.name
    requires SameUnder(before, InstallOne(fs, base, s), base + [s.name])
    requires Stepped(before, after, base, last)
    ensures SameUnder(after, InstallOne(fs, base, s), base + [s.name])
  {
    forall q | Under(base + [s.name], q)
      ensures Same(after, InstallOne(fs, base, s), q)
    {
      MissesSibling(base, s.name, last.name, q);
      assert !Under(base + [last.name], q);
      MkdirAt(before, base, q);
    }
  }

  lemma GroundSnoc(fs: Files, before: Files, after: Files, base: Place, skills: seq<Item>)
    requires skills != []
    requires Blocked(before, base + [skills[|skills| - 1].name]) == Blocked(fs, base + [skills[|skills| - 1].name])
    requires OwnGround(fs, base, skills[..|skills| - 1], before)
    requires Stepped(before, after, base, skills[|skills| - 1])
    ensures OwnGround(fs, base, skills, after)
  {
    var n := |skills| - 1;
    assert Proceeds(before, base, skills[n]) == Proceeds(fs, base, skills[n]);
    if i :| 0 <= i < |skills| && Proceeds(fs, base, skills[i]) {
      assert i < n ==> Proceeds(fs, base, skills[..n][i]);
    }
    forall q | Elsewhere(base, skills, q)
      ensures Same(after, Ground(fs, base, skills), q)
    {
      assert Elsewhere(base, skills[..n], q);
      assert !Under(base + [skills[n].name], q);
      MkdirAt(before, base, q);
      MkdirAt(fs, base, q);
    }
  }

  /** The file system does not depend on the order in which the skills are listed. */
  lemma OrderIndependent(fs: Files, base: Place, one: seq<Item>, other: seq<Item>)
    requires AllSound(one) && DistinctNames(one) && DistinctNames(other)
    requires forall s :: s in one <==> s in other
    ensures InstallAll(fs, base, one) == InstallAll(fs, base, other)
  {
    assert AllSound(other) by {
      forall i | 0 <= i < |other| ensures Sound(other[i]) { assert other[i] in one; }
    }
    InstallAllAt(fs, base, one);
    InstallAllAt(fs, base, other);
    forall q: Place
      ensures Same(InstallAll(fs, base, one), InstallAll(fs, base, other), q)
    {
      if i :| 0 <= i < |one| && Under(base + [one[i].name], q) {
        assert one[i] in other;
        var j :| 0 <= j < |other| && other[j] == one[i];
        assert SameUnder(InstallAll(fs, base, other), InstallOne(fs, base, other[j]), base + [other[j].name]);
      } else {
        assert Elsewhere(base, one, q);
        forall j | 0 <= j < |other| ensures !Under(base + [other[j].name], q) { assert other[j] in one; }
        assert Elsewhere(base, other, q);
        GroundAgrees(fs, base, one, other);
      }
    }
    SameEverywhere(InstallAll(fs, base, one), InstallAll(fs, base, other));
  }

  lemma GroundAgrees(fs: Files, base: Place, one: seq<Item>, other: seq<Item>)
    requires forall s :: s in one <==> s in other
    ensures Ground(fs, base, one) == Ground(fs, base, other)
  {
    if i :| 0 <= i < |one| && Proceeds(fs, base, one[i]) {
      assert one[i] in other;
    }
    if j :| 0 <= j < |other| && Proceeds(fs, base, other[j]) {
      assert other[j] in one;
    }
  }

  lemma SameEverywhere(f: Files, g: Files)
    requires forall q :: Same(f, g, q)
    ensures f == g
  {
    forall q
      ensures q in f <==> q in g
    {
      assert Same(f, g, q);
    }
    forall q | q in f
      ensures f[q] == g[q]
    {
      assert Same(f, g, q);
    }
  }
}
