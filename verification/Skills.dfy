/** The skill library: upload limits, registration, the life of a skill over any history
    of registrations and deletions, and injection into a new container. */
module Skills {
  import opened Domain
  import opened Streams
  import opened Entities
  import opened Paths
  import opened Archive
  import opened Install
  import MemoryStore

  // ---- readAllMax ---------------------------------------------------------------------

  const MAX: int := 0x7FFF_FFFF_FFFF_FFFF

  predicate Int64(x: int) { -MAX - 1 <= x <= MAX }

  /** What an int64 operation leaves of a mathematical result. */
  function Wrap(x: int): (r: int)
    ensures Int64(r) && (Int64(x) ==> r == x) && (r - x) % 0x1_0000_0000_0000_0000 == 0
  {
    (x + MAX + 1) % 0x1_0000_0000_0000_0000 - MAX - 1
  }

  /** The whole stream if it ends properly within the limit. With the largest limit the
      `limit+1` of the code wraps around, and nothing is read at all. */
  function Limited(bytes: Bytes, ending: Ending, limit: int): Option<Bytes> {
    if limit < 0 then None
    else if limit == MAX then Some([])
    else if |bytes| > limit || ending.Broken? then None
    else Some(bytes)
  }

  method ReadAllMax(r: Reader, limit: int) returns (data: Option<Bytes>)
    requires Int64(limit)
    modifies r
    ensures data == Limited(old(r.Rest()), r.ending, limit)
  {
    if limit < 0 {
      return None;
    }
    var left := Wrap(limit + 1);
    var got := [];
    while left > 0
      invariant got + r.Rest() == old(r.Rest())
      invariant if limit == MAX then left < 0 && got == [] else left >= 0 && |got| + left == limit + 1
      decreases |r.Rest()|, |r.chunks|
    {
      var piece, over := r.Read(left);
      if over {
        assert got == old(r.Rest());
        return if r.ending.Broken? || |got| > limit then None else Some(got);
      }
      got := got + piece;
      left := left - |piece|;
    }
    return if |got| > limit then None else Some(got);
  }

  // ---- decompressAndValidate ----------------------------------------------------------------

  datatype Inflated = Inflated(bytes: Bytes, ending: Ending)

  datatype Upload = Tarball(bytes: Bytes) | NameRequired | InvalidName | TooLarge | BadArchive | NoManifest

  /** The foreign formats: what a gzip stream inflates to, if its header is one, and which
      entries a tar holds. */
  datatype Formats = Formats(inflate: Bytes -> Option<Inflated>, untar: Bytes -> Tar)

  const RATIO := 20

  ghost predicate GoodTar(tar: Tar) { tar.intact && AllHarmless(tar.entries) && HasManifest(tar.entries) }

  ghost function Checked(tar: Tar, bytes: Bytes): Upload {
    if !tar.intact || !AllHarmless(tar.entries) then BadArchive
    else if !HasManifest(tar.entries) then NoManifest
    else Tarball(bytes)
  }

  ghost function Decompressed(bytes: Bytes, ending: Ending, limit: int, fmt: Formats): Upload {
    match Limited(bytes, ending, limit)
    case None => TooLarge
    case Some(gz) =>
      match fmt.inflate(gz)
      case None => BadArchive
      case Some(plain) =>
        match Limited(plain.bytes, plain.ending, Wrap(limit * RATIO))
        case None => TooLarge
        case Some(bytes) => Checked(fmt.untar(bytes), bytes)
  }

  method DecompressAndValidate(r: Reader, limit: int, fmt: Formats) returns (u: Upload)
    requires Int64(limit)
    modifies r
    ensures u == Decompressed(old(r.Rest()), r.ending, limit, fmt)
  {
    var gz := ReadAllMax(r, limit);
    if gz.None? {
      return TooLarge;
    }
    var plain := fmt.inflate(gz.value);
    if plain.None? {
      return BadArchive;
    }
    var inflated := new Reader([plain.value.bytes], plain.value.ending);
    FlattenOne(plain.value.bytes);
    var tar := ReadAllMax(inflated, Wrap(limit * RATIO));
    if tar.None? {
      return TooLarge;
    }
    var v := ValidateTar(fmt.untar(tar.value));
    match v
    case Accepted => return Tarball(tar.value);
    case Invalid => return BadArchive;
    case MissingManifest => return NoManifest;
  }

  lemma FlattenOne(bytes: Bytes)
    ensures Flatten([bytes]) == bytes
  {
    assert [bytes][1..] == [];
  }

  lemma WrapBelow(x: int)
    requires x >= 0
    ensures Wrap(x) <= x
  {
  }

  /** An accepted archive is a good tar of at most twenty times the limit, for every limit:
      a product that wraps around only gets smaller, and is even, so never the largest. */
  lemma AcceptedBound(bytes: Bytes, ending: Ending, limit: int, fmt: Formats)
    requires Int64(limit)
    ensures var u := Decompressed(bytes, ending, limit, fmt);
            u.Tarball? ==> GoodTar(fmt.untar(u.bytes)) && |u.bytes| <= 20 * limit
  {
    if limit >= 0 {
      WrapBelow(limit * RATIO);
      assert limit * RATIO == 2 * (limit * 10);
    }
  }

  /** Where nothing wraps around, the verdict is exact. */
  lemma AcceptedExactly(bytes: Bytes, ending: Ending, limit: int, fmt: Formats, tar: Bytes)
    requires 0 <= limit && 20 * limit + 1 <= 0x7FFF_FFFF_FFFF_FFFF
    ensures Decompressed(bytes, ending, limit, fmt) == Tarball(tar) <==>
            && |bytes| <= limit && ending.Eof?
            && fmt.inflate(bytes) == Some(Inflated(tar, Eof))
            && |tar| <= 20 * limit
            && GoodTar(fmt.untar(tar))
  {
    assert Wrap(limit * RATIO) == limit * RATIO;
  }

  // ---- The library ------------------------------------------------------------------------------

  /** What the store holds of each skill went through registration. */
  ghost predicate Library(t: map<Id, SkillRecord>, limit: int, fmt: Formats) {
    && SkillsOk(t)
    && forall k :: k in t ==>
        && ValidName(t[k].skill.name)
        && GoodTar(fmt.untar(t[k].archive))
        && t[k].skill.sizeBytes <= RATIO * limit
  }

  /** `RegisterSkill` on the memory store. */
  method RegisterSkill(store: MemoryStore.MemoryStore, skill: MemoryStore.SkillArgument, tenant: UserId, user: UserId,
                       name: string, upload: Reader, limit: int, fmt: Formats, id: Id, now: Time)
    returns (u: Upload)
    requires store.SkillsValid() && id !in store.skills && Int64(limit)
    requires Library(store.SkillView(), limit, fmt)
    modifies store`skills, store.skills.Values, skill, upload
    ensures store.SkillsValid() && Library(store.SkillView(), limit, fmt)
    ensures u == if name == "" then NameRequired else if !ValidName(name) then InvalidName
                 else Decompressed(old(upload.Rest()), upload.ending, limit, fmt)
    ensures !u.Tarball? ==> store.SkillView() == old(store.SkillView())
    ensures u.Tarball? ==>
      var s := Skill(id, tenant, user, name, |u.bytes|, now, now);
      store.SkillView() == Upserted(old(store.SkillView()), s, u.bytes) && skill.s == Persisted(old(store.SkillView()), s)
  {
    ghost var t := store.SkillView();
    u := CheckUpload(name, upload, limit, fmt);
    assert store.SkillView() == t && store.SkillsValid() && id !in store.skills && Library(store.SkillView(), limit, fmt);
    if u.Tarball? {
      Enlist(store, skill, Skill(id, tenant, user, name, |u.bytes|, now, now), u.bytes, limit, fmt);
    }
  }

  /** The name is checked before anything is read. */
  method CheckUpload(name: string, upload: Reader, limit: int, fmt: Formats) returns (u: Upload)
    requires Int64(limit)
    modifies upload
    ensures u == if name == "" then NameRequired else if !ValidName(name) then InvalidName
                 else Decompressed(old(upload.Rest()), upload.ending, limit, fmt)
    ensures u.Tarball? ==> ValidName(name) && GoodTar(fmt.untar(u.bytes)) && |u.bytes| <= RATIO * limit
  {
    if name == "" {
      return NameRequired;
    }
    if !ValidName(name) {
      return InvalidName;
    }
    AcceptedBound(upload.Rest(), upload.ending, limit, fmt);
    u := DecompressAndValidate(upload, limit, fmt);
  }

  method Enlist(store: MemoryStore.MemoryStore, skill: MemoryStore.SkillArgument, s: Skill, archive: Bytes,
                ghost limit: int, ghost fmt: Formats)
    requires store.SkillsValid() && s.id !in store.skills && Library(store.SkillView(), limit, fmt)
    requires ValidName(s.name) && GoodTar(fmt.untar(archive)) && s.sizeBytes == |archive| <= RATIO * limit
    modifies store`skills, store.skills.Values, skill
    ensures store.SkillsValid() && Library(store.SkillView(), limit, fmt)
    ensures store.SkillView() == Upserted(old(store.SkillView()), s, archive)
    ensures skill.s == Persisted(old(store.SkillView()), s)
  {
    ghost var t := store.SkillView();
    skill.s := s;
    assert store.SkillView() == t && store.SkillsValid();
    UpsertKeepsLibrary(t, s, archive, limit, fmt);
    store.UpsertSkill(skill, archive);
  }

  lemma UpsertKeepsLibrary(t: map<Id, SkillRecord>, s: Skill, archive: Bytes, limit: int, fmt: Formats)
    requires Library(t, limit, fmt) && s.id !in t && s.sizeBytes == |archive| <= RATIO * limit
    requires ValidName(s.name) && GoodTar(fmt.untar(archive))
    ensures Library(Upserted(t, s, archive), limit, fmt)
  {
    UpsertKeepsSkills(t, s, archive);
  }

  // ---- The life of a skill ---------------------------------------------------------------------

  datatype SkillOp = Register(skill: Skill, archive: Bytes) | Delete(id: Id, user: UserId)

  ghost function RunOne(t: map<Id, SkillRecord>, op: SkillOp): map<Id, SkillRecord> {
    match op
    case Register(s, archive) => Upserted(t, s, archive)
    case Delete(id, user) => Remove(t, SkillOwner, id, user)
  }

  ghost function RunAll(t: map<Id, SkillRecord>, ops: seq<SkillOp>): map<Id, SkillRecord> {
    if ops == [] then t else RunOne(RunAll(t, ops[..|ops| - 1]), ops[|ops| - 1])
  }

  /** What registration guarantees of the operations: new IDs are fresh, sizes are right. */
  ghost predicate Proper(t: map<Id, SkillRecord>, ops: seq<SkillOp>) {
    forall i :: 0 <= i < |ops| && ops[i].Register? ==>
      ops[i].skill.id !in RunAll(t, ops[..i]) && ops[i].skill.sizeBytes == |ops[i].archive|
  }

  ghost predicate Registers(op: SkillOp, user: UserId, name: string) {
    op.Register? && op.skill.user == user && op.skill.name == name
  }

  ghost predicate LastRegistration(ops: seq<SkillOp>, i: nat, user: UserId, name: string)
    requires i < |ops|
  {
    Registers(ops[i], user, name) && forall j :: i < j < |ops| ==> !Registers(ops[j], user, name)
  }

  ghost predicate Deletes(op: SkillOp, k: Id, owner: UserId) { op.Delete? && op.id == k && MaySee(op.user, owner) }

  lemma {:induction false} ProperPrefix(t: map<Id, SkillRecord>, ops: seq<SkillOp>, n: nat)
    requires Proper(t, ops) && n <= |ops|
    ensures Proper(t, ops[..n])
  {
    forall i | 0 <= i < n
      ensures ops[..n][i] == ops[i] && ops[..n][..i] == ops[..i]
    {
    }
  }

  /** Every reachable table has one skill per user and name, under its own ID. */
  lemma {:induction false} AlwaysOk(t: map<Id, SkillRecord>, ops: seq<SkillOp>)
    requires SkillsOk(t) && Proper(t, ops)
    ensures SkillsOk(RunAll(t, ops))
    decreases |ops|
  {
    if ops != [] {
      var n := |ops| - 1;
      ProperPrefix(t, ops, n);
      AlwaysOk(t, ops[..n]);
      if ops[n].Register? {
        UpsertKeepsSkills(RunAll(t, ops[..n]), ops[n].skill, ops[n].archive);
      }
    }
  }

  /** What `RegisterSkill` lets through. */
  ghost predicate Accepted(op: SkillOp, limit: int, fmt: Formats) {
    op.Register? ==> ValidName(op.skill.name) && GoodTar(fmt.untar(op.archive)) && |op.archive| <= RATIO * limit
  }

  /** Over any history of accepted registrations and of deletions every stored skill has a
      valid name, a valid tar of at most twenty times the limit, and its correct size. */
  lemma {:induction false} AlwaysLibrary(t: map<Id, SkillRecord>, ops: seq<SkillOp>, limit: int, fmt: Formats)
    requires Library(t, limit, fmt) && Proper(t, ops) && forall i :: 0 <= i < |ops| ==> Accepted(ops[i], limit, fmt)
    ensures Library(RunAll(t, ops), limit, fmt)
    decreases |ops|
  {
    if ops != [] {
      var n := |ops| - 1;
      ProperPrefix(t, ops, n);
      AlwaysLibrary(t, ops[..n], limit, fmt);
      LibraryStep(RunAll(t, ops[..n]), ops[n], limit, fmt);
    }
  }

  lemma LibraryStep(t: map<Id, SkillRecord>, op: SkillOp, limit: int, fmt: Formats)
    requires Library(t, limit, fmt) && Accepted(op, limit, fmt)
    requires op.Register? ==> op.skill.id !in t && op.skill.sizeBytes == |op.archive|
    ensures Library(RunOne(t, op), limit, fmt)
  {
    if op.Register? {
      UpsertKeepsLibrary(t, op.skill, op.archive, limit, fmt);
    }
  }

  /** One operation that does not delete the skill under `k`. */
  lemma KeptByOne(t: map<Id, SkillRecord>, op: SkillOp, k: Id)
    requires SkillsOk(t) && k in t && !Deletes(op, k, t[k].skill.user)
    requires op.Register? ==> op.skill.id !in t
    ensures var r := RunOne(t, op);
            && k in r
            && r[k].skill == t[k].skill.(sizeBytes := r[k].skill.sizeBytes, updatedAt := r[k].skill.updatedAt)
            && r[k].archive == if Registers(op, t[k].skill.user, t[k].skill.name) then op.archive else t[k].archive
  {
    if op.Register? {
      var key := SkillKey(t, op.skill.user, op.skill.name);
      if Registers(op, t[k].skill.user, t[k].skill.name) {
        assert key == Some(k);
      }
    }
  }

  ghost predicate Survives(t: map<Id, SkillRecord>, ops: seq<SkillOp>, k: Id)
    requires k in t
  {
    forall i :: 0 <= i < |ops| ==> !Deletes(ops[i], k, t[k].skill.user)
  }

  /** Until it is deleted a skill keeps its ID, owner, tenant, name and creation time, and
      its recorded size is that of its archive. */
  lemma {:induction false} SkillHistory(t: map<Id, SkillRecord>, ops: seq<SkillOp>, k: Id)
    requires SkillsOk(t) && Proper(t, ops) && k in t && Survives(t, ops, k)
    ensures var r := RunAll(t, ops);
            k in r && r[k].skill == t[k].skill.(sizeBytes := |r[k].archive|, updatedAt := r[k].skill.updatedAt)
    decreases |ops|
  {
    AlwaysOk(t, ops);
    if ops != [] {
      var n := |ops| - 1;
      ProperPrefix(t, ops, n);
      AlwaysOk(t, ops[..n]);
      SkillHistory(t, ops[..n], k);
      KeptByOne(RunAll(t, ops[..n]), ops[n], k);
    }
  }

  /** The archive registered last for a user and name, `first` if there is none. */
  ghost function LastArchive(first: Bytes, ops: seq<SkillOp>, user: UserId, name: string): Bytes {
    if ops == [] then first
    else if Registers(ops[|ops| - 1], user, name) then ops[|ops| - 1].archive
    else LastArchive(first, ops[..|ops| - 1], user, name)
  }

  lemma {:induction false} ArchiveIsLast(t: map<Id, SkillRecord>, ops: seq<SkillOp>, k: Id)
    requires SkillsOk(t) && Proper(t, ops) && k in t && Survives(t, ops, k)
    ensures k in RunAll(t, ops)
    ensures RunAll(t, ops)[k].archive == LastArchive(t[k].archive, ops, t[k].skill.user, t[k].skill.name)
    decreases |ops|
  {
    if ops != [] {
      var n := |ops| - 1;
      ProperPrefix(t, ops, n);
      AlwaysOk(t, ops[..n]);
      ArchiveIsLast(t, ops[..n], k);
      SkillHistory(t, ops[..n], k);
      KeptByOne(RunAll(t, ops[..n]), ops[n], k);
    }
  }

  lemma {:induction false} LastArchiveAt(first: Bytes, ops: seq<SkillOp>, i: nat, user: UserId, name: string)
    requires i < |ops| && LastRegistration(ops, i, user, name)
    ensures LastArchive(first, ops, user, name) == ops[i].archive
    decreases |ops|
  {
    var n := |ops| - 1;
    if i < n {
      assert LastRegistration(ops[..n], i, user, name);
      LastArchiveAt(first, ops[..n], i, user, name);
    }
  }

  lemma {:induction false} NoArchive(first: Bytes, ops: seq<SkillOp>, user: UserId, name: string)
    requires forall i :: 0 <= i < |ops| ==> !Registers(ops[i], user, name)
    ensures LastArchive(first, ops, user, name) == first
    decreases |ops|
  {
    if ops != [] {
      NoArchive(first, ops[..|ops| - 1], user, name);
    }
  }

  /** Its archive is the one registered last. */
  lemma ArchiveHistory(t: map<Id, SkillRecord>, ops: seq<SkillOp>, k: Id)
    requires SkillsOk(t) && Proper(t, ops) && k in t && Survives(t, ops, k)
    ensures k in RunAll(t, ops)
    ensures (forall i :: 0 <= i < |ops| ==> !Registers(ops[i], t[k].skill.user, t[k].skill.name)) ==>
            RunAll(t, ops)[k].archive == t[k].archive
    ensures forall i :: 0 <= i < |ops| && LastRegistration(ops, i, t[k].skill.user, t[k].skill.name) ==>
            RunAll(t, ops)[k].archive == ops[i].archive
  {
    var first, user, name := t[k].archive, t[k].skill.user, t[k].skill.name;
    ArchiveIsLast(t, ops, k);
    if forall i :: 0 <= i < |ops| ==> !Registers(ops[i], user, name) {
      NoArchive(first, ops, user, name);
    }
    forall i | 0 <= i < |ops| && LastRegistration(ops, i, user, name)
      ensures LastArchive(first, ops, user, name) == ops[i].archive
    {
      LastArchiveAt(first, ops, i, user, name);
    }
  }

  /** A deletion that finds the skill takes it away and nothing else. */
  lemma DeleteOne(t: map<Id, SkillRecord>, id: Id, user: UserId)
    ensures var r := RunOne(t, Delete(id, user));
            && (id in t && MaySee(user, t[id].skill.user) ==> id !in r)
            && forall k :: k != id ==> (k in r <==> k in t) && (k in t ==> r[k] == t[k])
  {
  }

  lemma StaysAway(t: map<Id, SkillRecord>, op: SkillOp, k: Id)
    requires k !in t && (op.Register? ==> op.skill.id != k)
    ensures k !in RunOne(t, op)
  {
  }

  /** A deleted skill is gone until its ID is given out again. */
  lemma {:induction false} GoneAfterDelete(t: map<Id, SkillRecord>, ops: seq<SkillOp>, i: nat, k: Id)
    requires i < |ops| && k in RunAll(t, ops[..i]) && Deletes(ops[i], k, RunAll(t, ops[..i])[k].skill.user)
    requires forall j :: i < j < |ops| && ops[j].Register? ==> ops[j].skill.id != k
    ensures k !in RunAll(t, ops)
    decreases |ops|
  {
    var n := |ops| - 1;
    if i == n {
      DeleteOne(RunAll(t, ops[..n]), k, ops[n].user);
    } else {
      assert ops[..n][..i] == ops[..i];
      GoneAfterDelete(t, ops[..n], i, k);
      StaysAway(RunAll(t, ops[..n]), ops[n], k);
    }
  }

  // ---- injectSkills --------------------------------------------------------------------------------

  /** The user's skills, each once. */
  ghost predicate ListsOnce(order: seq<Id>, t: map<Id, SkillRecord>, user: UserId) {
    && (forall i, j :: 0 <= i < j < |order| ==> order[i] != order[j])
    && (forall i :: 0 <= i < |order| ==> order[i] in t && t[order[i]].skill.user == user)
    && forall k :: k in t && t[k].skill.user == user ==> k in order
  }

  function ItemOf(r: SkillRecord, fmt: Formats, outcome: Outcome): Item {
    Item(r.skill.name, fmt.untar(r.archive).entries, outcome)
  }

  function Items(t: map<Id, SkillRecord>, order: seq<Id>, fmt: Formats, outcome: Id -> Outcome): (r: seq<Item>)
    requires forall i :: 0 <= i < |order| ==> order[i] in t
  {
    seq(|order|, i requires 0 <= i < |order| => ItemOf(t[order[i]], fmt, outcome(order[i])))
  }

  /** For a fixed outcome per skill, a user's skills give the same file system in whatever
      order the store lists them. */
  lemma InjectionOrder(t: map<Id, SkillRecord>, user: UserId, limit: int, fmt: Formats, outcome: Id -> Outcome,
                       fs: Files, base: Place, one: seq<Id>, other: seq<Id>)
    requires Library(t, limit, fmt) && user.User?
    requires ListsOnce(one, t, user) && ListsOnce(other, t, user)
    ensures InstallAll(fs, base, Items(t, one, fmt, outcome)) == InstallAll(fs, base, Items(t, other, fmt, outcome))
  {
    ItemsSound(t, user, limit, fmt, outcome, one);
    ItemsSound(t, user, limit, fmt, outcome, other);
    SameItems(t, fmt, outcome, one, other);
    SameItems(t, fmt, outcome, other, one);
    OrderIndependent(fs, base, Items(t, one, fmt, outcome), Items(t, other, fmt, outcome));
  }

  /** So it is after every history of the library, starting from nothing. */
  lemma InjectionAfterHistory(ops: seq<SkillOp>, user: UserId, limit: int, fmt: Formats, outcome: Id -> Outcome,
                              fs: Files, base: Place, one: seq<Id>, other: seq<Id>)
    requires Proper(map[], ops) && (forall i :: 0 <= i < |ops| ==> Accepted(ops[i], limit, fmt)) && user.User?
    requires ListsOnce(one, RunAll(map[], ops), user) && ListsOnce(other, RunAll(map[], ops), user)
    ensures InstallAll(fs, base, Items(RunAll(map[], ops), one, fmt, outcome)) ==
            InstallAll(fs, base, Items(RunAll(map[], ops), other, fmt, outcome))
  {
    AlwaysLibrary(map[], ops, limit, fmt);
    InjectionOrder(RunAll(map[], ops), user, limit, fmt, outcome, fs, base, one, other);
  }

  lemma ItemsSound(t: map<Id, SkillRecord>, user: UserId, limit: int, fmt: Formats, outcome: Id -> Outcome, order: seq<Id>)
    requires Library(t, limit, fmt) && user.User? && ListsOnce(order, t, user)
    ensures AllSound(Items(t, order, fmt, outcome)) && DistinctNames(Items(t, order, fmt, outcome))
  {
    var items := Items(t, order, fmt, outcome);
    forall i, j | 0 <= i < j < |items|
      ensures items[i].name != items[j].name
    {
      assert order[i] != order[j];
      assert t[order[i]].skill.user == user == t[order[j]].skill.user;
      assert !SameSkill(t[order[i]], user, t[order[j]].skill.name);
    }
  }

  lemma SameItems(t: map<Id, SkillRecord>, fmt: Formats, outcome: Id -> Outcome, one: seq<Id>, other: seq<Id>)
    requires forall i :: 0 <= i < |one| ==> one[i] in t && one[i] in other
    requires forall i :: 0 <= i < |other| ==> other[i] in t
    ensures forall s :: s in Items(t, one, fmt, outcome) ==> s in Items(t, other, fmt, outcome)
  {
    forall s | s in Items(t, one, fmt, outcome)
      ensures s in Items(t, other, fmt, outcome)
    {
      var i :| 0 <= i < |one| && Items(t, one, fmt, outcome)[i] == s;
      var j :| 0 <= j < |other| && other[j] == one[i];
      assert Items(t, other, fmt, outcome)[j] == s;
    }
  }

  lemma InstallNext(t: map<Id, SkillRecord>, order: seq<Id>, n: nat, fmt: Formats, outcome: Id -> Outcome,
                    fs: Files, base: Place)
    requires n < |order| && forall i :: 0 <= i < |order| ==> order[i] in t
    ensures InstallAll(fs, base, Items(t, order[..n + 1], fmt, outcome)) ==
            InstallOne(InstallAll(fs, base, Items(t, order[..n], fmt, outcome)), base,
                       ItemOf(t[order[n]], fmt, outcome(order[n])))
  {
    assert Items(t, order[..n + 1], fmt, outcome)[..n] == Items(t, order[..n], fmt, outcome);
  }

  /** `out` is what installing the user's skills yields, whatever the order. */
  ghost predicate FromAnyOrder(out: Files, t: map<Id, SkillRecord>, user: UserId, fmt: Formats, outcome: Id -> Outcome,
                               fs: Files, base: Place)
  {
    forall order :: ListsOnce(order, t, user) ==> out == InstallAll(fs, base, Items(t, order, fmt, outcome))
  }

  function Entries(r: SkillRecord, fmt: Formats): seq<Entry> { fmt.untar(r.archive).entries }

  /** What injection did for one skill: one that was skipped, or whose directory cannot be
      made, left its directory as it was; of one that was copied into a directory that held
      nothing all that got through is there, and nothing else; and in any case nothing
      disappeared or changed between directory and file. */
  ghost predicate InjectedOne(out: Files, fs: Files, d: Place, es: seq<Entry>, outcome: Outcome) {
    && (outcome.Skipped? || Blocked(fs, d) ==> SameUnder(out, fs, d))
    && (outcome.Copied? && Vacant(fs, d) && Consistent(d, es) ==> Holds(out, d, Through(es, outcome)))
    && (forall q :: Under(d, q) && q in fs ==> q in out && (fs[q].Dir? <==> out[q].Dir?))
  }

  /** No skill of the user has its directory above `q`. */
  ghost predicate Aside(t: map<Id, SkillRecord>, user: UserId, base: Place, q: Place) {
    forall id :: id in t && t[id].skill.user == user ==> !Under(base + [t[id].skill.name], q)
  }

  /** What injection did altogether: every skill of the user is in its own directory, and
      elsewhere at most the skills directory and its parents were made. */
  ghost predicate Injected(out: Files, t: map<Id, SkillRecord>, user: UserId, fmt: Formats, outcome: Id -> Outcome,
                           fs: Files, base: Place)
  {
    && (forall id :: id in t && t[id].skill.user == user ==>
        InjectedOne(out, fs, base + [t[id].skill.name], Entries(t[id], fmt), outcome(id)))
    && (forall q :: Aside(t, user, base, q) ==> Same(out, fs, q) || (q !in fs && q in out && out[q].Dir? && Under(q, base)))
  }

  lemma {:induction false} LastOfPlace(d: Place, es: seq<Entry>, i: nat) returns (k: nat)
    requires i < |es|
    ensures k < |es| && LastAt(d, es, k) && EntryPlace(d, es[k]) == EntryPlace(d, es[i])
    decreases |es| - i
  {
    if j :| i < j < |es| && EntryPlace(d, es[j]) == EntryPlace(d, es[i]) {
      k := LastOfPlace(d, es, j);
    } else {
      k := i;
    }
  }

  /** Every injected skill can be discovered: its manifest is right in its directory. */
  lemma ManifestThere(out: Files, t: map<Id, SkillRecord>, user: UserId, limit: int, fmt: Formats, outcome: Id -> Outcome,
                      fs: Files, base: Place, id: Id)
    requires Library(t, limit, fmt) && Injected(out, t, user, fmt, outcome, fs, base) && id in t && t[id].skill.user == user
    requires outcome(id).Copied? && |Entries(t[id], fmt)| <= outcome(id).upTo
    requires Vacant(fs, base + [t[id].skill.name]) && Consistent(base + [t[id].skill.name], Entries(t[id], fmt))
    ensures base + [t[id].skill.name] + [Manifest] in out
  {
    var d, es := base + [t[id].skill.name], Entries(t[id], fmt);
    assert InjectedOne(out, fs, d, es, outcome(id));
    assert GoodTar(fmt.untar(t[id].archive));
    ManifestHeld(out, d, es);
  }

  lemma ManifestHeld(out: Files, d: Place, es: seq<Entry>)
    requires Holds(out, d, es) && HasManifest(es)
    ensures d + [Manifest] in out
  {
    var i :| 0 <= i < |es| && NamesManifest(es[i].name);
    assert EntryPlace(d, es[i]) == d + [Manifest];
    var k := LastOfPlace(d, es, i);
  }

  /** Both: the skills are in place, and no other order would have given anything else. */
  ghost predicate InjectionResult(out: Files, t: map<Id, SkillRecord>, user: UserId, fmt: Formats, outcome: Id -> Outcome,
                                  fs: Files, base: Place)
  {
    Injected(out, t, user, fmt, outcome, fs, base) && FromAnyOrder(out, t, user, fmt, outcome, fs, base)
  }

  /** Installing in any order injects. */
  lemma InstalledIsInjected(t: map<Id, SkillRecord>, user: UserId, limit: int, fmt: Formats, outcome: Id -> Outcome,
                            fs: Files, base: Place, order: seq<Id>, out: Files)
    requires Library(t, limit, fmt) && user.User? && ListsOnce(order, t, user)
    requires out == InstallAll(fs, base, Items(t, order, fmt, outcome))
    ensures Injected(out, t, user, fmt, outcome, fs, base)
  {
    var items := Items(t, order, fmt, outcome);
    ItemsSound(t, user, limit, fmt, outcome, order);
    InstallAllAt(fs, base, items);
    forall id | id in t && t[id].skill.user == user
      ensures InjectedOne(out, fs, base + [t[id].skill.name], Entries(t[id], fmt), outcome(id))
    {
      var i :| 0 <= i < |order| && order[i] == id;
      assert items[i] == ItemOf(t[id], fmt, outcome(id));
      ItemInjected(out, fs, base, items[i]);
    }
    forall q | Aside(t, user, base, q)
      ensures Same(out, fs, q) || (q !in fs && q in out && out[q].Dir? && Under(q, base))
    {
      assert Elsewhere(base, items, q);
      MkdirAt(fs, base, q);
    }
  }

  lemma InstallKinds(fs: Files, base: Place, s: Item, q: Place)
    requires q in fs
    ensures q in InstallOne(fs, base, s) && (fs[q].Dir? <==> InstallOne(fs, base, s)[q].Dir?)
  {
    var d := base + [s.name];
    if Proceeds(fs, base, s) {
      MkdirAt(fs, d, q);
      UnpackKinds(MkdirP(fs, d), d, s.entries, s.outcome.upTo);
    }
  }

  lemma ItemInjected(out: Files, fs: Files, base: Place, s: Item)
    requires Sound(s) && SameUnder(out, InstallOne(fs, base, s), base + [s.name])
    ensures InjectedOne(out, fs, base + [s.name], s.entries, s.outcome)
  {
    var d := base + [s.name];
    var one := InstallOne(fs, base, s);
    if s.outcome.Copied? && Vacant(fs, d) && Consistent(d, s.entries) {
      InstallHolds(fs, base, s);
      HarmlessStay(d, Through(s.entries, s.outcome));
      HoldsSame(out, one, d, Through(s.entries, s.outcome));
    }
    forall q | Under(d, q) && q in fs
      ensures q in out && (fs[q].Dir? <==> out[q].Dir?)
    {
      InstallKinds(fs, base, s, q);
      assert Same(out, one, q);
    }
  }

  /** The injection loop over the memory store, which ranges over a Go map: whatever order
      that takes, the result is that of any other. Paths are resolved in the container, from
      `cwd` where `skillsDir` is relative. */
  method InjectSkills(store: MemoryStore.MemoryStore, user: UserId, limit: int, fmt: Formats, outcome: Id -> Outcome,
                      fs: Files, skillsDir: string, cwd: Place)
    returns (out: Files)
    requires store.SkillsValid() && Library(store.SkillView(), limit, fmt) && user.User?
    ensures InjectionResult(out, store.SkillView(), user, fmt, outcome, fs, Target(cwd, skillsDir))
  {
    ghost var t := store.SkillView();
    var order := ListInstallable(store, user, limit, fmt, t);
    out := InstallInOrder(store, user, fmt, outcome, fs, skillsDir, cwd, order, t);
    Concluded(t, user, limit, fmt, outcome, fs, Target(cwd, skillsDir), order, out);
    assert store.SkillView() == t;
  }

  lemma Concluded(t: map<Id, SkillRecord>, user: UserId, limit: int, fmt: Formats, outcome: Id -> Outcome,
                  fs: Files, base: Place, order: seq<Id>, out: Files)
    requires Library(t, limit, fmt) && user.User? && ListsOnce(order, t, user)
    requires out == InstallAll(fs, base, Items(t, order, fmt, outcome))
    ensures InjectionResult(out, t, user, fmt, outcome, fs, base)
  {
    InstalledIsInjected(t, user, limit, fmt, outcome, fs, base, order, out);
    AnyOtherOrder(t, user, limit, fmt, outcome, fs, base, order, out);
  }

  method ListInstallable(store: MemoryStore.MemoryStore, user: UserId, ghost limit: int, ghost fmt: Formats,
                         ghost t: map<Id, SkillRecord>)
    returns (order: seq<Id>)
    requires store.SkillsValid() && t == store.SkillView() && Library(t, limit, fmt) && user.User?
    ensures ListsOnce(order, t, user) && Installable(t, order, user)
  {
    order := store.ListSkills(user);
    CanInstall(order, t, user, limit, fmt);
  }

  ghost predicate Installable(t: map<Id, SkillRecord>, order: seq<Id>, user: UserId) {
    forall i :: 0 <= i < |order| ==>
      order[i] in t && MaySee(user, t[order[i]].skill.user) && ValidName(t[order[i]].skill.name)
  }

  /** Its loop. */
  method InstallInOrder(store: MemoryStore.MemoryStore, user: UserId, fmt: Formats, outcome: Id -> Outcome,
                        fs: Files, skillsDir: string, cwd: Place, order: seq<Id>, ghost t: map<Id, SkillRecord>)
    returns (out: Files)
    requires store.SkillsValid() && t == store.SkillView() && Installable(t, order, user)
    ensures out == InstallAll(fs, Target(cwd, skillsDir), Items(t, order, fmt, outcome))
  {
    ghost var base := Target(cwd, skillsDir);
    out := fs;
    for i := 0 to |order|
      invariant out == InstallAll(fs, base, Items(t, order[..i], fmt, outcome))
    {
      InstallNext(t, order, i, fmt, outcome, fs, base);
      out := InjectOne(store, user, order[i], fmt, outcome(order[i]), out, skillsDir, cwd);
    }
    assert order[..|order|] == order;
  }

  /** One turn of the loop: the archive goes to the directory that `path.Join` names. */
  method InjectOne(store: MemoryStore.MemoryStore, user: UserId, id: Id, fmt: Formats, outcome: Outcome,
                   fs: Files, skillsDir: string, cwd: Place)
    returns (out: Files)
    requires store.SkillsValid() && id in store.SkillView() && ValidName(store.SkillView()[id].skill.name)
    ensures MaySee(user, store.SkillView()[id].skill.user) ==>
      var r := store.SkillView()[id];
      out == ExtractArchive(fs, Target(cwd, skillsDir) + [r.skill.name], Entries(r, fmt), outcome)
  {
    var archive := store.GetSkillArchive(id, user);
    if archive.None? {
      return fs;
    }
    var name := store.SkillName(id);
    InstallDir(cwd, skillsDir, name);
    var destDir := PathJoin(skillsDir, name);
    out := ExtractArchive(fs, Target(cwd, destDir), fmt.untar(archive.value).entries, outcome);
  }

  lemma CanInstall(order: seq<Id>, t: map<Id, SkillRecord>, user: UserId, limit: int, fmt: Formats)
    requires Library(t, limit, fmt) && user.User? && forall i, j :: 0 <= i < j < |order| ==> order[i] != order[j]
    requires forall id :: id in order <==> id in Visible(t, SkillOwner, user)
    ensures ListsOnce(order, t, user) && Installable(t, order, user)
  {
    forall i | 0 <= i < |order|
      ensures order[i] in t && t[order[i]].skill.user == user
    {
      assert order[i] in order;
    }
  }

  lemma AnyOtherOrder(t: map<Id, SkillRecord>, user: UserId, limit: int, fmt: Formats, outcome: Id -> Outcome,
                      fs: Files, base: Place, order: seq<Id>, out: Files)
    requires Library(t, limit, fmt) && user.User? && ListsOnce(order, t, user)
    requires out == InstallAll(fs, base, Items(t, order, fmt, outcome))
    ensures FromAnyOrder(out, t, user, fmt, outcome, fs, base)
  {
    forall other | ListsOnce(other, t, user)
      ensures out == InstallAll(fs, base, Items(t, other, fmt, outcome))
    {
      InjectionOrder(t, user, limit, fmt, outcome, fs, base, other, order);
    }
  }
}
