/** The calls of `Isolation`, carried out on the memory store itself: its methods give the
    replies and leave the content that the theorems there speak about. */
module StoreCalls {
  import opened Domain
  import opened Entities
  import opened Isolation
  import M = MemoryStore

  ghost function ContentOf(store: M.MemoryStore): Content
    reads store, store.envs.Values, store.skills.Values
  {
    Content(store.EnvView(), store.snapshots, store.SkillView())
  }

  /** The listed records by ID. */
  method ById(rs: seq<M.EnvObject>, ghost l: map<Id, Env>) returns (m: map<Id, Env>)
    requires forall i :: 0 <= i < |rs| ==> rs[i].e.id in l && l[rs[i].e.id] == rs[i].e
    requires forall id :: id in l ==> exists i :: 0 <= i < |rs| && rs[i].e.id == id
    ensures m == l
  {
    m := map[];
    for n := 0 to |rs|
      invariant forall id :: id in m ==> id in l && m[id] == l[id]
      invariant forall i :: 0 <= i < n ==> rs[i].e.id in m
    {
      m := m[rs[n].e.id := rs[n].e];
    }
  }

  method EnvListing(store: M.MemoryStore, u: UserId) returns (m: map<Id, Env>)
    requires store.EnvsValid()
    ensures m == Visible(store.EnvView(), EnvOwner, u)
  {
    var rs := store.List(u);
    ListedIds(store, rs, Visible(store.EnvView(), EnvOwner, u));
    m := ById(rs, Visible(store.EnvView(), EnvOwner, u));
  }

  lemma ListedIds(store: M.MemoryStore, rs: seq<M.EnvObject>, l: map<Id, Env>)
    requires store.EnvsValid() && store.Lists(rs, l)
    ensures forall i :: 0 <= i < |rs| ==> rs[i].e.id in l && l[rs[i].e.id] == rs[i].e
    ensures forall id :: id in l ==> exists i :: 0 <= i < |rs| && rs[i].e.id == id
  {
    forall id | id in l ensures exists i :: 0 <= i < |rs| && rs[i].e.id == id {
      var i :| 0 <= i < |rs| && rs[i] == store.envs[id];
    }
  }

  method SkillListing(store: M.MemoryStore, u: UserId) returns (m: map<Id, Skill>)
    requires store.SkillsValid()
    ensures m == map id | id in Visible(store.SkillView(), SkillOwner, u) :: store.SkillView()[id].skill
  {
    var ids := store.ListSkills(u);
    m := map[];
    for n := 0 to |ids|
      invariant forall id :: id in m <==> id in ids[..n]
      invariant forall id :: id in m ==> id in store.skills && m[id] == store.skills[id].r.skill
    {
      assert ids[n] in ids;
      assert ids[..n + 1] == ids[..n] + [ids[n]];
      m := m[ids[n] := store.skills[ids[n]].r.skill];
    }
    assert ids[..|ids|] == ids;
  }

  predicate OfEnvs(call: Call) { call.CreateEnv? || call.GetEnv? || call.Update? || call.DeleteEnv? || call.ListEnvs? }

  predicate OfSnapshots(call: Call) {
    call.CreateSnapshot? || call.GetSnapshot? || call.ListSnapshots? || call.DeleteSnapshot?
  }

  method PerformEnv(store: M.MemoryStore, u: UserId, call: Call) returns (reply: Reply)
    requires store.EnvsValid() && OfEnvs(call)
    modifies store`envs
    ensures store.EnvsValid()
    ensures reply == ReplyTo(old(ContentOf(store)), u, call)
    ensures ContentOf(store) == Next(old(ContentOf(store)), u, call)
  {
    match call
    case CreateEnv(e) =>
      var env := new M.EnvObject(e);
      store.Create(env);
      return Done;
    case GetEnv(id) =>
      var env := store.Get(id, u);
      return if env == null then NotFound else OneEnv(env.e);
    case Update(e) =>
      var env := new M.EnvObject(e);
      var ok := store.Update(env);
      return if ok then Done else NotFound;
    case DeleteEnv(id) =>
      var ok := store.Delete(id, u);
      return if ok then Done else NotFound;
    case ListEnvs =>
      var m := EnvListing(store, u);
      return Envs(m);
  }

  method PerformSnapshot(store: M.MemoryStore, u: UserId, call: Call) returns (reply: Reply)
    requires OfSnapshots(call)
    modifies store`snapshots
    ensures reply == ReplyTo(old(ContentOf(store)), u, call)
    ensures ContentOf(store) == Next(old(ContentOf(store)), u, call)
  {
    match call
    case CreateSnapshot(s) =>
      store.CreateSnapshot(s);
      return Done;
    case GetSnapshot(id) =>
      var s := store.GetSnapshot(id, u);
      return if s.None? then NotFound else OneSnapshot(s.value);
    case ListSnapshots =>
      var m := store.ListSnapshots(u);
      return Snapshots(m);
    case DeleteSnapshot(id) =>
      var ok := store.DeleteSnapshot(id, u);
      return if ok then Done else NotFound;
  }

  method PerformUpsert(store: M.MemoryStore, u: UserId, s: Skill, a: Bytes) returns (reply: Reply)
    requires store.SkillsValid() && s.id !in store.skills && s.sizeBytes == |a|
    modifies store`skills, store.skills.Values
    ensures store.SkillsValid()
    ensures reply == ReplyTo(old(ContentOf(store)), u, UpsertSkill(s, a))
    ensures ContentOf(store) == Next(old(ContentOf(store)), u, UpsertSkill(s, a))
  {
    var arg := new M.SkillArgument(s);
    store.UpsertSkill(arg, a);
    assert store.EnvView() == old(store.EnvView());
    return OneSkill(arg.s);
  }

  method PerformDeleteSkill(store: M.MemoryStore, u: UserId, id: Id) returns (reply: Reply)
    requires store.SkillsValid()
    modifies store`skills
    ensures store.SkillsValid()
    ensures reply == ReplyTo(old(ContentOf(store)), u, DeleteSkill(id))
    ensures ContentOf(store) == Next(old(ContentOf(store)), u, DeleteSkill(id))
  {
    var ok := store.DeleteSkill(id, u);
    return if ok then Done else NotFound;
  }

  method PerformSkillRead(store: M.MemoryStore, u: UserId, call: Call) returns (reply: Reply)
    requires store.SkillsValid() && (call.GetSkill? || call.GetSkillArchive? || call.ListSkills?)
    ensures reply == ReplyTo(ContentOf(store), u, call)
    ensures ContentOf(store) == Next(ContentOf(store), u, call)
  {
    match call
    case GetSkill(id) =>
      var s := store.GetSkill(id, u);
      return if s.None? then NotFound else OneSkill(s.value);
    case GetSkillArchive(id) =>
      var a := store.GetSkillArchive(id, u);
      return if a.None? then NotFound else Archive(a.value);
    case ListSkills =>
      var m := SkillListing(store, u);
      return Skills(m);
  }
}
