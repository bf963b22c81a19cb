/** The SQL store as tables of rows with times in whole seconds, and the services written
    once over whichever store backs them. Run sequentially, the two stores tell callers
    the same story up to the fractions of seconds that SQL drops. */
module SqlStore {
  import opened Domain
  import opened Entities

  datatype SnapshotRow = SnapshotRow(user: UserId, tenant: UserId, environment: Id, image: string,
                                     note: string, size: int, createdAt: int)

  datatype SkillRow = SkillRow(user: UserId, tenant: UserId, name: string, archive: Bytes, size: int,
                               createdAt: int, updatedAt: int)

  datatype Tables = Tables(envs: map<Id, Row>, snapshots: map<Id, SnapshotRow>, skills: map<Id, SkillRow>)

  function SnapshotToRow(s: Snapshot): SnapshotRow {
    SnapshotRow(s.user, s.tenant, s.environment, s.image, s.note, s.size, Unix(s.createdAt))
  }

  function SnapshotFromRow(id: Id, r: SnapshotRow): Snapshot {
    Snapshot(id, r.tenant, r.user, r.environment, r.image, r.note, r.size, FromUnix(r.createdAt))
  }

  function SkillToRow(r: SkillRecord): SkillRow {
    SkillRow(r.skill.user, r.skill.tenant, r.skill.name, r.archive, r.skill.sizeBytes,
             Unix(r.skill.createdAt), Unix(r.skill.updatedAt))
  }

  function SkillFromRow(id: Id, r: SkillRow): Skill {
    Skill(id, r.tenant, r.user, r.name, r.size, FromUnix(r.createdAt), FromUnix(r.updatedAt))
  }

  const RowOwner: Row -> UserId := (r: Row) => r.user
  const SnapshotRowOwner: SnapshotRow -> UserId := (r: SnapshotRow) => r.user
  const SkillRowOwner: SkillRow -> UserId := (r: SkillRow) => r.user

  /** The row that conflicts on UNIQUE(user_id, name). */
  ghost function ConflictKey(t: map<Id, SkillRow>, user: UserId, name: string): (r: Option<Id>)
    ensures r.Some? ==> r.value in t && t[r.value].user == user && t[r.value].name == name
    ensures r.None? ==> forall k :: k in t ==> !(t[k].user == user && t[k].name == name)
  {
    if k :| k in t && t[k].user == user && t[k].name == name then Some(k) else None
  }

  // ---- The `Store` interface, over either backend ----------------------------------

  datatype Backend = Mem(c: Content) | Sql(t: Tables)

  function Get(b: Backend, id: Id, u: UserId): Option<Env> {
    match b
    case Mem(c) => Lookup(c.envs, EnvOwner, id, u)
    case Sql(t) =>
      var r := Lookup(t.envs, RowOwner, id, u);
      if r.Some? then Some(FromRow(id, r.value)) else None
  }

  function Insert(b: Backend, e: Env): Backend {
    match b
    case Mem(c) => Mem(c.(envs := c.envs[e.id := e]))
    case Sql(t) => Sql(t.(envs := t.envs[e.id := ToRow(e)]))
  }

  function Update(b: Backend, e: Env): Backend {
    match b
    case Mem(c) => Mem(c.(envs := UpdateEnv(c.envs, e)))
    case Sql(t) =>
      if e.id in t.envs && t.envs[e.id].user == e.user
      then Sql(t.(envs := t.envs[e.id := UpdateRow(t.envs[e.id], e)])) else b
  }

  function Delete(b: Backend, id: Id, u: UserId): Backend {
    match b
    case Mem(c) => Mem(c.(envs := Remove(c.envs, EnvOwner, id, u)))
    case Sql(t) => Sql(t.(envs := Remove(t.envs, RowOwner, id, u)))
  }

  function List(b: Backend, u: UserId): map<Id, Env> {
    match b
    case Mem(c) => Visible(c.envs, EnvOwner, u)
    case Sql(t) => map id | id in t.envs && MaySee(u, t.envs[id].user) :: FromRow(id, t.envs[id])
  }

  function ListByTenant(b: Backend, tenant: UserId): map<Id, Env> {
    match b
    case Mem(c) => map id | id in c.envs && c.envs[id].tenant == tenant :: c.envs[id]
    case Sql(t) => map id | id in t.envs && t.envs[id].tenant == tenant :: FromRow(id, t.envs[id])
  }

  function InsertSnapshot(b: Backend, s: Snapshot): Backend {
    match b
    case Mem(c) => Mem(c.(snapshots := c.snapshots[s.id := s]))
    case Sql(t) => Sql(t.(snapshots := t.snapshots[s.id := SnapshotToRow(s)]))
  }

  function GetSnapshot(b: Backend, id: Id, u: UserId): Option<Snapshot> {
    match b
    case Mem(c) => Lookup(c.snapshots, SnapshotOwner, id, u)
    case Sql(t) =>
      var r := Lookup(t.snapshots, SnapshotRowOwner, id, u);
      if r.Some? then Some(SnapshotFromRow(id, r.value)) else None
  }

  function ListSnapshots(b: Backend, u: UserId): map<Id, Snapshot> {
    match b
    case Mem(c) => Visible(c.snapshots, SnapshotOwner, u)
    case Sql(t) => map id | id in t.snapshots && MaySee(u, t.snapshots[id].user) :: SnapshotFromRow(id, t.snapshots[id])
  }

  function ListSnapshotsByTenant(b: Backend, tenant: UserId): map<Id, Snapshot> {
    match b
    case Mem(c) => map id | id in c.snapshots && c.snapshots[id].tenant == tenant :: c.snapshots[id]
    case Sql(t) => map id | id in t.snapshots && t.snapshots[id].tenant == tenant :: SnapshotFromRow(id, t.snapshots[id])
  }

  function DeleteSnapshot(b: Backend, id: Id, u: UserId): Backend {
    match b
    case Mem(c) => Mem(c.(snapshots := Remove(c.snapshots, SnapshotOwner, id, u)))
    case Sql(t) => Sql(t.(snapshots := Remove(t.snapshots, SnapshotRowOwner, id, u)))
  }

  ghost function Upsert(b: Backend, s: Skill, archive: Bytes): Backend {
    match b
    case Mem(c) => Mem(c.(skills := Upserted(c.skills, s, archive)))
    case Sql(t) =>
      match ConflictKey(t.skills, s.user, s.name)
      case Some(k) =>
        Sql(t.(skills := t.skills[k := t.skills[k].(archive := archive, size := s.sizeBytes,
                                                    updatedAt := Unix(s.updatedAt))]))
      case None => Sql(t.(skills := t.skills[s.id := SkillToRow(SkillRecord(s, archive))]))
  }

  /** The caller's skill after `UpsertSkill`; SQL reads the persisted row back. */
  ghost function Reflected(b: Backend, s: Skill): Skill {
    match b
    case Mem(c) => Persisted(c.skills, s)
    case Sql(t) =>
      match ConflictKey(t.skills, s.user, s.name)
      case Some(k) => s.(id := k, createdAt := FromUnix(t.skills[k].createdAt))
      case None => s.(createdAt := Floor(s.createdAt))
  }

  function GetSkill(b: Backend, id: Id, u: UserId): Option<(Skill, Bytes)> {
    match b
    case Mem(c) =>
      var r := Lookup(c.skills, SkillOwner, id, u);
      if r.Some? then Some((r.value.skill, r.value.archive)) else None
    case Sql(t) =>
      var r := Lookup(t.skills, SkillRowOwner, id, u);
      if r.Some? then Some((SkillFromRow(id, r.value), r.value.archive)) else None
  }

  function ListSkills(b: Backend, u: UserId): map<Id, Skill> {
    match b
    case Mem(c) => map id | id in c.skills && MaySee(u, c.skills[id].skill.user) :: c.skills[id].skill
    case Sql(t) => map id | id in t.skills && MaySee(u, t.skills[id].user) :: SkillFromRow(id, t.skills[id])
  }

  function ListSkillsByTenant(b: Backend, tenant: UserId): map<Id, Skill> {
    match b
    case Mem(c) => map id | id in c.skills && c.skills[id].skill.tenant == tenant :: c.skills[id].skill
    case Sql(t) => map id | id in t.skills && t.skills[id].tenant == tenant :: SkillFromRow(id, t.skills[id])
  }

  function DeleteSkill(b: Backend, id: Id, u: UserId): Backend {
    match b
    case Mem(c) => Mem(c.(skills := Remove(c.skills, SkillOwner, id, u)))
    case Sql(t) => Sql(t.(skills := Remove(t.skills, SkillRowOwner, id, u)))
  }

  // ---- Service operations -------------------------------------------------------------

  datatype Request =
    | Create(env: Env, source: Option<Id>, made: Option<ContainerId>, started: bool)
    | Destroy(id: Id, user: UserId)
    | Use(id: Id, user: UserId, now: Time, worked: bool)  // exec and file operations
    | Show(id: Id, user: UserId)
    | ShowAll(user: UserId)
    | ShowTenant(tenant: UserId)
    | TakeSnapshot(snapshot: Snapshot, worked: bool)
    | ShowSnapshot(id: Id, user: UserId)
    | ShowSnapshots(user: UserId)
    | ShowTenantSnapshots(tenant: UserId)
    | DropSnapshot(id: Id, user: UserId)
    | Register(skill: Skill, archive: Bytes)
    | ShowSkill(id: Id, user: UserId)
    | ShowSkills(user: UserId)
    | ShowTenantSkills(tenant: UserId)
    | DropSkill(id: Id, user: UserId)

  datatype Response =
    | Done
    | NotFound
    | NotRunning
    | Failed
    | OneEnv(env: Env)
    | ManyEnvs(envs: map<Id, Env>)
    | OneSnapshot(snapshot: Snapshot)
    | ManySnapshots(snapshots: map<Id, Snapshot>)
    | OneSkill(skill: Skill, archive: Bytes)
    | ManySkills(skills: map<Id, Skill>)

  /** The environment that `CreateEnvironment` returns on success. */
  function Started(e: Env, c: ContainerId): Env { e.(containerId := c, status := Running) }

  ghost function Serve(b: Backend, rq: Request): (Backend, Response) {
    match rq
    case Create(e, source, made, started) =>
      var stored := Insert(b, e);
      if source.Some? && GetSnapshot(b, source.value, e.user).None? then (b, NotFound)
      else if made.None? || !started then (Delete(stored, e.id, e.user), Failed)
      else (Update(stored, Started(e, made.value)), OneEnv(Started(e, made.value)))
    case Destroy(id, u) =>
      if Get(b, id, u).None? then (b, NotFound) else (Delete(b, id, u), Done)
    case Use(id, u, now, worked) =>
      (match Get(b, id, u)
       case None => (b, NotFound)
       case Some(e) =>
         if !e.status.Running? then (b, NotRunning)
         else if !worked then (b, Failed)
         else (Update(b, e.(lastUsedAt := now)), Done))
    case Show(id, u) =>
      (b, match Get(b, id, u) case None => NotFound case Some(e) => OneEnv(e))
    case ShowAll(u) => (b, ManyEnvs(List(b, u)))
    case ShowTenant(t) => (b, ManyEnvs(ListByTenant(b, t)))
    case TakeSnapshot(s, worked) =>
      (match Get(b, s.environment, s.user)
       case None => (b, NotFound)
       case Some(e) =>
         if !e.status.Running? then (b, NotRunning)
         else if !worked then (b, Failed)
         else (InsertSnapshot(b, s), OneSnapshot(s)))
    case ShowSnapshot(id, u) =>
      (b, match GetSnapshot(b, id, u) case None => NotFound case Some(s) => OneSnapshot(s))
    case ShowSnapshots(u) => (b, ManySnapshots(ListSnapshots(b, u)))
    case ShowTenantSnapshots(t) => (b, ManySnapshots(ListSnapshotsByTenant(b, t)))
    case DropSnapshot(id, u) =>
      if GetSnapshot(b, id, u).None? then (b, NotFound) else (DeleteSnapshot(b, id, u), Done)
    case Register(s, a) => (Upsert(b, s, a), OneSkill(Reflected(b, s), a))
    case ShowSkill(id, u) =>
      (b, match GetSkill(b, id, u) case None => NotFound case Some((s, a)) => OneSkill(s, a))
    case ShowSkills(u) => (b, ManySkills(ListSkills(b, u)))
    case ShowTenantSkills(t) => (b, ManySkills(ListSkillsByTenant(b, t)))
    case DropSkill(id, u) =>
      if GetSkill(b, id, u).None? then (b, NotFound) else (DeleteSkill(b, id, u), Done)
  }

  // ---- Same story ------------------------------------------------------------------------

  function TruncateSkill(s: Skill): Skill {
    s.(createdAt := Floor(s.createdAt), updatedAt := Floor(s.updatedAt))
  }

  function TruncateSnapshot(s: Snapshot): Snapshot { s.(createdAt := Floor(s.createdAt)) }

  function TruncateResponse(r: Response): Response {
    match r
    case OneEnv(e) => OneEnv(Truncate(e))
    case ManyEnvs(es) => ManyEnvs(map id | id in es :: Truncate(es[id]))
    case OneSnapshot(s) => OneSnapshot(TruncateSnapshot(s))
    case ManySnapshots(ss) => ManySnapshots(map id | id in ss :: TruncateSnapshot(ss[id]))
    case OneSkill(s, a) => OneSkill(TruncateSkill(s), a)
    case ManySkills(ss) => ManySkills(map id | id in ss :: TruncateSkill(ss[id]))
    case _ => r
  }

  ghost function SkillRows(m: map<Id, SkillRecord>): map<Id, SkillRow> {
    map id | id in m :: SkillToRow(m[id])
  }

  /** The tables hold what the memory store holds, in seconds. */
  ghost predicate Sim(c: Content, t: Tables) {
    && SkillsOk(c.skills)
    && (forall id :: id in c.envs ==> c.envs[id].id == id)
    && (forall id :: id in c.snapshots ==> c.snapshots[id].id == id)
    && t.envs == (map id | id in c.envs :: ToRow(c.envs[id]))
    && t.snapshots == (map id | id in c.snapshots :: SnapshotToRow(c.snapshots[id]))
    && t.skills == SkillRows(c.skills)
  }

  /** New IDs are new, and a registered size is the archive's. */
  ghost predicate FreshIds(c: Content, rq: Request) {
    match rq
    case Create(e, _, _, _) => e.id !in c.envs && !e.user.Anyone?
    case TakeSnapshot(s, _) => s.id !in c.snapshots
    case Register(s, a) => s.id !in c.skills && s.sizeBytes == |a|
    case _ => true
  }

  lemma SameGet(c: Content, t: Tables, id: Id, u: UserId)
    requires Sim(c, t)
    ensures var m, q := Get(Mem(c), id, u), Get(Sql(t), id, u);
            m.Some? == q.Some? && (m.Some? ==> q.value == Truncate(m.value) && m.value == c.envs[id] && id in c.envs)
  {
  }

  /** SQL `Update` leaves four columns alone, and no service asks it to change them. */
  lemma SameUpdate(c: Content, t: Tables, e: Env, q: Env)
    requires Sim(c, t) && e.id in c.envs && Truncate(q) == Truncate(e)
    requires var cur := c.envs[e.id];
             && e.user == cur.user && e.tenant == cur.tenant && Unix(e.createdAt) == Unix(cur.createdAt)
             && e.spec.image == cur.spec.image && e.spec.network == cur.spec.network
    ensures Sim(Update(Mem(c), e).c, Update(Sql(t), q).t)
  {
    assert UpdateRow(t.envs[e.id], q) == ToRow(e);
  }

  /** One request, served from both backends. */
  ghost predicate SameServe(c: Content, t: Tables, rq: Request) {
    var (m, rm), (q, rs) := Serve(Mem(c), rq), Serve(Sql(t), rq);
    m.Mem? && q.Sql? && Sim(m.c, q.t) && TruncateResponse(rm) == TruncateResponse(rs)
  }

  lemma SameInsert(c: Content, t: Tables, e: Env)
    requires Sim(c, t)
    ensures Sim(Insert(Mem(c), e).c, Insert(Sql(t), e).t)
  {
  }

  lemma SameDelete(c: Content, t: Tables, id: Id, u: UserId)
    requires Sim(c, t)
    ensures Sim(Delete(Mem(c), id, u).c, Delete(Sql(t), id, u).t)
  {
  }

  lemma SameCreate(c: Content, t: Tables, rq: Request)
    requires Sim(c, t) && FreshIds(c, rq) && rq.Create?
    ensures SameServe(c, t, rq)
  {
    var e := rq.env;
    if rq.source.Some? {
      SameGetSnapshot(c, t, rq.source.value, e.user);
    }
    SameInsert(c, t, e);
    var c', t' := Insert(Mem(c), e).c, Insert(Sql(t), e).t;
    if rq.made.None? || !rq.started {
      SameDelete(c', t', e.id, e.user);
    } else {
      SameUpdate(c', t', Started(e, rq.made.value), Started(e, rq.made.value));
    }
  }

  lemma SameUse(c: Content, t: Tables, rq: Request)
    requires Sim(c, t) && rq.Use?
    ensures SameServe(c, t, rq)
  {
    SameGet(c, t, rq.id, rq.user);
    var m, q := Get(Mem(c), rq.id, rq.user), Get(Sql(t), rq.id, rq.user);
    if m.Some? && m.value.status.Running? && rq.worked {
      SameUpdate(c, t, m.value.(lastUsedAt := rq.now), q.value.(lastUsedAt := rq.now));
    }
  }

  lemma SameReads(c: Content, t: Tables, rq: Request)
    requires Sim(c, t) && (rq.Destroy? || rq.Show?)
    ensures SameServe(c, t, rq)
  {
    SameGet(c, t, rq.id, rq.user);
    SameDelete(c, t, rq.id, rq.user);
  }

  lemma SameList(c: Content, t: Tables, u: UserId)
    requires forall id :: id in c.envs ==> c.envs[id].id == id
    requires t.envs == (map id | id in c.envs :: ToRow(c.envs[id]))
    ensures TruncateResponse(ManyEnvs(List(Mem(c), u))) == TruncateResponse(ManyEnvs(List(Sql(t), u)))
  {
    var m, q := List(Mem(c), u), List(Sql(t), u);
    forall id ensures id in m <==> id in q {
    }
    forall id | id in m ensures Truncate(m[id]) == Truncate(q[id]) {
    }
  }

  lemma SameTenantList(c: Content, t: Tables, tenant: UserId)
    requires forall id :: id in c.envs ==> c.envs[id].id == id
    requires t.envs == (map id | id in c.envs :: ToRow(c.envs[id]))
    ensures TruncateResponse(ManyEnvs(ListByTenant(Mem(c), tenant)))
         == TruncateResponse(ManyEnvs(ListByTenant(Sql(t), tenant)))
  {
    var m, q := ListByTenant(Mem(c), tenant), ListByTenant(Sql(t), tenant);
    forall id ensures id in m <==> id in q {
    }
    forall id | id in m ensures Truncate(m[id]) == Truncate(q[id]) {
    }
  }

  lemma SameGetSnapshot(c: Content, t: Tables, id: Id, u: UserId)
    requires Sim(c, t)
    ensures var m, q := GetSnapshot(Mem(c), id, u), GetSnapshot(Sql(t), id, u);
            m.Some? == q.Some? && (m.Some? ==> q.value == m.value.(createdAt := Floor(m.value.createdAt)))
    ensures Sim(DeleteSnapshot(Mem(c), id, u).c, DeleteSnapshot(Sql(t), id, u).t)
  {
  }

  lemma SameSnapshotList(c: Content, t: Tables, u: UserId)
    requires forall id :: id in c.snapshots ==> c.snapshots[id].id == id
    requires t.snapshots == (map id | id in c.snapshots :: SnapshotToRow(c.snapshots[id]))
    ensures TruncateResponse(ManySnapshots(ListSnapshots(Mem(c), u))) == TruncateResponse(ManySnapshots(ListSnapshots(Sql(t), u)))
  {
    var m, q := ListSnapshots(Mem(c), u), ListSnapshots(Sql(t), u);
    forall id ensures id in m <==> id in q {
    }
    forall id | id in m ensures TruncateSnapshot(m[id]) == TruncateSnapshot(q[id]) {
    }
  }

  lemma SameTenantSnapshots(c: Content, t: Tables, tenant: UserId)
    requires forall id :: id in c.snapshots ==> c.snapshots[id].id == id
    requires t.snapshots == (map id | id in c.snapshots :: SnapshotToRow(c.snapshots[id]))
    ensures TruncateResponse(ManySnapshots(ListSnapshotsByTenant(Mem(c), tenant)))
         == TruncateResponse(ManySnapshots(ListSnapshotsByTenant(Sql(t), tenant)))
  {
    var m, q := ListSnapshotsByTenant(Mem(c), tenant), ListSnapshotsByTenant(Sql(t), tenant);
    forall id ensures id in m <==> id in q {
    }
    forall id | id in m ensures TruncateSnapshot(m[id]) == TruncateSnapshot(q[id]) {
    }
  }

  lemma SameInsertSnapshot(c: Content, t: Tables, s: Snapshot)
    requires Sim(c, t)
    ensures Sim(InsertSnapshot(Mem(c), s).c, InsertSnapshot(Sql(t), s).t)
  {
  }

  lemma SameTakeSnapshot(c: Content, t: Tables, rq: Request)
    requires Sim(c, t) && rq.TakeSnapshot?
    ensures SameServe(c, t, rq)
  {
    SameGet(c, t, rq.snapshot.environment, rq.snapshot.user);
    SameInsertSnapshot(c, t, rq.snapshot);
  }

  lemma SameSnapshots(c: Content, t: Tables, rq: Request)
    requires Sim(c, t) && (rq.ShowSnapshot? || rq.DropSnapshot?)
    ensures SameServe(c, t, rq)
  {
    SameGetSnapshot(c, t, rq.id, rq.user);
  }

  lemma SameKey(c: Content, t: Tables, user: UserId, name: string)
    requires Sim(c, t)
    ensures SkillKey(c.skills, user, name) == ConflictKey(t.skills, user, name)
  {
    var k, k' := SkillKey(c.skills, user, name), ConflictKey(t.skills, user, name);
    if k.Some? { assert k.value in t.skills; }
    if k'.Some? { assert k'.value in c.skills && SameSkill(c.skills[k'.value], user, name); }
  }

  lemma SkillRowsPut(m: map<Id, SkillRecord>, k: Id, r: SkillRecord)
    ensures SkillRows(m[k := r]) == SkillRows(m)[k := SkillToRow(r)]
  {
  }

  lemma SameRegister(c: Content, t: Tables, s: Skill, a: Bytes)
    requires Sim(c, t) && s.id !in c.skills && s.sizeBytes == |a|
    ensures Sim(Upsert(Mem(c), s, a).c, Upsert(Sql(t), s, a).t)
    ensures TruncateSkill(Reflected(Mem(c), s)) == TruncateSkill(Reflected(Sql(t), s))
  {
    SameKey(c, t, s.user, s.name);
    UpsertKeepsSkills(c.skills, s, a);
    match SkillKey(c.skills, s.user, s.name)
    case Some(k) => SkillRowsPut(c.skills, k, Replaced(c.skills[k], s, a));
    case None => SkillRowsPut(c.skills, s.id, SkillRecord(s, a));
  }

  lemma SameGetSkill(c: Content, t: Tables, id: Id, u: UserId)
    requires Sim(c, t)
    ensures var m, q := GetSkill(Mem(c), id, u), GetSkill(Sql(t), id, u);
            m.Some? == q.Some? && (m.Some? ==> q.value == (TruncateSkill(m.value.0), m.value.1))
  {
  }

  lemma SkillRowTruncates(id: Id, r: SkillRecord)
    requires r.skill.id == id
    ensures SkillFromRow(id, SkillToRow(r)) == TruncateSkill(r.skill)
  {
  }

  lemma SameSkillList(c: Content, t: Tables, u: UserId)
    requires (forall id :: id in c.skills ==> c.skills[id].skill.id == id) && t.skills == SkillRows(c.skills)
    ensures TruncateResponse(ManySkills(ListSkills(Mem(c), u))) == TruncateResponse(ManySkills(ListSkills(Sql(t), u)))
  {
    var m, q := ListSkills(Mem(c), u), ListSkills(Sql(t), u);
    forall id ensures id in m <==> id in q {
    }
    forall id | id in m ensures TruncateSkill(m[id]) == TruncateSkill(q[id]) {
      SkillRowTruncates(id, c.skills[id]);
    }
  }

  lemma SameTenantSkills(c: Content, t: Tables, tenant: UserId)
    requires (forall id :: id in c.skills ==> c.skills[id].skill.id == id) && t.skills == SkillRows(c.skills)
    ensures TruncateResponse(ManySkills(ListSkillsByTenant(Mem(c), tenant)))
         == TruncateResponse(ManySkills(ListSkillsByTenant(Sql(t), tenant)))
  {
    var m, q := ListSkillsByTenant(Mem(c), tenant), ListSkillsByTenant(Sql(t), tenant);
    forall id ensures id in m <==> id in q {
    }
    forall id | id in m ensures TruncateSkill(m[id]) == TruncateSkill(q[id]) {
      SkillRowTruncates(id, c.skills[id]);
    }
  }

  lemma SameDeleteSkill(c: Content, t: Tables, id: Id, u: UserId)
    requires Sim(c, t)
    ensures Sim(DeleteSkill(Mem(c), id, u).c, DeleteSkill(Sql(t), id, u).t)
  {
  }

  lemma SameSkills(c: Content, t: Tables, rq: Request)
    requires Sim(c, t) && (rq.ShowSkill? || rq.DropSkill?)
    ensures SameServe(c, t, rq)
  {
    SameGetSkill(c, t, rq.id, rq.user);
    SameDeleteSkill(c, t, rq.id, rq.user);
  }

  lemma ServeSame(c: Content, t: Tables, rq: Request)
    requires Sim(c, t) && FreshIds(c, rq)
    ensures SameServe(c, t, rq)
  {
    match rq
    case Create(_, _, _, _) => SameCreate(c, t, rq);
    case Use(_, _, _, _) => SameUse(c, t, rq);
    case Destroy(_, _) => SameReads(c, t, rq);
    case Show(_, _) => SameReads(c, t, rq);
    case ShowAll(u) => SameList(c, t, u);
    case ShowTenant(tenant) => SameTenantList(c, t, tenant);
    case TakeSnapshot(_, _) => SameTakeSnapshot(c, t, rq);
    case ShowSnapshot(_, _) => SameSnapshots(c, t, rq);
    case ShowSnapshots(u) => SameSnapshotList(c, t, u);
    case ShowTenantSnapshots(tenant) => SameTenantSnapshots(c, t, tenant);
    case DropSnapshot(_, _) => SameSnapshots(c, t, rq);
    case Register(s, a) => SameRegister(c, t, s, a);
    case ShowSkill(_, _) => SameSkills(c, t, rq);
    case ShowSkills(u) => SameSkillList(c, t, u);
    case ShowTenantSkills(tenant) => SameTenantSkills(c, t, tenant);
    case DropSkill(_, _) => SameSkills(c, t, rq);
  }

  ghost function ServeAll(b: Backend, rqs: seq<Request>): (Backend, seq<Response>)
    decreases |rqs|
  {
    if rqs == [] then (b, [])
    else
      var (b', r) := Serve(b, rqs[0]);
      var (b'', rs) := ServeAll(b', rqs[1..]);
      (b'', [r] + rs)
  }

  ghost predicate FreshRun(b: Backend, rqs: seq<Request>)
    decreases |rqs|
  {
    rqs == [] || (b.Mem? && FreshIds(b.c, rqs[0]) && FreshRun(Serve(b, rqs[0]).0, rqs[1..]))
  }

  function TruncateAll(rs: seq<Response>): (ts: seq<Response>)
    ensures |ts| == |rs| && forall i :: 0 <= i < |rs| ==> ts[i] == TruncateResponse(rs[i])
  {
    seq(|rs|, i requires 0 <= i < |rs| => TruncateResponse(rs[i]))
  }

  /** For any sequence of service operations both stores give the same responses up to
      truncation, and end up holding the same records up to truncation. */
  lemma {:induction false} SameStory(c: Content, t: Tables, rqs: seq<Request>)
    requires Sim(c, t) && FreshRun(Mem(c), rqs)
    ensures var (m, rm), (q, rs) := ServeAll(Mem(c), rqs), ServeAll(Sql(t), rqs);
            && m.Mem? && q.Sql? && Sim(m.c, q.t)
            && |rm| == |rs| && TruncateAll(rm) == TruncateAll(rs)
    decreases |rqs|
  {
    if rqs != [] {
      ServeSame(c, t, rqs[0]);
      var m, q := Serve(Mem(c), rqs[0]).0, Serve(Sql(t), rqs[0]).0;
      SameStory(m.c, q.t, rqs[1..]);
      TruncateCons(Serve(Mem(c), rqs[0]).1, ServeAll(m, rqs[1..]).1, Serve(Sql(t), rqs[0]).1, ServeAll(q, rqs[1..]).1);
    }
  }

  lemma TruncateCons(r: Response, rs: seq<Response>, q: Response, qs: seq<Response>)
    requires TruncateResponse(r) == TruncateResponse(q) && |rs| == |qs| && TruncateAll(rs) == TruncateAll(qs)
    ensures TruncateAll([r] + rs) == TruncateAll([q] + qs)
  {
    forall i | 0 <= i < |rs| ensures TruncateResponse(rs[i]) == TruncateResponse(qs[i]) {
      assert TruncateAll(rs)[i] == TruncateAll(qs)[i];
    }
  }

  // ---- Expiry -----------------------------------------------------------------------------

  const SECOND: int := 1_000_000_000

  ghost predicate ValidTime(t: Time) { 0 <= t.nsec < SECOND }

  /** The WHERE clause of SQL `ListExpired`, with both cutoffs rounded down to seconds. */
  predicate SqlExpired(r: Row, now: int, idleTimeout: int) {
    && !r.status.Stopped? && !r.status.Destroyed?
    && (r.lastUsedAt < (now - idleTimeout) / SECOND || r.expiresAt < now / SECOND)
  }

  /** Past one of its limits by at least a second. */
  predicate LongExpired(e: Env, now: int, idleTimeout: int) {
    && !e.status.Stopped? && !e.status.Destroyed?
    && (now - Nanos(e.lastUsedAt) >= idleTimeout + SECOND || now >= Nanos(e.expiresAt) + SECOND)
  }

  /** `a.sec < floor(b)` holds only if `a < b`, and always if `a + 1 s <= b`. */
  lemma FloorBefore(a: Time, b: int)
    requires ValidTime(a)
    ensures a.sec < b / SECOND ==> Nanos(a) < b
    ensures Nanos(a) + SECOND <= b ==> a.sec < b / SECOND
  {
    assert b == b / SECOND * SECOND + b % SECOND;
  }

  /** SQL expiry lies between exact expiry and exact expiry a second late, for all times
      and timeouts; so SQL lists a second later whatever memory lists now. */
  lemma ExpirySandwich(e: Env, now: int, idleTimeout: int)
    requires ValidTime(e.lastUsedAt) && ValidTime(e.expiresAt)
    ensures SqlExpired(ToRow(e), now, idleTimeout) ==> Expired(e, now, idleTimeout)
    ensures LongExpired(e, now, idleTimeout) ==> SqlExpired(ToRow(e), now, idleTimeout)
    ensures Expired(e, now, idleTimeout) ==> SqlExpired(ToRow(e), now + SECOND, idleTimeout)
  {
    FloorBefore(e.lastUsedAt, now - idleTimeout);
    FloorBefore(e.expiresAt, now);
    FloorBefore(e.lastUsedAt, now + SECOND - idleTimeout);
    FloorBefore(e.expiresAt, now + SECOND);
  }

  /** The gap is real: this record is expired in memory and not yet in SQL. */
  lemma ExpiryGap(e: Env)
    ensures var x := e.(status := Running, lastUsedAt := Time(0, 1), expiresAt := Time(5, 0));
            Expired(x, SECOND - 1, 0) && !SqlExpired(ToRow(x), SECOND - 1, 0)
  {
  }

  /** At the level of the two stores: a SQL reap pass removes no record that a memory pass
      at the same moment keeps, and keeps none that memory would have removed a second ago. */
  lemma ReapSandwich(c: Content, t: Tables, now: int, idleTimeout: int, id: Id)
    requires Sim(c, t) && id in c.envs
    requires ValidTime(c.envs[id].lastUsedAt) && ValidTime(c.envs[id].expiresAt)
    ensures id in t.envs
    ensures id in Reaped(c.envs, now, idleTimeout) ==> !SqlExpired(t.envs[id], now, idleTimeout)
    ensures id !in Reaped(c.envs, now - SECOND, idleTimeout) ==> SqlExpired(t.envs[id], now, idleTimeout)
  {
    ExpirySandwich(c.envs[id], now, idleTimeout);
    ExpirySandwich(c.envs[id], now - SECOND, idleTimeout);
  }
}
