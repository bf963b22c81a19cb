/** The store's content as plain values, and what one `Store` call does to it. A listing is
    a map, because the memory store ranges over a Go map and so promises no order. */
module Entities {
  import opened Domain

  datatype Snapshot = Snapshot(id: Id, tenant: UserId, user: UserId, environment: Id, image: string,
                               note: string, size: int, createdAt: Time)

  datatype Skill = Skill(id: Id, tenant: UserId, user: UserId, name: string, sizeBytes: int,
                         createdAt: Time, updatedAt: Time)

  /** `skillRecord`: metadata with its archive. */
  datatype SkillRecord = SkillRecord(skill: Skill, archive: Bytes)

  datatype Content = Content(envs: map<Id, Env>, snapshots: map<Id, Snapshot>, skills: map<Id, SkillRecord>)

  // ---- Owner-scoped tables ------------------------------------------------------

  /** What `user` may see of a table: everything for `Anyone`. */
  function Visible<V>(t: map<Id, V>, owner: V -> UserId, user: UserId): map<Id, V> {
    map id | id in t && MaySee(user, owner(t[id])) :: t[id]
  }

  function Lookup<V>(t: map<Id, V>, owner: V -> UserId, id: Id, user: UserId): Option<V> {
    if id in t && MaySee(user, owner(t[id])) then Some(t[id]) else None
  }

  /** The table after `Delete`, which changes nothing when `Lookup` finds nothing. */
  function Remove<V>(t: map<Id, V>, owner: V -> UserId, id: Id, user: UserId): map<Id, V> {
    if id in t && MaySee(user, owner(t[id])) then t - {id} else t
  }

  const EnvOwner: Env -> UserId := (e: Env) => e.user
  const SnapshotOwner: Snapshot -> UserId := (s: Snapshot) => s.user
  const SkillOwner: SkillRecord -> UserId := (r: SkillRecord) => r.skill.user

  // ---- Environments --------------------------------------------------------------

  predicate UpdateFindsEnv(t: map<Id, Env>, e: Env) { e.id in t && t[e.id].user == e.user }

  /** Memory `Update` replaces the whole record of the same owner. */
  function UpdateEnv(t: map<Id, Env>, e: Env): map<Id, Env> {
    if UpdateFindsEnv(t, e) then t[e.id := e] else t
  }

  /** The reaper's test: `now.Sub(LastUsedAt) > idleTimeout || now.After(ExpiresAt)`. */
  predicate Expired(e: Env, now: int, idleTimeout: int) {
    && !e.status.Destroyed? && !e.status.Stopped?
    && (now - Nanos(e.lastUsedAt) > idleTimeout || now > Nanos(e.expiresAt))
  }

  function Nanos(t: Time): int { t.sec * 1_000_000_000 + t.nsec }

  function ExpiredEnvs(t: map<Id, Env>, now: int, idleTimeout: int): map<Id, Env> {
    map id | id in t && Expired(t[id], now, idleTimeout) :: t[id]
  }

  /** A whole reap pass with working deletes. */
  function Reaped(t: map<Id, Env>, now: int, idleTimeout: int): map<Id, Env> {
    map id | id in t && !Expired(t[id], now, idleTimeout) :: t[id]
  }

  // ---- Skills ---------------------------------------------------------------------

  predicate SameSkill(r: SkillRecord, user: UserId, name: string) {
    r.skill.user == user && r.skill.name == name
  }

  /** The key is the skill's ID, a user has one skill per name, and the size is the archive's. */
  ghost predicate SkillsOk(t: map<Id, SkillRecord>) {
    && (forall k :: k in t ==> t[k].skill.id == k && t[k].skill.sizeBytes == |t[k].archive|)
    && forall k, k' :: k in t && k' in t && SameSkill(t[k], t[k'].skill.user, t[k'].skill.name) ==> k == k'
  }

  /** Where the (user, name) pair lives. */
  ghost function SkillKey(t: map<Id, SkillRecord>, user: UserId, name: string): (r: Option<Id>)
    ensures r.Some? ==> r.value in t && SameSkill(t[r.value], user, name)
    ensures r.None? ==> forall k :: k in t ==> !SameSkill(t[k], user, name)
  {
    if k :| k in t && SameSkill(t[k], user, name) then Some(k) else None
  }

  /** What a replaced record becomes: ID, tenant and creation time stay. */
  function Replaced(r: SkillRecord, s: Skill, archive: Bytes): SkillRecord {
    SkillRecord(r.skill.(sizeBytes := s.sizeBytes, updatedAt := s.updatedAt), archive)
  }

  ghost function Upserted(t: map<Id, SkillRecord>, s: Skill, archive: Bytes): map<Id, SkillRecord> {
    match SkillKey(t, s.user, s.name)
    case Some(k) => t[k := Replaced(t[k], s, archive)]
    case None => t[s.id := SkillRecord(s, archive)]
  }

  /** What the caller's skill becomes: it takes over the persisted identity. */
  ghost function Persisted(t: map<Id, SkillRecord>, s: Skill): Skill {
    match SkillKey(t, s.user, s.name)
    case Some(k) => s.(id := t[k].skill.id, createdAt := t[k].skill.createdAt)
    case None => s
  }

  lemma UpsertKeepsSkills(t: map<Id, SkillRecord>, s: Skill, archive: Bytes)
    requires SkillsOk(t) && s.sizeBytes == |archive| && s.id !in t
    ensures SkillsOk(Upserted(t, s, archive))
    ensures Persisted(t, s).id in Upserted(t, s, archive)
    ensures Upserted(t, s, archive)[Persisted(t, s).id].archive == archive
  {
  }
}
