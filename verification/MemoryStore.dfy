/** The memory store as it is built: mutex-guarded maps from IDs to pointers. Each method
    is tied to the value-level call of `Entities`, so what is proved there holds here. */
module MemoryStore {
  import opened Domain
  import opened Entities

  /** A `*domain.Environment`. */
  class EnvObject {
    var e: Env

    constructor (e: Env)
      ensures this.e == e
    {
      this.e := e;
    }
  }

  /** A `*skillRecord`. */
  class SkillObject {
    var r: SkillRecord

    constructor (r: SkillRecord)
      ensures this.r == r
    {
      this.r := r;
    }
  }

  /** The caller's `*domain.Skill`, which `UpsertSkill` writes the persisted identity to. */
  class SkillArgument {
    var s: Skill

    constructor (s: Skill)
      ensures this.s == s
    {
      this.s := s;
    }
  }

  class MemoryStore {
    var envs: map<Id, EnvObject>
    var snapshots: map<Id, Snapshot>
    var skills: map<Id, SkillObject>
    const idleTimeout: int

    ghost function EnvView(): map<Id, Env>
      reads this`envs, envs.Values
    {
      map id | id in envs :: envs[id].e
    }

    ghost function SkillView(): map<Id, SkillRecord>
      reads this`skills, skills.Values
    {
      map id | id in skills :: skills[id].r
    }

    /** Records sit under their own ID. */
    ghost predicate EnvsValid()
      reads this`envs, envs.Values
    {
      forall id :: id in envs ==> envs[id].e.id == id
    }

    /** No two skill records share an object. */
    ghost predicate SkillsValid()
      reads this`skills, skills.Values
    {
      && SkillsOk(SkillView())
      && forall k, k' :: k in skills && k' in skills && skills[k] == skills[k'] ==> k == k'
    }

    ghost predicate Valid()
      reads this, envs.Values, skills.Values
    {
      EnvsValid() && SkillsValid()
    }

    constructor (idleTimeout: int)
      ensures Valid() && EnvView() == map[] && SkillView() == map[] && snapshots == map[]
      ensures this.idleTimeout == idleTimeout
    {
      envs, snapshots, skills := map[], map[], map[];
      this.idleTimeout := idleTimeout;
    }

    method Create(env: EnvObject)
      requires EnvsValid()
      modifies this`envs
      ensures EnvsValid() && envs == old(envs)[env.e.id := env]
      ensures EnvView() == old(EnvView())[env.e.id := env.e]
    {
      envs := envs[env.e.id := env];
    }

    /** Returns the stored pointer itself, not a copy. */
    method Get(id: Id, user: UserId) returns (r: EnvObject?)
      requires EnvsValid()
      ensures (r == null) == Lookup(EnvView(), EnvOwner, id, user).None?
      ensures r != null ==> id in envs && r == envs[id] && Lookup(EnvView(), EnvOwner, id, user) == Some(r.e)
    {
      if id !in envs {
        return null;
      }
      var env := envs[id];
      if !user.Anyone? && env.e.user != user {
        return null;
      }
      return env;
    }

    method Update(env: EnvObject) returns (ok: bool)
      requires EnvsValid()
      modifies this`envs
      ensures EnvsValid() && ok == UpdateFindsEnv(old(EnvView()), env.e)
      ensures EnvView() == UpdateEnv(old(EnvView()), env.e)
      ensures envs == if ok then old(envs)[env.e.id := env] else old(envs)
    {
      if env.e.id !in envs {
        return false;
      }
      if envs[env.e.id].e.user != env.e.user {
        return false;
      }
      envs := envs[env.e.id := env];
      return true;
    }

    method Delete(id: Id, user: UserId) returns (ok: bool)
      requires EnvsValid()
      modifies this`envs
      ensures EnvsValid() && ok == Lookup(old(EnvView()), EnvOwner, id, user).Some?
      ensures EnvView() == Remove(old(EnvView()), EnvOwner, id, user)
      ensures envs == if ok then old(envs) - {id} else old(envs)
    {
      if id !in envs {
        return false;
      }
      if !user.Anyone? && envs[id].e.user != user {
        return false;
      }
      envs := envs - {id};
      return true;
    }

    /** `updateLastUsed` on a pointer that was read earlier. While the record exists the write
        through the shared pointer is already the store's new content, and `Update` changes
        nothing more; a record that has gone since does not come back. */
    method UpdateLastUsed(env: EnvObject, now: Time)
      requires EnvsValid() && (env.e.id in envs ==> envs[env.e.id] == env)
      modifies this`envs, env
      ensures EnvsValid() && envs == old(envs) && env.e == old(env.e).(lastUsedAt := now)
      ensures EnvView() == if env.e.id in old(envs) then old(EnvView())[env.e.id := env.e] else old(EnvView())
    {
      ghost var before := EnvView();
      env.e := env.e.(lastUsedAt := now);
      assert EnvView() == if env.e.id in envs then before[env.e.id := env.e] else before;
      var _ := Update(env);
    }

    /** A listing of some records: the pointers, each once, in whatever order Go's map
        iteration takes. */
    ghost predicate Lists(rs: seq<EnvObject>, of: map<Id, Env>)
      reads this, envs.Values
    {
      && (forall i, j :: 0 <= i < j < |rs| ==> rs[i] != rs[j])
      && (forall i :: 0 <= i < |rs| ==>
          rs[i] in envs.Values && rs[i].e.id in of && rs[i].e.id in envs && envs[rs[i].e.id] == rs[i])
      && (forall id :: id in of ==> id in envs && envs[id] in rs && of[id] == envs[id].e)
    }

    method List(user: UserId) returns (rs: seq<EnvObject>)
      requires EnvsValid()
      ensures Lists(rs, Visible(EnvView(), EnvOwner, user))
    {
      rs := [];
      var todo := envs.Keys;
      while todo != {}
        invariant todo <= envs.Keys
        invariant forall i, j :: 0 <= i < j < |rs| ==> rs[i] != rs[j]
        invariant forall i :: 0 <= i < |rs| ==>
          && rs[i].e.id in envs && rs[i].e.id !in todo && envs[rs[i].e.id] == rs[i] && MaySee(user, rs[i].e.user)
        invariant forall id :: id in envs && id !in todo && MaySee(user, envs[id].e.user) ==> envs[id] in rs
        decreases todo
      {
        var id :| id in todo;
        todo := todo - {id};
        if !(!user.Anyone? && envs[id].e.user != user) {
          rs := rs + [envs[id]];
        }
      }
    }

    method ListExpired(now: int) returns (rs: seq<EnvObject>)
      requires EnvsValid()
      ensures Lists(rs, ExpiredEnvs(EnvView(), now, idleTimeout))
    {
      rs := [];
      var todo := envs.Keys;
      while todo != {}
        invariant todo <= envs.Keys
        invariant forall i, j :: 0 <= i < j < |rs| ==> rs[i] != rs[j]
        invariant forall i :: 0 <= i < |rs| ==>
          && rs[i].e.id in envs && rs[i].e.id !in todo && envs[rs[i].e.id] == rs[i]
          && Expired(rs[i].e, now, idleTimeout)
        invariant forall id :: id in envs && id !in todo && Expired(envs[id].e, now, idleTimeout) ==> envs[id] in rs
        decreases todo
      {
        var id :| id in todo;
        todo := todo - {id};
        var e := envs[id].e;
        if !e.status.Destroyed? && !e.status.Stopped? {
          var idleExpired := now - Nanos(e.lastUsedAt) > idleTimeout;
          var lifetimeExpired := now > Nanos(e.expiresAt);
          if idleExpired || lifetimeExpired {
            rs := rs + [envs[id]];
          }
        }
      }
    }

    // ---- Snapshots --------------------------------------------------------------

    method CreateSnapshot(s: Snapshot)
      modifies this`snapshots
      ensures snapshots == old(snapshots)[s.id := s]
    {
      snapshots := snapshots[s.id := s];
    }

    method GetSnapshot(id: Id, user: UserId) returns (r: Option<Snapshot>)
      ensures r == Lookup(snapshots, SnapshotOwner, id, user)
    {
      if id !in snapshots {
        return None;
      }
      if !user.Anyone? && snapshots[id].user != user {
        return None;
      }
      return Some(snapshots[id]);
    }

    method DeleteSnapshot(id: Id, user: UserId) returns (ok: bool)
      modifies this`snapshots
      ensures ok == Lookup(old(snapshots), SnapshotOwner, id, user).Some?
      ensures snapshots == Remove(old(snapshots), SnapshotOwner, id, user)
    {
      if id !in snapshots {
        return false;
      }
      if !user.Anyone? && snapshots[id].user != user {
        return false;
      }
      snapshots := snapshots - {id};
      return true;
    }

    method ListSnapshots(user: UserId) returns (r: map<Id, Snapshot>)
      ensures r == Visible(snapshots, SnapshotOwner, user)
    {
      r := map[];
      var todo := snapshots.Keys;
      while todo != {}
        invariant todo <= snapshots.Keys
        invariant forall id :: id in r <==> id in snapshots && id !in todo && MaySee(user, snapshots[id].user)
        invariant forall id :: id in r ==> r[id] == snapshots[id]
        decreases todo
      {
        var id :| id in todo;
        todo := todo - {id};
        if user.Anyone? || snapshots[id].user == user {
          r := r[id := snapshots[id]];
        }
      }
    }

    // ---- Skills -----------------------------------------------------------------

    /** The search loop of `UpsertSkill`. */
    method FindSkill(user: UserId, name: string) returns (r: Option<Id>)
      requires SkillsValid()
      ensures r == SkillKey(SkillView(), user, name)
    {
      var todo := skills.Keys;
      while todo != {}
        invariant todo <= skills.Keys
        invariant forall k :: k in skills && k !in todo ==> !SameSkill(skills[k].r, user, name)
        decreases todo
      {
        var k :| k in todo;
        todo := todo - {k};
        if skills[k].r.skill.user == user && skills[k].r.skill.name == name {
          assert SameSkill(SkillView()[k], user, name);
          return Some(k);
        }
      }
      return None;
    }

    /** Replaces the archive of the (user, name) pair in place, or adds a new record, and
        reflects the persisted ID and creation time back into the caller's struct. */
    method UpsertSkill(skill: SkillArgument, archive: Bytes)
      requires SkillsValid() && skill.s.id !in skills && skill.s.sizeBytes == |archive|
      modifies this`skills, skills.Values, skill
      ensures SkillsValid() && envs == old(envs)
      ensures SkillView() == Upserted(old(SkillView()), old(skill.s), archive)
      ensures skill.s == Persisted(old(SkillView()), old(skill.s))
    {
      UpsertKeepsSkills(SkillView(), skill.s, archive);
      var found := FindSkill(skill.s.user, skill.s.name);
      match found
      case Some(k) =>
        skill.s := ReplaceSkill(k, skill.s, archive);
      case None =>
        InsertSkill(skill.s, archive);
    }

    method InsertSkill(s: Skill, archive: Bytes)
      requires SkillsValid() && s.id !in skills
      modifies this`skills
      ensures SkillView() == old(SkillView())[s.id := SkillRecord(s, archive)]
      ensures forall k, k' :: k in skills && k' in skills && skills[k] == skills[k'] ==> k == k'
    {
      var stored := new SkillObject(SkillRecord(s, archive));
      skills := skills[s.id := stored];
    }

    method ReplaceSkill(k: Id, s: Skill, archive: Bytes) returns (reflected: Skill)
      requires SkillsValid() && k in skills
      modifies skills[k]
      ensures SkillView() == old(SkillView())[k := Replaced(old(SkillView()[k]), s, archive)]
      ensures reflected == s.(id := k, createdAt := old(SkillView()[k]).skill.createdAt)
    {
      var rec := skills[k];
      rec.r := SkillRecord(rec.r.skill.(sizeBytes := s.sizeBytes, updatedAt := s.updatedAt), archive);
      return s.(id := rec.r.skill.id, createdAt := rec.r.skill.createdAt);
    }

    /** The IDs of the user's skills, each once, in whatever order Go's map iteration takes. */
    method ListSkills(user: UserId) returns (ids: seq<Id>)
      requires SkillsValid()
      ensures forall i, j :: 0 <= i < j < |ids| ==> ids[i] != ids[j]
      ensures forall id :: id in ids <==> id in Visible(SkillView(), SkillOwner, user)
    {
      ids := [];
      var todo := skills.Keys;
      while todo != {}
        invariant todo <= skills.Keys
        invariant forall i, j :: 0 <= i < j < |ids| ==> ids[i] != ids[j]
        invariant forall id :: id in ids <==> id in skills && id !in todo && MaySee(user, skills[id].r.skill.user)
        decreases todo
      {
        var id :| id in todo;
        todo := todo - {id};
        if user.Anyone? || skills[id].r.skill.user == user {
          ids := ids + [id];
        }
      }
    }

    method GetSkill(id: Id, user: UserId) returns (r: Option<Skill>)
      requires SkillsValid()
      ensures r == match Lookup(SkillView(), SkillOwner, id, user)
                   case Some(rec) => Some(rec.skill)
                   case None => None
    {
      if id !in skills {
        return None;
      }
      if !user.Anyone? && skills[id].r.skill.user != user {
        return None;
      }
      return Some(skills[id].r.skill);
    }

    method SkillName(id: Id) returns (name: string)
      requires id in skills
      ensures name == SkillView()[id].skill.name
    {
      name := skills[id].r.skill.name;
    }

    method DeleteSkill(id: Id, user: UserId) returns (ok: bool)
      requires SkillsValid()
      modifies this`skills
      ensures SkillsValid() && ok == Lookup(old(SkillView()), SkillOwner, id, user).Some?
      ensures SkillView() == Remove(old(SkillView()), SkillOwner, id, user)
    {
      if id !in skills {
        return false;
      }
      if !user.Anyone? && skills[id].r.skill.user != user {
        return false;
      }
      skills := skills - {id};
      assert SkillView() == old(SkillView()) - {id};
      return true;
    }

    method GetSkillArchive(id: Id, user: UserId) returns (r: Option<Bytes>)
      requires SkillsValid()
      ensures r == match Lookup(SkillView(), SkillOwner, id, user)
                   case Some(rec) => Some(rec.archive)
                   case None => None
    {
      if id !in skills {
        return None;
      }
      if !user.Anyone? && skills[id].r.skill.user != user {
        return None;
      }
      return Some(skills[id].r.archive);
    }
  }
}
