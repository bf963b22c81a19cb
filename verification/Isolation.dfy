/** Users do not interfere: erase everything that other users did, and what one user is
    told and what they own stay the same. Reap passes are kept, for they serve everybody. */
module Isolation {
  import opened Domain
  import opened Entities

  /** One store call made on behalf of a user. */
  datatype Call =
    | CreateEnv(env: Env)
    | GetEnv(id: Id)
    | Update(env: Env)
    | DeleteEnv(id: Id)
    | ListEnvs
    | CreateSnapshot(snapshot: Snapshot)
    | GetSnapshot(id: Id)
    | ListSnapshots
    | DeleteSnapshot(id: Id)
    | UpsertSkill(skill: Skill, archive: Bytes)
    | GetSkill(id: Id)
    | GetSkillArchive(id: Id)
    | ListSkills
    | DeleteSkill(id: Id)

  datatype Reply =
    | Done
    | NotFound
    | OneEnv(env: Env)
    | Envs(envs: map<Id, Env>)
    | OneSnapshot(snapshot: Snapshot)
    | Snapshots(snapshots: map<Id, Snapshot>)
    | OneSkill(skill: Skill)
    | Archive(bytes: Bytes)
    | Skills(skills: map<Id, Skill>)

  datatype Event = By(user: UserId, call: Call) | Reap(now: int)

  function Found<V>(r: Option<V>, f: V -> Reply): Reply {
    match r
    case None => NotFound
    case Some(v) => f(v)
  }

  ghost function Next(c: Content, u: UserId, call: Call): Content {
    match call
    case CreateEnv(e) => c.(envs := c.envs[e.id := e])
    case Update(e) => c.(envs := UpdateEnv(c.envs, e))
    case DeleteEnv(id) => c.(envs := Remove(c.envs, EnvOwner, id, u))
    case CreateSnapshot(s) => c.(snapshots := c.snapshots[s.id := s])
    case DeleteSnapshot(id) => c.(snapshots := Remove(c.snapshots, SnapshotOwner, id, u))
    case UpsertSkill(s, a) => c.(skills := Upserted(c.skills, s, a))
    case DeleteSkill(id) => c.(skills := Remove(c.skills, SkillOwner, id, u))
    case _ => c
  }

  ghost function ReplyTo(c: Content, u: UserId, call: Call): Reply {
    match call
    case CreateEnv(_) => Done
    case GetEnv(id) => Found(Lookup(c.envs, EnvOwner, id, u), (e: Env) => OneEnv(e))
    case Update(e) => if UpdateFindsEnv(c.envs, e) then Done else NotFound
    case DeleteEnv(id) => Found(Lookup(c.envs, EnvOwner, id, u), (e: Env) => Done)
    case ListEnvs => Envs(Visible(c.envs, EnvOwner, u))
    case CreateSnapshot(_) => Done
    case GetSnapshot(id) => Found(Lookup(c.snapshots, SnapshotOwner, id, u), (s: Snapshot) => OneSnapshot(s))
    case ListSnapshots => Snapshots(Visible(c.snapshots, SnapshotOwner, u))
    case DeleteSnapshot(id) => Found(Lookup(c.snapshots, SnapshotOwner, id, u), (s: Snapshot) => Done)
    case UpsertSkill(s, _) => OneSkill(Persisted(c.skills, s))
    case GetSkill(id) => Found(Lookup(c.skills, SkillOwner, id, u), (r: SkillRecord) => OneSkill(r.skill))
    case GetSkillArchive(id) => Found(Lookup(c.skills, SkillOwner, id, u), (r: SkillRecord) => Archive(r.archive))
    case ListSkills => Skills(map id | id in Visible(c.skills, SkillOwner, u) :: c.skills[id].skill)
    case DeleteSkill(id) => Found(Lookup(c.skills, SkillOwner, id, u), (r: SkillRecord) => Done)
  }

  ghost function After(c: Content, idle: int, ev: Event): Content {
    match ev
    case By(u, call) => Next(c, u, call)
    case Reap(now) => c.(envs := Reaped(c.envs, now, idle))
  }

  /** What the services guarantee: records carry their caller's user, and a new ID is not
      one that somebody else already owns. */
  ghost predicate Proper(c: Content, ev: Event) {
    ev.By? ==>
      && !ev.user.Anyone?
      && match ev.call
         case CreateEnv(e) => e.user == ev.user && (e.id in c.envs ==> c.envs[e.id].user == ev.user)
         case Update(e) => e.user == ev.user
         case CreateSnapshot(s) => s.user == ev.user && (s.id in c.snapshots ==> c.snapshots[s.id].user == ev.user)
         case UpsertSkill(s, a) => s.user == ev.user && s.id !in c.skills && s.sizeBytes == |a|
         case _ => true
  }

  ghost predicate ProperRun(c: Content, idle: int, evs: seq<Event>)
    decreases |evs|
  {
    evs == [] || (Proper(c, evs[0]) && ProperRun(After(c, idle, evs[0]), idle, evs[1..]))
  }

  ghost function Final(c: Content, idle: int, evs: seq<Event>): Content
    decreases |evs|
  {
    if evs == [] then c else Final(After(c, idle, evs[0]), idle, evs[1..])
  }

  /** The replies that user `u` received, in order. */
  ghost function Replies(c: Content, idle: int, evs: seq<Event>, u: UserId): seq<Reply>
    decreases |evs|
  {
    if evs == [] then []
    else
      (if evs[0].By? && evs[0].user == u then [ReplyTo(c, u, evs[0].call)] else [])
      + Replies(After(c, idle, evs[0]), idle, evs[1..], u)
  }

  // ---- Erasing the others --------------------------------------------------------

  function Own(c: Content, u: UserId): Content {
    Content(Visible(c.envs, EnvOwner, u), Visible(c.snapshots, SnapshotOwner, u), Visible(c.skills, SkillOwner, u))
  }

  function Purge(evs: seq<Event>, u: UserId): seq<Event> {
    if evs == [] then []
    else if evs[0].By? && evs[0].user != u then Purge(evs[1..], u)
    else [evs[0]] + Purge(evs[1..], u)
  }

  lemma OwnKey(t: map<Id, SkillRecord>, u: UserId, name: string)
    requires SkillsOk(t) && !u.Anyone?
    ensures SkillKey(Visible(t, SkillOwner, u), u, name) == SkillKey(t, u, name)
  {
    var v := Visible(t, SkillOwner, u);
    var k, k' := SkillKey(t, u, name), SkillKey(v, u, name);
    if k.Some? { assert k.value in v && SameSkill(v[k.value], u, name); }
    if k'.Some? { assert k'.value in t && SameSkill(t[k'.value], u, name); }
  }

  lemma SkillsStayOk(c: Content, idle: int, ev: Event)
    requires SkillsOk(c.skills) && Proper(c, ev)
    ensures SkillsOk(After(c, idle, ev).skills)
  {
    if ev.By? && ev.call.UpsertSkill? {
      UpsertKeepsSkills(c.skills, ev.call.skill, ev.call.archive);
    }
  }

  lemma VisibleCalls<V>(t: map<Id, V>, owner: V -> UserId, u: UserId, id: Id)
    ensures Visible(Remove(t, owner, id, u), owner, u) == Remove(Visible(t, owner, u), owner, id, u)
    ensures Lookup(t, owner, id, u) == Lookup(Visible(t, owner, u), owner, id, u)
  {
  }

  lemma VisibleList<V>(t: map<Id, V>, owner: V -> UserId, u: UserId)
    ensures Visible(Visible(t, owner, u), owner, u) == Visible(t, owner, u)
  {
  }

  lemma VisiblePut<V>(t: map<Id, V>, owner: V -> UserId, u: UserId, id: Id, v: V)
    requires owner(v) == u
    ensures Visible(t[id := v], owner, u) == Visible(t, owner, u)[id := v]
  {
  }

  lemma OwnEnvStep(c: Content, u: UserId, call: Call)
    requires Proper(c, By(u, call))
    requires call.CreateEnv? || call.GetEnv? || call.Update? || call.DeleteEnv? || call.ListEnvs?
    ensures Own(Next(c, u, call), u) == Next(Own(c, u), u, call)
    ensures ReplyTo(c, u, call) == ReplyTo(Own(c, u), u, call)
  {
    match call
    case CreateEnv(e) => VisiblePut(c.envs, EnvOwner, u, e.id, e);
    case Update(e) => VisiblePut(c.envs, EnvOwner, u, e.id, e);
    case ListEnvs => VisibleList(c.envs, EnvOwner, u);
    case GetEnv(id) => VisibleCalls(c.envs, EnvOwner, u, id);
    case DeleteEnv(id) => VisibleCalls(c.envs, EnvOwner, u, id);
  }

  lemma OwnSnapshotStep(c: Content, u: UserId, call: Call)
    requires Proper(c, By(u, call))
    requires call.CreateSnapshot? || call.GetSnapshot? || call.DeleteSnapshot? || call.ListSnapshots?
    ensures Own(Next(c, u, call), u) == Next(Own(c, u), u, call)
    ensures ReplyTo(c, u, call) == ReplyTo(Own(c, u), u, call)
  {
    match call
    case CreateSnapshot(s) => VisiblePut(c.snapshots, SnapshotOwner, u, s.id, s);
    case ListSnapshots => VisibleList(c.snapshots, SnapshotOwner, u);
    case GetSnapshot(id) => VisibleCalls(c.snapshots, SnapshotOwner, u, id);
    case DeleteSnapshot(id) => VisibleCalls(c.snapshots, SnapshotOwner, u, id);
  }

  lemma OwnSkillStep(c: Content, u: UserId, call: Call)
    requires SkillsOk(c.skills) && Proper(c, By(u, call))
    requires call.UpsertSkill? || call.GetSkill? || call.GetSkillArchive? || call.DeleteSkill? || call.ListSkills?
    ensures Own(Next(c, u, call), u) == Next(Own(c, u), u, call)
    ensures ReplyTo(c, u, call) == ReplyTo(Own(c, u), u, call)
  {
    match call
    case UpsertSkill(s, a) => OwnUpsert(c.skills, u, s, a);
    case ListSkills => VisibleList(c.skills, SkillOwner, u);
    case GetSkill(id) => VisibleCalls(c.skills, SkillOwner, u, id);
    case GetSkillArchive(id) => VisibleCalls(c.skills, SkillOwner, u, id);
    case DeleteSkill(id) => VisibleCalls(c.skills, SkillOwner, u, id);
  }

  lemma OwnUpsert(t: map<Id, SkillRecord>, u: UserId, s: Skill, a: Bytes)
    requires SkillsOk(t) && s.user == u && !u.Anyone?
    ensures Visible(Upserted(t, s, a), SkillOwner, u) == Upserted(Visible(t, SkillOwner, u), s, a)
    ensures Persisted(t, s) == Persisted(Visible(t, SkillOwner, u), s)
  {
    OwnKey(t, u, s.name);
    match SkillKey(t, u, s.name)
    case Some(k) => VisiblePut(t, SkillOwner, u, k, Replaced(t[k], s, a));
    case None => VisiblePut(t, SkillOwner, u, s.id, SkillRecord(s, a));
  }

  /** What `u` does looks the same with the others erased. */
  lemma OwnStep(c: Content, u: UserId, call: Call)
    requires SkillsOk(c.skills) && Proper(c, By(u, call))
    ensures Own(Next(c, u, call), u) == Next(Own(c, u), u, call)
    ensures ReplyTo(c, u, call) == ReplyTo(Own(c, u), u, call)
  {
    match call
    case CreateEnv(_) => OwnEnvStep(c, u, call);
    case GetEnv(_) => OwnEnvStep(c, u, call);
    case Update(_) => OwnEnvStep(c, u, call);
    case DeleteEnv(_) => OwnEnvStep(c, u, call);
    case ListEnvs => OwnEnvStep(c, u, call);
    case CreateSnapshot(_) => OwnSnapshotStep(c, u, call);
    case GetSnapshot(_) => OwnSnapshotStep(c, u, call);
    case DeleteSnapshot(_) => OwnSnapshotStep(c, u, call);
    case ListSnapshots => OwnSnapshotStep(c, u, call);
    case _ => OwnSkillStep(c, u, call);
  }

  /** What somebody else does leaves `u`'s part alone. */
  lemma {:induction false} OthersStep(c: Content, u: UserId, v: UserId, call: Call)
    requires Proper(c, By(v, call)) && !u.Anyone? && v != u
    ensures Own(Next(c, v, call), u) == Own(c, u)
  {
    OthersEnvs(c, u, v, call);
    OthersSnapshots(c, u, v, call);
    OthersSkills(c, u, v, call);
  }

  lemma OthersEnvs(c: Content, u: UserId, v: UserId, call: Call)
    requires Proper(c, By(v, call)) && !u.Anyone? && v != u
    ensures Own(Next(c, v, call), u).envs == Own(c, u).envs
  {
  }

  lemma OthersSnapshots(c: Content, u: UserId, v: UserId, call: Call)
    requires Proper(c, By(v, call)) && !u.Anyone? && v != u
    ensures Own(Next(c, v, call), u).snapshots == Own(c, u).snapshots
  {
  }

  lemma OthersSkills(c: Content, u: UserId, v: UserId, call: Call)
    requires Proper(c, By(v, call)) && !u.Anyone? && v != u
    ensures Own(Next(c, v, call), u).skills == Own(c, u).skills
  {
  }

  /** A reap pass commutes with looking only at `u`'s records. */
  lemma ReapStep(t: map<Id, Env>, u: UserId, now: int, idle: int)
    ensures Visible(Reaped(t, now, idle), EnvOwner, u) == Reaped(Visible(t, EnvOwner, u), now, idle)
  {
  }

  lemma {:induction false} PurgeTheorem(c: Content, idle: int, evs: seq<Event>, u: UserId)
    requires SkillsOk(c.skills) && ProperRun(c, idle, evs) && !u.Anyone?
    ensures Replies(c, idle, evs, u) == Replies(Own(c, u), idle, Purge(evs, u), u)
    ensures Own(Final(c, idle, evs), u) == Final(Own(c, u), idle, Purge(evs, u))
    decreases |evs|
  {
    if evs != [] {
      var ev, next := evs[0], After(c, idle, evs[0]);
      SkillsStayOk(c, idle, ev);
      PurgeTheorem(next, idle, evs[1..], u);
      if ev.By? && ev.user != u {
        OthersStep(c, u, ev.user, ev.call);
      } else {
        if ev.By? { OwnStep(c, u, ev.call); } else { ReapStep(c.envs, u, ev.now, idle); }
        var purged := [ev] + Purge(evs[1..], u);
        assert purged[1..] == Purge(evs[1..], u);
        assert Purge(evs, u) == purged;
        assert After(Own(c, u), idle, ev) == Own(next, u);
      }
    }
  }

  // ---- What the theorem compares -----------------------------------------------------------

  lemma {:induction false} FinalSnoc(c: Content, idle: int, evs: seq<Event>, ev: Event)
    ensures Final(c, idle, evs + [ev]) == After(Final(c, idle, evs), idle, ev)
    decreases |evs|
  {
    if evs == [] {
      assert evs + [ev] == [ev] && [ev][1..] == [];
    } else {
      assert (evs + [ev])[1..] == evs[1..] + [ev];
      FinalSnoc(After(c, idle, evs[0]), idle, evs[1..], ev);
    }
  }

  /** The user's replies are the answers to the user's calls in the states they were made in. */
  lemma {:induction false} RepliesSnoc(c: Content, idle: int, evs: seq<Event>, ev: Event, u: UserId)
    ensures Replies(c, idle, evs + [ev], u) ==
            Replies(c, idle, evs, u) + if ev.By? && ev.user == u then [ReplyTo(Final(c, idle, evs), u, ev.call)] else []
    decreases |evs|
  {
    if evs == [] {
      assert evs + [ev] == [ev] && [ev][1..] == [];
    } else {
      assert (evs + [ev])[1..] == evs[1..] + [ev];
      RepliesSnoc(After(c, idle, evs[0]), idle, evs[1..], ev, u);
    }
  }

  /** Purging drops exactly the calls of others. */
  lemma {:induction false} PurgeSnoc(evs: seq<Event>, ev: Event, u: UserId)
    ensures Purge(evs + [ev], u) == Purge(evs, u) + if ev.By? && ev.user != u then [] else [ev]
    decreases |evs|
  {
    if evs == [] {
      assert evs + [ev] == [ev] && [ev][1..] == [];
    } else {
      assert (evs + [ev])[1..] == evs[1..] + [ev];
      PurgeSnoc(evs[1..], ev, u);
    }
  }

  /** After a reap pass an expired record answers to nobody, and every other as before. */
  lemma ReapShows(c: Content, idle: int, now: int, id: Id, u: UserId)
    ensures ReplyTo(After(c, idle, Reap(now)), u, GetEnv(id)) ==
            if id in c.envs && Expired(c.envs[id], now, idle) then NotFound else ReplyTo(c, u, GetEnv(id))
    ensures var after := After(c, idle, Reap(now)); after.snapshots == c.snapshots && after.skills == c.skills
  {
  }
}
