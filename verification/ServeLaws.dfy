/** What the services answer after what they did, stated on responses alone and for either
    store: a request that reports success shows in every later answer about its record and
    in no answer about any other. */
module ServeLaws {
  import opened Domain
  import opened Entities
  import opened SqlStore

  // ---- Asking ---------------------------------------------------------------------------

  ghost function ShownEnv(b: Backend, id: Id, u: UserId): Response { Serve(b, Show(id, u)).1 }
  ghost function ShownSnapshot(b: Backend, id: Id, u: UserId): Response { Serve(b, ShowSnapshot(id, u)).1 }
  ghost function ShownSkill(b: Backend, id: Id, u: UserId): Response { Serve(b, ShowSkill(id, u)).1 }

  ghost predicate SameEnvsBut(b: Backend, after: Backend, but: Option<Id>) {
    forall id: Id, u :: but != Some(id) ==> ShownEnv(after, id, u) == ShownEnv(b, id, u)
  }
  ghost predicate SameSnapshotsBut(b: Backend, after: Backend, but: Option<Id>) {
    forall id: Id, u :: but != Some(id) ==> ShownSnapshot(after, id, u) == ShownSnapshot(b, id, u)
  }
  ghost predicate SameSkillsBut(b: Backend, after: Backend, but: Option<Id>) {
    forall id: Id, u :: but != Some(id) ==> ShownSkill(after, id, u) == ShownSkill(b, id, u)
  }

  /** Records sit under their own IDs, and a user has one skill per name. */
  ghost predicate Tidy(b: Backend) {
    match b
    case Mem(c) => (forall id :: id in c.envs ==> c.envs[id].id == id) && SkillsOk(c.skills)
    case Sql(t) => forall k, k' :: k in t.skills && k' in t.skills && SameRow(t.skills[k], t.skills[k']) ==> k == k'
  }

  /** Rows that the UNIQUE constraint keeps apart. */
  predicate SameRow(r: SkillRow, q: SkillRow) { r.user == q.user && r.name == q.name }

  /** Two records that differ at most in the fractions of their times. */
  ghost predicate Alike(e: Env, f: Env) { Truncate(e) == Truncate(f) }

  // ---- What tables say about answers ---------------------------------------------------------

  ghost predicate Kept<V>(t: map<Id, V>, after: map<Id, V>, but: Option<Id>) {
    forall id: Id :: but != Some(id) ==> (id in t <==> id in after) && (id in t ==> after[id] == t[id])
  }

  ghost predicate KeepsEnvs(b: Backend, after: Backend, but: Option<Id>) {
    if b.Mem? then after.Mem? && Kept(b.c.envs, after.c.envs, but) else after.Sql? && Kept(b.t.envs, after.t.envs, but)
  }
  ghost predicate KeepsSnapshots(b: Backend, after: Backend, but: Option<Id>) {
    if b.Mem? then after.Mem? && Kept(b.c.snapshots, after.c.snapshots, but)
    else after.Sql? && Kept(b.t.snapshots, after.t.snapshots, but)
  }
  ghost predicate KeepsSkills(b: Backend, after: Backend, but: Option<Id>) {
    if b.Mem? then after.Mem? && Kept(b.c.skills, after.c.skills, but) else after.Sql? && Kept(b.t.skills, after.t.skills, but)
  }

  lemma EnvsKept(b: Backend, after: Backend, but: Option<Id>)
    requires KeepsEnvs(b, after, but)
    ensures SameEnvsBut(b, after, but)
  {
  }

  lemma SnapshotsKept(b: Backend, after: Backend, but: Option<Id>)
    requires KeepsSnapshots(b, after, but)
    ensures SameSnapshotsBut(b, after, but)
  {
  }

  lemma SkillsKept(b: Backend, after: Backend, but: Option<Id>)
    requires KeepsSkills(b, after, but)
    ensures SameSkillsBut(b, after, but)
  {
  }

  lemma AllKept(b: Backend, after: Backend, env: Option<Id>, snapshot: Option<Id>, skill: Option<Id>)
    requires KeepsEnvs(b, after, env) && KeepsSnapshots(b, after, snapshot) && KeepsSkills(b, after, skill)
    ensures SameEnvsBut(b, after, env) && SameSnapshotsBut(b, after, snapshot) && SameSkillsBut(b, after, skill)
  {
    EnvsKept(b, after, env);
    SnapshotsKept(b, after, snapshot);
    SkillsKept(b, after, skill);
  }

  // ---- Listings --------------------------------------------------------------------------

  /** A listing has exactly the records that asking one by one would show. */
  lemma EnvListings(b: Backend, u: UserId)
    ensures Serve(b, ShowAll(u)).1.ManyEnvs? && Serve(b, ShowTenant(u)).1.ManyEnvs?
    ensures var l := Serve(b, ShowAll(u)).1.envs;
            forall id :: (id in l <==> ShownEnv(b, id, u).OneEnv?) && (id in l ==> ShownEnv(b, id, u) == OneEnv(l[id]))
    ensures var l := Serve(b, ShowTenant(u)).1.envs;
            forall id :: (id in l <==> ShownEnv(b, id, Anyone).OneEnv? && ShownEnv(b, id, Anyone).env.tenant == u)
                      && (id in l ==> ShownEnv(b, id, Anyone) == OneEnv(l[id]))
  {
  }

  lemma SnapshotListings(b: Backend, u: UserId)
    ensures Serve(b, ShowSnapshots(u)).1.ManySnapshots? && Serve(b, ShowTenantSnapshots(u)).1.ManySnapshots?
    ensures var l := Serve(b, ShowSnapshots(u)).1.snapshots;
            forall id :: (id in l <==> ShownSnapshot(b, id, u).OneSnapshot?) && (id in l ==> ShownSnapshot(b, id, u) == OneSnapshot(l[id]))
    ensures var l := Serve(b, ShowTenantSnapshots(u)).1.snapshots;
            forall id :: (id in l <==> ShownSnapshot(b, id, Anyone).OneSnapshot? && ShownSnapshot(b, id, Anyone).snapshot.tenant == u)
                      && (id in l ==> ShownSnapshot(b, id, Anyone) == OneSnapshot(l[id]))
  {
  }

  lemma SkillListings(b: Backend, u: UserId)
    ensures Serve(b, ShowSkills(u)).1.ManySkills? && Serve(b, ShowTenantSkills(u)).1.ManySkills?
    ensures var l := Serve(b, ShowSkills(u)).1.skills;
            forall id :: (id in l <==> ShownSkill(b, id, u).OneSkill?) && (id in l ==> ShownSkill(b, id, u).skill == l[id])
    ensures var l := Serve(b, ShowTenantSkills(u)).1.skills;
            forall id :: (id in l <==> ShownSkill(b, id, Anyone).OneSkill? && ShownSkill(b, id, Anyone).skill.tenant == u)
                      && (id in l ==> ShownSkill(b, id, Anyone).skill == l[id])
  {
  }

  /** A user sees exactly what is theirs, and the empty user sees everything. */
  lemma Ownership(b: Backend, id: Id, u: UserId)
    requires !u.Anyone?
    ensures ShownEnv(b, id, u) == if ShownEnv(b, id, Anyone).OneEnv? && ShownEnv(b, id, Anyone).env.user == u then ShownEnv(b, id, Anyone) else NotFound
    ensures ShownSnapshot(b, id, u) ==
            if ShownSnapshot(b, id, Anyone).OneSnapshot? && ShownSnapshot(b, id, Anyone).snapshot.user == u then ShownSnapshot(b, id, Anyone) else NotFound
    ensures ShownSkill(b, id, u) ==
            if ShownSkill(b, id, Anyone).OneSkill? && ShownSkill(b, id, Anyone).skill.user == u then ShownSkill(b, id, Anyone) else NotFound
  {
  }

  // ---- Environments -----------------------------------------------------------------------

  /** Destroying answers Done exactly for a record the user can see; then nobody sees it any
      more, and all else is as before. */
  lemma DestroyLaw(b: Backend, id: Id, u: UserId)
    ensures var (after, r) := Serve(b, Destroy(id, u));
            && r == (if ShownEnv(b, id, u).OneEnv? then Done else NotFound)
            && (r.NotFound? ==> after == b)
            && (r.Done? ==> forall v :: ShownEnv(after, id, v) == NotFound)
            && SameEnvsBut(b, after, Some(id)) && SameSnapshotsBut(b, after, None) && SameSkillsBut(b, after, None)
  {
    AllKept(b, Serve(b, Destroy(id, u)).0, Some(id), None, None);
  }

  /** A created environment answers to its owner, running in its container; a failed create
      leaves no trace. */
  lemma CreateLaw(b: Backend, e: Env, source: Option<Id>, made: Option<ContainerId>, started: bool)
    requires ShownEnv(b, e.id, Anyone) == NotFound && !e.user.Anyone?
    ensures var (after, r) := Serve(b, Create(e, source, made, started));
            && (r.NotFound? <==> source.Some? && ShownSnapshot(b, source.value, e.user) == NotFound)
            && (r.Failed? <==> !r.NotFound? && (made.None? || !started))
            && (r.NotFound? || r.Failed? ==> SameEnvsBut(b, after, None))
            && (!r.NotFound? && !r.Failed? ==>
                && r == OneEnv(e.(containerId := made.value, status := Running))
                && ShownEnv(after, e.id, e.user).OneEnv? && Alike(ShownEnv(after, e.id, e.user).env, r.env))
  {
    var (after, r) := Serve(b, Create(e, source, made, started));
    if r.NotFound? || r.Failed? { EnvsKept(b, after, None); }
  }

  lemma CreateFrame(b: Backend, e: Env, source: Option<Id>, made: Option<ContainerId>, started: bool)
    requires ShownEnv(b, e.id, Anyone) == NotFound && !e.user.Anyone?
    ensures var after := Serve(b, Create(e, source, made, started)).0;
            SameEnvsBut(b, after, Some(e.id)) && SameSnapshotsBut(b, after, None) && SameSkillsBut(b, after, None)
  {
    AllKept(b, Serve(b, Create(e, source, made, started)).0, Some(e.id), None, None);
  }

  /** A use that succeeds shows as the last-used time of that record and nowhere else. */
  lemma UseLaw(b: Backend, id: Id, u: UserId, now: Time, worked: bool)
    requires Tidy(b)
    ensures var (after, r) := Serve(b, Use(id, u, now, worked));
            var was := ShownEnv(b, id, u);
            && r == (if was.NotFound? then NotFound
                     else if was.OneEnv? && !was.env.status.Running? then NotRunning else if !worked then Failed else Done)
            && (!r.Done? ==> after == b)
            && (r.Done? ==> was.OneEnv? && ShownEnv(after, id, u).OneEnv? && Alike(ShownEnv(after, id, u).env, was.env.(lastUsedAt := now)))
  {
  }

  lemma UseFrame(b: Backend, id: Id, u: UserId, now: Time, worked: bool)
    requires Tidy(b)
    ensures var after := Serve(b, Use(id, u, now, worked)).0;
            SameEnvsBut(b, after, Some(id)) && SameSnapshotsBut(b, after, None) && SameSkillsBut(b, after, None)
  {
    AllKept(b, Serve(b, Use(id, u, now, worked)).0, Some(id), None, None);
  }

  // ---- Snapshots ----------------------------------------------------------------------------

  lemma TakeSnapshotLaw(b: Backend, s: Snapshot, worked: bool)
    requires ShownSnapshot(b, s.id, Anyone) == NotFound && !s.user.Anyone?
    ensures var (after, r) := Serve(b, TakeSnapshot(s, worked));
            var env := ShownEnv(b, s.environment, s.user);
            && r == (if env.NotFound? then NotFound
                     else if env.OneEnv? && !env.env.status.Running? then NotRunning else if !worked then Failed else OneSnapshot(s))
            && (!r.OneSnapshot? ==> after == b)
            && (r.OneSnapshot? ==> ShownSnapshot(after, s.id, s.user).OneSnapshot?
                                   && TruncateSnapshot(ShownSnapshot(after, s.id, s.user).snapshot) == TruncateSnapshot(s))
  {
  }

  lemma TakeSnapshotFrame(b: Backend, s: Snapshot, worked: bool)
    ensures var after := Serve(b, TakeSnapshot(s, worked)).0;
            SameSnapshotsBut(b, after, Some(s.id)) && SameEnvsBut(b, after, None) && SameSkillsBut(b, after, None)
  {
    AllKept(b, Serve(b, TakeSnapshot(s, worked)).0, None, Some(s.id), None);
  }

  lemma DropSnapshotLaw(b: Backend, id: Id, u: UserId)
    ensures var (after, r) := Serve(b, DropSnapshot(id, u));
            && r == (if ShownSnapshot(b, id, u).OneSnapshot? then Done else NotFound)
            && (r.NotFound? ==> after == b)
            && (r.Done? ==> forall v :: ShownSnapshot(after, id, v) == NotFound)
            && SameSnapshotsBut(b, after, Some(id)) && SameEnvsBut(b, after, None) && SameSkillsBut(b, after, None)
  {
    AllKept(b, Serve(b, DropSnapshot(id, u)).0, None, Some(id), None);
  }

  // ---- Skills ---------------------------------------------------------------------------------

  /** The skill under an ID is the one of this user and name. */
  ghost predicate IsSkill(r: Response, user: UserId, name: string) { r.OneSkill? && r.skill.user == user && r.skill.name == name }

  /** The user has a skill of that name. */
  ghost predicate HasSkill(b: Backend, user: UserId, name: string) {
    exists id :: IsSkill(ShownSkill(b, id, user), user, name)
  }

  ghost function OldKey(b: Backend, user: UserId, name: string): Option<Id> {
    match b case Mem(c) => SkillKey(c.skills, user, name) case Sql(t) => ConflictKey(t.skills, user, name)
  }

  lemma OldSkill(b: Backend, user: UserId, name: string)
    requires !user.Anyone?
    ensures HasSkill(b, user, name) <==> OldKey(b, user, name).Some?
    ensures OldKey(b, user, name).Some? ==> IsSkill(ShownSkill(b, OldKey(b, user, name).value, user), user, name)
  {
    var key := OldKey(b, user, name);
    if key.Some? {
      assert ShownSkill(b, key.value, user).OneSkill?;
    }
    forall id | IsSkill(ShownSkill(b, id, user), user, name)
      ensures key.Some?
    {
      assert match b case Mem(c) => id in c.skills && SameSkill(c.skills[id], user, name)
                     case Sql(t) => id in t.skills && t.skills[id].user == user && t.skills[id].name == name;
    }
  }

  /** A registered skill answers under the ID that was returned, with the archive, the size and
      the time of the registration. */
  lemma RegisterLaw(b: Backend, s: Skill, a: Bytes)
    requires Tidy(b) && !s.user.Anyone?
    ensures var (after, r) := Serve(b, Register(s, a));
            r.OneSkill? && r.archive == a && r.skill.user == s.user && r.skill.name == s.name
    ensures var (after, r) := Serve(b, Register(s, a)); var x := ShownSkill(after, r.skill.id, s.user);
            && IsSkill(x, s.user, s.name) && x.archive == a && x.skill.id == r.skill.id && x.skill.sizeBytes == s.sizeBytes
            && Floor(x.skill.updatedAt) == Floor(s.updatedAt) && Floor(x.skill.createdAt) == Floor(r.skill.createdAt)
  {
  }

  lemma RegisterFrame(b: Backend, s: Skill, a: Bytes)
    requires Tidy(b)
    ensures var (after, r) := Serve(b, Register(s, a));
            && r.OneSkill? && SameSkillsBut(b, after, Some(r.skill.id))
            && SameEnvsBut(b, after, None) && SameSnapshotsBut(b, after, None)
  {
    var (after, r) := Serve(b, Register(s, a));
    AllKept(b, after, None, None, Some(r.skill.id));
  }

  /** If the user already had a skill of that name it is that one, with its ID, tenant and
      creation time; otherwise it is the new one. */
  lemma RegisterIdentity(b: Backend, s: Skill, a: Bytes)
    requires Tidy(b) && !s.user.Anyone? && ShownSkill(b, s.id, Anyone) == NotFound
    ensures var (after, r) := Serve(b, Register(s, a)); r.OneSkill? && ShownSkill(after, r.skill.id, s.user).OneSkill?
    ensures var (after, r) := Serve(b, Register(s, a));
            var x, was := ShownSkill(after, r.skill.id, s.user), ShownSkill(b, r.skill.id, s.user);
            if HasSkill(b, s.user, s.name)
            then IsSkill(was, s.user, s.name) && x.skill.tenant == was.skill.tenant && x.skill.createdAt == was.skill.createdAt
            else r.skill.id == s.id && x.skill.tenant == s.tenant && Floor(x.skill.createdAt) == Floor(s.createdAt)
  {
    OldSkill(b, s.user, s.name);
  }

  lemma DropSkillLaw(b: Backend, id: Id, u: UserId)
    ensures var (after, r) := Serve(b, DropSkill(id, u));
            && r == (if ShownSkill(b, id, u).OneSkill? then Done else NotFound)
            && (r.NotFound? ==> after == b)
            && (r.Done? ==> forall v :: ShownSkill(after, id, v) == NotFound)
            && SameSkillsBut(b, after, Some(id)) && SameEnvsBut(b, after, None) && SameSnapshotsBut(b, after, None)
  {
    AllKept(b, Serve(b, DropSkill(id, u)).0, None, None, Some(id));
  }

  /** Asking changes nothing. */
  lemma AskingIsFree(b: Backend, rq: Request)
    requires rq.Show? || rq.ShowAll? || rq.ShowTenant? || rq.ShowSnapshot? || rq.ShowSnapshots? || rq.ShowTenantSnapshots?
          || rq.ShowSkill? || rq.ShowSkills? || rq.ShowTenantSkills?
    ensures Serve(b, rq).0 == b
  {
  }

  /** Tidiness lasts. */
  lemma TidyStays(b: Backend, rq: Request)
    requires Tidy(b)
    requires rq.Register? ==> ShownSkill(b, rq.skill.id, Anyone) == NotFound && rq.skill.sizeBytes == |rq.archive|
    ensures Tidy(Serve(b, rq).0)
  {
    if rq.Register? {
      TidyRegister(b, rq.skill, rq.archive);
    } else if rq.DropSkill? {
      TidyDrop(b, rq.id, rq.user);
    }
  }

  lemma TidyRegister(b: Backend, s: Skill, a: Bytes)
    requires Tidy(b) && ShownSkill(b, s.id, Anyone) == NotFound && s.sizeBytes == |a|
    ensures Tidy(Serve(b, Register(s, a)).0)
  {
    if b.Mem? {
      UpsertKeepsSkills(b.c.skills, s, a);
    }
  }

  lemma TidyDrop(b: Backend, id: Id, u: UserId)
    requires Tidy(b)
    ensures Tidy(Serve(b, DropSkill(id, u)).0)
  {
  }

  // ---- What truncation leaves open --------------------------------------------------------------

  /** Equal but for the fractions of the seconds. */
  ghost predicate SameInSeconds(s: Time, t: Time) { s.sec == t.sec }

  ghost predicate AlikeSnapshots(s: Snapshot, t: Snapshot) {
    SameInSeconds(s.createdAt, t.createdAt) && s == t.(createdAt := s.createdAt)
  }

  ghost predicate AlikeSkills(s: Skill, t: Skill) {
    && SameInSeconds(s.createdAt, t.createdAt) && SameInSeconds(s.updatedAt, t.updatedAt)
    && s == t.(createdAt := s.createdAt, updatedAt := s.updatedAt)
  }

  lemma AlikeMeans(e: Env, f: Env)
    ensures Alike(e, f) <==>
      && e.id == f.id && e.tenant == f.tenant && e.user == f.user && e.spec == f.spec && e.status == f.status
      && e.containerId == f.containerId && SameInSeconds(e.createdAt, f.createdAt)
      && SameInSeconds(e.lastUsedAt, f.lastUsedAt) && SameInSeconds(e.expiresAt, f.expiresAt)
  {
  }

  /** Responses that agree after truncation are of the same kind and agree in everything but
      the fractions of their times. */
  lemma TruncationMeans(r: Response, q: Response)
    requires TruncateResponse(r) == TruncateResponse(q)
    ensures r.Done? == q.Done? && r.NotFound? == q.NotFound? && r.NotRunning? == q.NotRunning? && r.Failed? == q.Failed?
    ensures r.OneEnv? == q.OneEnv? && (r.OneEnv? ==> Alike(r.env, q.env))
    ensures r.ManyEnvs? == q.ManyEnvs? &&
            (r.ManyEnvs? ==> r.envs.Keys == q.envs.Keys && forall id :: id in r.envs ==> Alike(r.envs[id], q.envs[id]))
    ensures r.OneSnapshot? == q.OneSnapshot? && (r.OneSnapshot? ==> AlikeSnapshots(r.snapshot, q.snapshot))
    ensures r.OneSkill? == q.OneSkill? && (r.OneSkill? ==> r.archive == q.archive && AlikeSkills(r.skill, q.skill))
  {
    if r.ManyEnvs? {
      forall id ensures id in r.envs <==> id in q.envs {
        assert id in TruncateResponse(r).envs <==> id in TruncateResponse(q).envs;
      }
      forall id | id in r.envs ensures Alike(r.envs[id], q.envs[id]) {
        assert TruncateResponse(r).envs[id] == TruncateResponse(q).envs[id];
      }
    }
  }

  /** The same for the listings of snapshots and skills. */
  lemma TruncationOfLists(r: Response, q: Response)
    requires TruncateResponse(r) == TruncateResponse(q)
    ensures r.ManySnapshots? == q.ManySnapshots? && r.ManySkills? == q.ManySkills?
    ensures r.ManySnapshots? ==>
      r.snapshots.Keys == q.snapshots.Keys && forall id :: id in r.snapshots ==> AlikeSnapshots(r.snapshots[id], q.snapshots[id])
    ensures r.ManySkills? ==>
      r.skills.Keys == q.skills.Keys && forall id :: id in r.skills ==> AlikeSkills(r.skills[id], q.skills[id])
  {
    if r.ManySnapshots? {
      forall id ensures id in r.snapshots <==> id in q.snapshots {
        assert id in TruncateResponse(r).snapshots <==> id in TruncateResponse(q).snapshots;
      }
      forall id | id in r.snapshots ensures AlikeSnapshots(r.snapshots[id], q.snapshots[id]) {
        assert TruncateResponse(r).snapshots[id] == TruncateResponse(q).snapshots[id];
      }
    }
    if r.ManySkills? {
      forall id ensures id in r.skills <==> id in q.skills {
        assert id in TruncateResponse(r).skills <==> id in TruncateResponse(q).skills;
      }
      forall id | id in r.skills ensures AlikeSkills(r.skills[id], q.skills[id]) {
        assert TruncateResponse(r).skills[id] == TruncateResponse(q).skills[id];
      }
    }
  }

  /** From two empty stores on, every response of one agrees with that of the other. */
  lemma SameStoryFromNothing(rqs: seq<Request>)
    requires FreshRun(Mem(Content(map[], map[], map[])), rqs)
    ensures var rm, rs := ServeAll(Mem(Content(map[], map[], map[])), rqs).1, ServeAll(Sql(Tables(map[], map[], map[])), rqs).1;
            |rm| == |rs| && forall i :: 0 <= i < |rm| ==> TruncateResponse(rm[i]) == TruncateResponse(rs[i])
  {
    var c, t := Content(map[], map[], map[]), Tables(map[], map[], map[]);
    assert Sim(c, t);
    SameStory(c, t, rqs);
    var rm, rs := ServeAll(Mem(c), rqs).1, ServeAll(Sql(t), rqs).1;
    forall i | 0 <= i < |rm| ensures TruncateResponse(rm[i]) == TruncateResponse(rs[i]) {
      assert TruncateAll(rm)[i] == TruncateAll(rs)[i];
    }
  }

  /** A run of requests answers each in the state that those before it left. */
  lemma {:induction false} ServeAllSnoc(b: Backend, rqs: seq<Request>, rq: Request)
    ensures var (after, rs) := ServeAll(b, rqs);
            ServeAll(b, rqs + [rq]) == (Serve(after, rq).0, rs + [Serve(after, rq).1]) && |rs| == |rqs|
    decreases |rqs|
  {
    if rqs == [] {
      assert rqs + [rq] == [rq] && [rq][1..] == [];
      var (next, r) := Serve(b, rq);
      assert ServeAll(next, []) == (next, []);
      assert [r] + [] == [] + [r];
    } else {
      assert (rqs + [rq])[1..] == rqs[1..] + [rq];
      var (next, r) := Serve(b, rqs[0]);
      ServeAllSnoc(next, rqs[1..], rq);
      var (after, rs) := ServeAll(next, rqs[1..]);
      assert ServeAll(b, rqs) == (after, [r] + rs);
      assert [r] + (rs + [Serve(after, rq).1]) == ([r] + rs) + [Serve(after, rq).1];
    }
  }
}
