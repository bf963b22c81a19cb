/** Where the images of environments come from. Requests are validated, environments stored,
    containers made, snapshots committed and recorded in separate steps, interleaved with
    each other and with deletions. Environments, containers and snapshots are numbered in
    the order of their creation, which also makes their IDs fresh. */
module Ancestry {
  import opened Domain
  import opened Runs

  /** An image reference: an ordinary one, or the tag of a snapshot. */
  datatype Image = Plain(name: string) | Tagged(snapshot: nat)

  datatype Made = Made(user: nat, image: Image)

  datatype Record = Record(user: nat, env: nat)

  datatype Op =
    | Create(user: nat, image: Image)               // validated
    | Launch(env: nat)                              // stored, no container yet
    | Capture(user: nat, env: nat, container: nat)  // running environment read
    | Save(user: nat, env: nat, snapshot: nat)      // image committed, no record yet
    | Discard(user: nat, snapshot: nat)             // snapshot record read for deletion
    | Forget(user: nat, snapshot: nat)              // image deletion tried

  /** `made`, `containers` and `commits` list everything ever created; the rest is what the
      store and the engine hold now. `live` gives a record's container once it runs. */
  datatype State = State(
    made: seq<Made>, containers: seq<nat>, commits: seq<nat>,
    live: map<nat, Option<nat>>, records: map<nat, Record>, images: set<nat>,
    ops: map<nat, Op>)

  const Empty := State([], [], [], map[], map[], {}, map[])

  datatype Action =
    | RequestImage(op: nat, user: nat, image: Image)
    | RequestSnapshot(op: nat, user: nat, snapshot: nat)
    | StoreEnv(op: nat)
    | MakeContainer(op: nat, published: bool)
    | Fail(op: nat)
    | RemoveEnv(env: nat)
    | ReadEnv(op: nat, user: nat, env: nat)
    | Commit(op: nat)
    | StoreSnapshot(op: nat)
    | StoreSnapshotFails(op: nat, cleaned: bool)
    | ReadSnapshot(op: nat, user: nat, snapshot: nat)
    | DeleteImage(op: nat, ok: bool)
    | DeleteRecord(op: nat, ok: bool)

  /** The search loop behind the allowlist check. */
  method ImageAllowed(image: Image, allowlist: seq<Image>) returns (found: bool)
    ensures found <==> image in allowlist
  {
    for i := 0 to |allowlist|
      invariant image !in allowlist[..i]
    {
      if image == allowlist[i] {
        return true;
      }
    }
    return false;
  }

  predicate Enabled(allow: seq<Image>, s: State, a: Action) {
    match a
    case RequestImage(op, user, image) => op !in s.ops && image != Plain("") && (|allow| > 0 ==> image in allow)
    case RequestSnapshot(op, user, snap) => op !in s.ops && snap in s.records && s.records[snap].user == user
    case StoreEnv(op) => op in s.ops && s.ops[op].Create?
    case MakeContainer(op, _) => op in s.ops && s.ops[op].Launch?
    case Fail(op) => op in s.ops && !s.ops[op].Save? && !s.ops[op].Forget?
    case RemoveEnv(env) => env in s.live
    case ReadEnv(op, user, env) =>
      op !in s.ops && env in s.live && s.live[env].Some? && env < |s.made| && s.made[env].user == user
    case Commit(op) => op in s.ops && s.ops[op].Capture?
    case StoreSnapshot(op) => op in s.ops && s.ops[op].Save?
    case StoreSnapshotFails(op, _) => op in s.ops && s.ops[op].Save?
    case ReadSnapshot(op, user, snap) => op !in s.ops && snap in s.records && s.records[snap].user == user
    case DeleteImage(op, _) => op in s.ops && s.ops[op].Discard?
    case DeleteRecord(op, _) => op in s.ops && s.ops[op].Forget?
  }

  function After(allow: seq<Image>, s: State, a: Action): State
    requires Enabled(allow, s, a)
  {
    match a
    case RequestImage(op, user, image) => s.(ops := s.ops[op := Create(user, image)])
    case RequestSnapshot(op, user, snap) => s.(ops := s.ops[op := Create(user, Tagged(snap))])
    case StoreEnv(op) =>
      var env := |s.made|;
      s.(made := s.made + [Made(s.ops[op].user, s.ops[op].image)], live := s.live[env := None],
         ops := s.ops[op := Launch(env)])
    case MakeContainer(op, published) =>
      var env := s.ops[op].env;
      s.(containers := s.containers + [env], ops := s.ops - {op},
         live := if published && env in s.live then s.live[env := Some(|s.containers|)] else s.live)
    case Fail(op) => s.(ops := s.ops - {op})
    case RemoveEnv(env) => s.(live := s.live - {env})
    case ReadEnv(op, user, env) => s.(ops := s.ops[op := Capture(user, env, s.live[env].value)])
    case Commit(op) =>
      var snap, o := |s.commits|, s.ops[op];
      s.(commits := s.commits + [o.container], images := s.images + {snap}, ops := s.ops[op := Save(o.user, o.env, snap)])
    case StoreSnapshot(op) =>
      var o := s.ops[op];
      s.(records := s.records[o.snapshot := Record(o.user, o.env)], ops := s.ops - {op})
    case StoreSnapshotFails(op, cleaned) =>
      var snap := s.ops[op].snapshot;
      s.(images := if cleaned then s.images - {snap} else s.images, ops := s.ops - {op})
    case ReadSnapshot(op, user, snap) => s.(ops := s.ops[op := Discard(user, snap)])
    case DeleteImage(op, ok) =>
      var o := s.ops[op];
      s.(images := if ok then s.images - {o.snapshot} else s.images, ops := s.ops[op := Forget(o.user, o.snapshot)])
    case DeleteRecord(op, ok) =>
      if ok then s.(records := s.records - {s.ops[op].snapshot}, ops := s.ops - {op}) else s.(ops := s.ops - {op})
  }

  ghost predicate Execution(allow: seq<Image>, acts: seq<Action>, ss: seq<State>) {
    && |ss| == |acts| + 1 && ss[0] == Empty
    && forall i :: 0 <= i < |acts| ==> Enabled(allow, ss[i], acts[i]) && ss[i + 1] == After(allow, ss[i], acts[i])
  }

  // ---- Invariants ------------------------------------------------------------------------------

  ghost predicate InRange(made: seq<Made>, containers: seq<nat>, commits: seq<nat>) {
    && (forall n :: 0 <= n < |containers| ==> containers[n] < |made|)
    && (forall k :: 0 <= k < |commits| ==> commits[k] < |containers|)
  }

  /** The snapshot was committed from a container of the user's environment `env`. */
  ghost predicate TakenFrom(s: State, snap: nat, env: nat, user: nat) {
    && snap < |s.commits| && s.commits[snap] < |s.containers| && s.containers[s.commits[snap]] == env
    && env < |s.made| && s.made[env].user == user
  }

  ghost predicate Sourced(allow: seq<Image>, s: State, image: Image, user: nat, before: nat) {
    image in allow || (image.Tagged? && exists env: nat :: env < before && TakenFrom(s, image.snapshot, env, user))
  }

  ghost predicate OpOk(allow: seq<Image>, s: State, o: Op) {
    match o
    case Create(user, image) => Sourced(allow, s, image, user, |s.made|)
    case Launch(env) => env < |s.made|
    case Capture(user, env, n) => n < |s.containers| && s.containers[n] == env && env < |s.made| && s.made[env].user == user
    case Save(user, env, snap) => TakenFrom(s, snap, env, user)
    case _ => true
  }

  ghost predicate MadeOk(allow: seq<Image>, s: State) {
    forall i :: 0 <= i < |s.made| ==> Sourced(allow, s, s.made[i].image, s.made[i].user, i)
  }

  ghost predicate LiveOk(s: State) {
    forall env :: env in s.live ==>
      env < |s.made| && (s.live[env].Some? ==> s.live[env].value < |s.containers| && s.containers[s.live[env].value] == env)
  }

  ghost predicate RecordsOk(s: State) {
    forall k :: k in s.records ==> TakenFrom(s, k, s.records[k].env, s.records[k].user)
  }

  ghost predicate OpsOk(allow: seq<Image>, s: State) { forall op :: op in s.ops ==> OpOk(allow, s, s.ops[op]) }

  ghost predicate Inv(allow: seq<Image>, s: State) {
    InRange(s.made, s.containers, s.commits) && MadeOk(allow, s) && LiveOk(s) && RecordsOk(s) && OpsOk(allow, s)
  }

  /** History only grows. */
  ghost predicate Extends(s: State, t: State) {
    s.made <= t.made && s.containers <= t.containers && s.commits <= t.commits
  }

  lemma SourcedStays(allow: seq<Image>, s: State, t: State, image: Image, user: nat, before: nat, later: nat)
    requires Extends(s, t) && before <= later && Sourced(allow, s, image, user, before)
    ensures Sourced(allow, t, image, user, later)
  {
    if image !in allow {
      var env: nat :| env < before && TakenFrom(s, image.snapshot, env, user);
      assert TakenFrom(t, image.snapshot, env, user);
    }
  }

  lemma OpStays(allow: seq<Image>, s: State, t: State, o: Op)
    requires Extends(s, t) && OpOk(allow, s, o)
    ensures OpOk(allow, t, o)
  {
    if o.Create? {
      SourcedStays(allow, s, t, o.image, o.user, |s.made|, |t.made|);
    }
  }

  lemma StepExtends(allow: seq<Image>, s: State, a: Action)
    requires Enabled(allow, s, a)
    ensures Extends(s, After(allow, s, a))
  {
  }

  lemma StepMade(allow: seq<Image>, s: State, a: Action)
    requires MadeOk(allow, s) && OpsOk(allow, s) && Enabled(allow, s, a)
    ensures MadeOk(allow, After(allow, s, a))
  {
    var t := After(allow, s, a);
    StepExtends(allow, s, a);
    forall i | 0 <= i < |t.made|
      ensures Sourced(allow, t, t.made[i].image, t.made[i].user, i)
    {
      if i < |s.made| {
        SourcedStays(allow, s, t, s.made[i].image, s.made[i].user, i, i);
      } else {
        var o := s.ops[a.op];
        SourcedStays(allow, s, t, o.image, o.user, i, i);
      }
    }
  }

  lemma StepRange(allow: seq<Image>, s: State, a: Action)
    requires InRange(s.made, s.containers, s.commits) && OpsOk(allow, s) && Enabled(allow, s, a)
    ensures var t := After(allow, s, a); InRange(t.made, t.containers, t.commits)
  {
  }

  lemma StepLive(allow: seq<Image>, s: State, a: Action)
    requires LiveOk(s) && Enabled(allow, s, a)
    ensures LiveOk(After(allow, s, a))
  {
  }

  lemma StepRecords(allow: seq<Image>, s: State, a: Action)
    requires RecordsOk(s) && OpsOk(allow, s) && Enabled(allow, s, a)
    ensures RecordsOk(After(allow, s, a))
  {
    var t := After(allow, s, a);
    StepExtends(allow, s, a);
    if a.StoreSnapshot? {
      assert OpOk(allow, s, s.ops[a.op]);
    }
  }

  /** The operation that a step leaves behind is in order. */
  lemma NewOp(allow: seq<Image>, s: State, a: Action)
    requires Inv(allow, s) && |allow| > 0 && Enabled(allow, s, a) && !a.RemoveEnv?
    ensures var t := After(allow, s, a); a.op in t.ops ==> OpOk(allow, t, t.ops[a.op])
  {
    var t := After(allow, s, a);
    if a.RequestSnapshot? {
      assert TakenFrom(s, a.snapshot, s.records[a.snapshot].env, a.user);
      assert TakenFrom(t, a.snapshot, s.records[a.snapshot].env, a.user);
    } else if a.Commit? {
      assert OpOk(allow, s, s.ops[a.op]);
    }
  }

  lemma StepOps(allow: seq<Image>, s: State, a: Action)
    requires Inv(allow, s) && |allow| > 0 && Enabled(allow, s, a)
    ensures OpsOk(allow, After(allow, s, a))
  {
    var t := After(allow, s, a);
    StepExtends(allow, s, a);
    if !a.RemoveEnv? {
      NewOp(allow, s, a);
    }
    forall op | op in t.ops
      ensures OpOk(allow, t, t.ops[op])
    {
      if a.RemoveEnv? || op != a.op {
        OpStays(allow, s, t, s.ops[op]);
      }
    }
  }

  lemma {:induction false} ExecutionInv(allow: seq<Image>, acts: seq<Action>, ss: seq<State>, n: nat)
    requires Execution(allow, acts, ss) && |allow| > 0 && n < |ss|
    ensures Inv(allow, ss[n])
  {
    if n > 0 {
      ExecutionInv(allow, acts, ss, n - 1);
      StepMade(allow, ss[n - 1], acts[n - 1]);
      StepRange(allow, ss[n - 1], acts[n - 1]);
      StepLive(allow, ss[n - 1], acts[n - 1]);
      StepRecords(allow, ss[n - 1], acts[n - 1]);
      StepOps(allow, ss[n - 1], acts[n - 1]);
    }
  }

  // ---- Ancestry ------------------------------------------------------------------------------------

  /** `chain` leads from an environment to an allowlisted image: each environment's image is
      a snapshot committed from a container of the next one, all of the same user. */
  ghost predicate IsAncestry(allow: seq<Image>, s: State, chain: seq<nat>) {
    && chain != []
    && (forall i :: 0 <= i < |chain| ==> chain[i] < |s.made|)
    && (forall i :: 0 <= i < |chain| ==> s.made[chain[i]].user == s.made[chain[0]].user)
    && (forall i :: 0 <= i < |chain| - 1 ==>
        s.made[chain[i]].image.Tagged? && TakenFrom(s, s.made[chain[i]].image.snapshot, chain[i + 1], s.made[chain[0]].user))
    && s.made[chain[|chain| - 1]].image in allow
  }

  lemma {:induction false} AncestryExists(allow: seq<Image>, s: State, env: nat) returns (chain: seq<nat>)
    requires MadeOk(allow, s) && env < |s.made|
    ensures IsAncestry(allow, s, chain) && chain[0] == env && |chain| <= env + 1
    decreases env
  {
    if s.made[env].image in allow {
      return [env];
    }
    assert Sourced(allow, s, s.made[env].image, s.made[env].user, env);
    var parent: nat :| parent < env && TakenFrom(s, s.made[env].image.snapshot, parent, s.made[env].user);
    var rest := AncestryExists(allow, s, parent);
    chain := [env] + rest;
    assert chain[1] == parent;
    forall i | 0 <= i < |chain| - 1
      ensures s.made[chain[i]].image.Tagged?
      ensures TakenFrom(s, s.made[chain[i]].image.snapshot, chain[i + 1], s.made[env].user)
    {
      assert i > 0 ==> chain[i] == rest[i - 1] && chain[i + 1] == rest[i];
    }
  }

  /** With an allowlist, at every point of every run, every environment ever created comes
      from an allowlisted image through finitely many snapshots of one user. */
  lemma AllowlistedAncestry(allow: seq<Image>, acts: seq<Action>, ss: seq<State>, n: nat, env: nat)
    requires Execution(allow, acts, ss) && |allow| > 0 && n < |ss| && env < |ss[n].made|
    ensures exists chain :: IsAncestry(allow, ss[n], chain) && chain[0] == env && |chain| <= env + 1
  {
    ExecutionInv(allow, acts, ss, n);
    var chain := AncestryExists(allow, ss[n], env);
  }

  // ---- Snapshot images ----------------------------------------------------------------------------------

  ghost predicate Saves(s: State, op: nat, k: nat) { op in s.ops && s.ops[op].Save? && s.ops[op].snapshot == k }

  ghost predicate Held(s: State, k: nat) { exists op :: Saves(s, op, k) }

  /** The step failed to delete the image of snapshot `k`: it was to clean up after a record
      that could not be stored, or to delete the snapshot. */
  ghost predicate LosesImage(s: State, a: Action, k: nat) {
    && ((a.StoreSnapshotFails? && !a.cleaned) || (a.DeleteImage? && !a.ok))
    && a.op in s.ops && (s.ops[a.op].Save? || s.ops[a.op].Discard?) && s.ops[a.op].snapshot == k
  }

  ghost predicate LostBefore(acts: seq<Action>, ss: seq<State>, n: nat, k: nat)
    requires n <= |acts| < |ss|
  {
    exists i :: 0 <= i < n && LosesImage(ss[i], acts[i], k)
  }

  /** Operation `op` has tried to delete the image of `k`. */
  ghost predicate Tried(s: State, op: nat, k: nat) { op in s.ops && s.ops[op].Forget? && s.ops[op].snapshot == k }

  ghost predicate Fresh(s: State) {
    && (forall k :: k in s.records || k in s.images ==> k < |s.commits|)
    && (forall op :: op in s.ops && (s.ops[op].Save? || s.ops[op].Discard? || s.ops[op].Forget?) ==>
        s.ops[op].snapshot < |s.commits|)
  }

  lemma StepFresh(allow: seq<Image>, s: State, a: Action)
    requires Fresh(s) && Enabled(allow, s, a)
    ensures Fresh(After(allow, s, a))
  {
  }

  lemma {:induction false} ExecutionFresh(allow: seq<Image>, acts: seq<Action>, ss: seq<State>, n: nat)
    requires Execution(allow, acts, ss) && n < |ss|
    ensures Fresh(ss[n])
  {
    if n > 0 {
      ExecutionFresh(allow, acts, ss, n - 1);
      StepFresh(allow, ss[n - 1], acts[n - 1]);
    }
  }

  /** An image that is still there after a try was there before it, and the try failed. */
  lemma TriedStep(allow: seq<Image>, s: State, a: Action, op: nat, k: nat)
    requires Fresh(s) && Enabled(allow, s, a) && Tried(After(allow, s, a), op, k) && k in After(allow, s, a).images
    ensures k in s.images && (Tried(s, op, k) || LosesImage(s, a, k))
  {
  }

  lemma {:induction false} TriedLoses(allow: seq<Image>, acts: seq<Action>, ss: seq<State>, n: nat, op: nat, k: nat)
    requires Execution(allow, acts, ss) && n <= |acts| && Tried(ss[n], op, k) && k in ss[n].images
    ensures LostBefore(acts, ss, n, k)
  {
    assert n > 0;
    ExecutionFresh(allow, acts, ss, n - 1);
    TriedStep(allow, ss[n - 1], acts[n - 1], op, k);
    if Tried(ss[n - 1], op, k) {
      TriedLoses(allow, acts, ss, n - 1, op, k);
    }
  }

  ghost predicate Unclaimed(s: State, k: nat) { k in s.images && k !in s.records && !Held(s, k) }

  lemma HeldStays(allow: seq<Image>, s: State, a: Action, k: nat)
    requires Enabled(allow, s, a) && Held(s, k)
    ensures var t := After(allow, s, a);
            Held(t, k) || ((a.StoreSnapshot? || a.StoreSnapshotFails?) && s.ops[a.op].snapshot == k)
  {
    var op :| Saves(s, op, k);
    var t := After(allow, s, a);
    if a.RemoveEnv? || op != a.op {
      assert Saves(t, op, k);
    }
  }

  lemma NewIsHeld(allow: seq<Image>, s: State, a: Action, k: nat)
    requires Enabled(allow, s, a) && k in After(allow, s, a).images && k !in s.images
    ensures Held(After(allow, s, a), k)
  {
    var t := After(allow, s, a);
    assert Saves(t, a.op, k);
  }

  /** The step before an image is unclaimed: it was so already, or its deletion just failed, or
      the record of a snapshot whose image deletion had been tried was just deleted. */
  lemma UnclaimedStep(allow: seq<Image>, s: State, a: Action, k: nat)
    requires Enabled(allow, s, a) && Unclaimed(After(allow, s, a), k)
    ensures k in s.images
    ensures Unclaimed(s, k) || LosesImage(s, a, k) || (a.DeleteRecord? && Tried(s, a.op, k))
  {
    if k !in s.images {
      NewIsHeld(allow, s, a, k);
    } else if Held(s, k) {
      HeldStays(allow, s, a, k);
    }
  }

  /** At every point of every run, an image that has no record and is not just being recorded
      was left behind by a failed deletion of that very image. */
  lemma {:induction false} UnclaimedExplained(allow: seq<Image>, acts: seq<Action>, ss: seq<State>, n: nat, k: nat)
    requires Execution(allow, acts, ss) && n <= |acts| && Unclaimed(ss[n], k)
    ensures LostBefore(acts, ss, n, k)
  {
    assert n > 0;
    var s, a := ss[n - 1], acts[n - 1];
    UnclaimedStep(allow, s, a, k);
    if Unclaimed(s, k) {
      UnclaimedExplained(allow, acts, ss, n - 1, k);
    } else if a.DeleteRecord? && Tried(s, a.op, k) {
      TriedLoses(allow, acts, ss, n - 1, a.op, k);
    }
  }

  // ---- Deleted snapshots ---------------------------------------------------------------------------------

  ghost predicate Drops(s: State, op: nat, k: nat) { op in s.ops && (s.ops[op].Discard? || s.ops[op].Forget?) && s.ops[op].snapshot == k }

  /** A snapshot is being recorded by one operation at most, and never again once it was. */
  ghost predicate SavedOnce(s: State) {
    && (forall op, other, k :: Saves(s, op, k) && Saves(s, other, k) ==> op == other)
    && (forall op, k :: Saves(s, op, k) ==> k !in s.records)
    && (forall op, other, k :: Saves(s, op, k) ==> !Drops(s, other, k))
  }

  lemma StepSaved(allow: seq<Image>, s: State, a: Action)
    requires SavedOnce(s) && Fresh(s) && Enabled(allow, s, a)
    ensures SavedOnce(After(allow, s, a))
  {
    var t := After(allow, s, a);
    forall op, k | Saves(t, op, k)
      ensures Saves(s, op, k) || (a.Commit? && op == a.op && k == |s.commits|)
      ensures k !in t.records
    {
      if a.StoreSnapshot? && s.ops[a.op].snapshot == k {
        assert Saves(s, a.op, k);
      }
    }
    forall op, k | Drops(t, op, k)
      ensures Drops(s, op, k) || k in s.records
    {
      if a.DeleteImage? && op == a.op {
        assert Drops(s, op, k);
      }
    }
  }

  lemma {:induction false} ExecutionSaved(allow: seq<Image>, acts: seq<Action>, ss: seq<State>, n: nat)
    requires Execution(allow, acts, ss) && n < |ss|
    ensures SavedOnce(ss[n]) && Fresh(ss[n])
  {
    if n > 0 {
      ExecutionSaved(allow, acts, ss, n - 1);
      StepSaved(allow, ss[n - 1], acts[n - 1]);
      StepFresh(allow, ss[n - 1], acts[n - 1]);
    }
  }

  /** No record, and none on its way. */
  ghost predicate Gone(s: State, k: nat) { k < |s.commits| && k !in s.records && !Held(s, k) }

  lemma GoneStep(allow: seq<Image>, s: State, a: Action, t: State, k: nat)
    requires Enabled(allow, s, a) && t == After(allow, s, a) && Gone(s, k)
    ensures Gone(t, k)
  {
    forall op ensures !Saves(t, op, k) {
      assert !Saves(s, op, k);
    }
    if a.StoreSnapshot? {
      assert !Saves(s, a.op, k);
    }
  }

  /** A deleted snapshot never comes back. */
  lemma DeletedForGood(allow: seq<Image>, acts: seq<Action>, ss: seq<State>, i: nat, n: nat)
    requires Execution(allow, acts, ss) && i < n < |ss| && acts[i].DeleteRecord? && acts[i].ok
    ensures ss[i].ops[acts[i].op].snapshot !in ss[n].records
  {
    var k := ss[i].ops[acts[i].op].snapshot;
    ExecutionSaved(allow, acts, ss, i);
    DeleteTakes(allow, ss[i], acts[i], ss[i + 1], k);
    var holds := seq(|ss|, m requires 0 <= m < |ss| => Gone(ss[m], k));
    forall m | i + 1 <= m < n && Gone(ss[m], k)
      ensures Gone(ss[m + 1], k)
    {
      GoneStep(allow, ss[m], acts[m], ss[m + 1], k);
    }
    Persists(holds, i + 1, n);
  }

  lemma DeleteTakes(allow: seq<Image>, s: State, a: Action, t: State, k: nat)
    requires SavedOnce(s) && Fresh(s) && Enabled(allow, s, a) && t == After(allow, s, a)
    requires a.DeleteRecord? && a.ok && s.ops[a.op].snapshot == k
    ensures Gone(t, k)
  {
    assert Drops(s, a.op, k);
    forall op ensures !Saves(t, op, k) {
      assert !Saves(s, op, k);
    }
  }

  // ---- Generations are real --------------------------------------------------------------------------------

  ghost predicate Reaches(allow: seq<Image>, s: State) {
    exists acts: seq<Action>, ss: seq<State> :: Execution(allow, acts, ss) && ss[|ss| - 1] == s
  }

  lemma Onwards(allow: seq<Image>, s: State, a: Action, t: State)
    requires Reaches(allow, s) && Enabled(allow, s, a) && t == After(allow, s, a)
    ensures Reaches(allow, t)
  {
    var acts: seq<Action>, ss: seq<State> :| Execution(allow, acts, ss) && ss[|ss| - 1] == s;
    var acts', ss' := acts + [a], ss + [t];
    forall i | 0 <= i < |acts'|
      ensures Enabled(allow, ss'[i], acts'[i]) && ss'[i + 1] == After(allow, ss'[i], acts'[i])
    {
      if i < |acts| {
        assert Enabled(allow, ss[i], acts[i]) && ss[i + 1] == After(allow, ss[i], acts[i]);
      }
    }
    assert Execution(allow, acts', ss');
  }

  /** One environment of `user`, running in container 0. */
  function Running(user: nat, image: Image): State {
    State([Made(user, image)], [0], [], map[0 := Some(0)], map[], {}, map[])
  }

  /** And one snapshot of it. */
  function Captured(user: nat, image: Image): State {
    Running(user, image).(commits := [0], records := map[0 := Record(user, 0)], images := {0})
  }

  /** And a second environment, from that snapshot. */
  function Restored(user: nat, image: Image): State {
    Captured(user, image).(made := [Made(user, image), Made(user, Tagged(0))], live := map[0 := Some(0), 1 := None],
                           ops := map[0 := Launch(1)])
  }

  lemma ReachRunning(allow: seq<Image>, user: nat, image: Image)
    requires image in allow && image != Plain("")
    ensures Reaches(allow, Running(user, image))
  {
    assert Execution(allow, [], [Empty]);
    var s1 := Empty.(ops := map[0 := Create(user, image)]);
    var s2 := Empty.(made := [Made(user, image)], live := map[0 := None], ops := map[0 := Launch(0)]);
    Onwards(allow, Empty, RequestImage(0, user, image), s1);
    Onwards(allow, s1, StoreEnv(0), s2);
    Onwards(allow, s2, MakeContainer(0, true), Running(user, image));
  }

  lemma ReachCaptured(allow: seq<Image>, user: nat, image: Image)
    requires image in allow && image != Plain("")
    ensures Reaches(allow, Captured(user, image))
  {
    ReachRunning(allow, user, image);
    var s := Running(user, image);
    var s1 := s.(ops := map[0 := Capture(user, 0, 0)]);
    var s2 := s.(commits := [0], images := {0}, ops := map[0 := Save(user, 0, 0)]);
    Onwards(allow, s, ReadEnv(0, user, 0), s1);
    Onwards(allow, s1, Commit(0), s2);
    Onwards(allow, s2, StoreSnapshot(0), Captured(user, image));
  }

  /** Some run makes an environment from a snapshot of another one. */
  lemma SecondGeneration(allow: seq<Image>, user: nat, image: Image)
    requires image in allow && image != Plain("")
    ensures Reaches(allow, Restored(user, image)) && IsAncestry(allow, Restored(user, image), [1, 0])
  {
    ReachCaptured(allow, user, image);
    var s := Captured(user, image);
    var s1 := s.(ops := map[0 := Create(user, Tagged(0))]);
    Onwards(allow, s, RequestSnapshot(0, user, 0), s1);
    Onwards(allow, s1, StoreEnv(0), Restored(user, image));
  }
}
