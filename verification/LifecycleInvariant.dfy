/** What every step of the lifecycle protocol keeps, for both stores. */
module LifecycleInvariant {
  import opened Domain
  import opened Lifecycle

  /** `e` is a copy, possibly stale, of the environment born as `b`. SQL copies have lost
      the fractions of their seconds. */
  ghost predicate Kin(kind: Kind, e: Env, b: Env) {
    && e.user == b.user && e.tenant == b.tenant && e.spec == b.spec
    && Unix(e.createdAt) == Unix(b.createdAt) && Unix(e.expiresAt) == Unix(b.expiresAt)
    && (kind.Memory? ==> e.createdAt == b.createdAt && e.expiresAt == b.expiresAt)
  }

  ghost predicate ObjOk(kind: Kind, born: map<Id, Env>, given: map<Id, ContainerId>, e: Env) {
    && e.id in born && !e.user.Anyone? && Kin(kind, e, born[e.id])
    && (e.containerId.NoContainer? || (e.id in given && e.containerId == given[e.id]))
    && (e.status.Creating? || e.status.Running?)
    && (e.status.Running? ==> e.containerId.Container?)
  }

  ghost predicate HeapOk(kind: Kind, heap: map<Ptr, Env>, born: map<Id, Env>, home: map<Id, Ptr>,
                         given: map<Id, ContainerId>)
  {
    && (forall p :: p in heap ==> ObjOk(kind, born, given, heap[p]))
    && (forall id :: id in home ==> id in born)
    && (kind.Memory? ==> forall p :: p in heap ==> heap[p].id in home && home[heap[p].id] == p)
  }

  ghost predicate MemoryTableOk(envs: map<Id, Ptr>, heap: map<Ptr, Env>, stored: set<Id>) {
    forall id :: id in envs ==> id in stored && envs[id] in heap && heap[envs[id]].id == id
  }

  ghost predicate SqlTableOk(rows: map<Id, Row>, stored: set<Id>, born: map<Id, Env>, given: map<Id, ContainerId>) {
    forall id :: id in rows ==>
      && id in stored && ObjOk(Sql, born, given, FromRow(id, rows[id]))
      && (rows[id].status.Creating? ==> rows[id].containerId.NoContainer?)
  }

  /** Only one of the two stores is in use. */
  ghost predicate TableOk(d: Data) {
    && (d.kind.Memory? ==> d.rows == map[] && MemoryTableOk(d.envs, d.heap, d.stored))
    && (d.kind.Sql? ==> d.envs == map[] && SqlTableOk(d.rows, d.stored, d.born, d.given))
    && (forall id :: id in d.stored ==> id in d.born)
    && (forall id :: id in d.given ==> id in d.stored)
  }

  ghost predicate EngineOk(given: map<Id, ContainerId>, maker: map<ContainerId, Id>,
                           live: set<ContainerId>, failedStops: set<ContainerId>)
  {
    && (forall id :: id in given ==> given[id].Container? && given[id] in maker && maker[given[id]] == id)
    && (forall c :: c in maker ==> maker[c] in given && given[maker[c]] == c)
    && (forall c :: c in live ==> c in maker)
    && (forall c :: c in failedStops ==> c in maker)
  }

  ghost predicate Given(d: Data, id: Id, c: ContainerId) { id in d.given && d.given[id] == c }

  ghost predicate CreateOk(d: Data, e: Env, pc: CreatePc) {
    match pc
    case ToStore => e.id !in d.stored && e.id !in d.given && e.containerId.NoContainer? && e.status.Creating?
    case ToEngine => e.id in d.stored && e.id !in d.given && e.containerId.NoContainer? && e.status.Creating?
    case ToPublish(c) => e.id in d.stored && Given(d, e.id, c) && e.containerId.NoContainer? && e.status.Creating?
    case ToRollbackDelete(c, stopFailed) =>
      && e.id in d.stored && e.containerId == c && e.status.Creating?
      && (c.NoContainer? ==> e.id !in d.given && !stopFailed)
      && (c.Container? ==> Given(d, e.id, c) && if stopFailed then c in d.failedStops else c !in d.live)
    case ToUpdate(c) => e.id in d.stored && Given(d, e.id, c) && e.containerId == c && e.status.Running?
    case _ => e.id in d.stored && Given(d, e.id, pc.c) && e.containerId == pc.c && e.status.Creating?
  }

  ghost predicate TeardownOk(d: Data, todo: seq<Ptr>, tpc: TeardownPc, user: UserId) {
    && todo != []
    && (forall p :: p in todo ==> p in d.heap && d.heap[p].id in d.stored && MaySee(user, d.heap[p].user))
    && var e := d.heap[todo[0]];
       match tpc
       case ToCheck => true
       case ToStop(c) => c.Container? && e.containerId == c
       case ToDelete(ReadEmpty) => true
       case ToDelete(StopTried(c, ok)) =>
         c.Container? && Given(d, e.id, c) && if ok then c !in d.live else c in d.failedStops
  }

  ghost predicate TouchOk(d: Data, e: Env, tested: bool) {
    && e.id in d.stored && (d.kind.Sql? ==> tested)
    && (tested ==> e.status.Running? && (e.id in d.rows ==> d.rows[e.id].status.Running?))
  }

  ghost predicate OpOk(d: Data, op: Op) {
    match op
    case Create(p, pc) => p in d.heap && CreateOk(d, d.heap[p], pc)
    case Teardown(todo, tpc, user) => TeardownOk(d, todo, tpc, user)
    case Touch(p, tested) => p in d.heap && TouchOk(d, d.heap[p], tested)
  }

  /** Two create operations that work on the same environment. */
  ghost predicate SameCreate(d: Data, a: Op, b: Op) {
    && a.Create? && b.Create? && a.p in d.heap && b.p in d.heap
    && d.heap[a.p].id == d.heap[b.p].id
  }

  ghost predicate DataOk(d: Data) {
    && HeapOk(d.kind, d.heap, d.born, d.home, d.given)
    && TableOk(d)
    && EngineOk(d.given, d.maker, d.live, d.failedStops)
  }

  ghost predicate OpsOk(s: State) {
    && (forall o :: o in s.ops ==> o in s.usedOps && OpOk(s.d, s.ops[o]))
    && (forall o, o' :: o in s.ops && o' in s.ops && SameCreate(s.d, s.ops[o], s.ops[o']) ==> o == o')
  }

  ghost predicate Inv(s: State) { DataOk(s.d) && OpsOk(s) }

  // ---- What a step leaves to the other operations ---------------------------

  /** An object may only gain its container ID and its running status. */
  ghost predicate Grows(e: Env, f: Env) {
    && f.id == e.id && f.user == e.user
    && (e.containerId.Container? ==> f.containerId == e.containerId)
    && (e.status.Running? ==> f.status.Running?)
  }

  ghost predicate HistoryGrows(d: Data, t: Data) {
    && t.kind == d.kind && d.stored <= t.stored && d.failedStops <= t.failedStops
    && (forall id :: id in d.born ==> id in t.born && t.born[id] == d.born[id])
    && (forall id :: id in d.home ==> id in t.home && t.home[id] == d.home[id])
    && (forall id :: id in d.given ==> id in t.given && t.given[id] == d.given[id])
    && (forall c :: c in d.maker ==> c in t.maker && t.maker[c] == d.maker[c])
    && (forall c :: c in d.maker && c !in d.live ==> c !in t.live)
    && RowsGrow(d.rows, t.rows, d.stored)
    && (forall id :: id in t.envs ==> id in d.envs || id !in d.stored)
  }

  ghost predicate RowsGrow(rows: map<Id, Row>, later: map<Id, Row>, stored: set<Id>) {
    forall id :: id in later ==>
      if id in rows then rows[id].status.Running? ==> later[id].status.Running? else id !in stored
  }

  /** What `Frame` below says whatever its last argument. */
  ghost predicate Monotone(d: Data, t: Data) {
    HistoryGrows(d, t) && forall p :: p in d.heap ==> p in t.heap && Grows(d.heap[p], t.heap[p])
  }

  /** Nothing a create operation relies on changed for the environment `e`, now `f`. */
  ghost predicate Untouched(d: Data, t: Data, e: Env, f: Env) {
    && f.containerId == e.containerId && f.status == e.status
    && (e.id in t.stored ==> e.id in d.stored) && (e.id in t.given ==> e.id in d.given)
  }

  /** From `d` to `t`, only environments in `mine` changed in a way a create could notice. */
  ghost predicate Frame(d: Data, t: Data, mine: set<Id>) {
    && HistoryGrows(d, t)
    && (forall id :: id in t.rows && id in d.rows && id !in mine ==> t.rows[id].status == d.rows[id].status)
    && forall p :: p in d.heap ==>
         && p in t.heap && Grows(d.heap[p], t.heap[p])
         && (d.heap[p].id !in mine ==> Untouched(d, t, d.heap[p], t.heap[p]))
  }

  lemma OpFrame(d: Data, t: Data, mine: set<Id>, op: Op)
    requires EngineOk(d.given, d.maker, d.live, d.failedStops) && Frame(d, t, mine) && OpOk(d, op)
    requires op.Create? ==> d.heap[op.p].id !in mine
    ensures OpOk(t, op)
  {
  }

  /** The environment a create operation works on. */
  ghost function Mine(d: Data, op: Op): set<Id> {
    if op.Create? && op.p in d.heap then {d.heap[op.p].id} else {}
  }

  /** The environments a step may give a container or a status to. */
  ghost function Reach(s: State, l: Label): set<Id> {
    if l.o in s.ops then Mine(s.d, s.ops[l.o]) else {}
  }

  /** Other operations keep what they rely on, whichever step `l` is. */
  lemma OthersOk(s: State, l: Label, t: State, mine: set<Id>)
    requires Inv(s) && Enabled(s, l) && t == Apply(s, l) && Frame(s.d, t.d, mine)
    requires mine <= Reach(s, l)
    requires After(s, l).Some? ==> OpOk(t.d, After(s, l).value)
    requires l.a.BeginCreate? ==> l.a.p in t.d.heap && t.d.heap[l.a.p] == l.a.env
    ensures OpsOk(t)
  {
    forall o | o in t.ops ensures o in t.usedOps && OpOk(t.d, t.ops[o]) {
      if o != l.o {
        assert OpOk(s.d, s.ops[o]);
        if s.ops[o].Create? && l.o in s.ops { assert !SameCreate(s.d, s.ops[o], s.ops[l.o]); }
        OpFrame(s.d, t.d, mine, s.ops[o]);
      }
    }
    forall a, b | a in t.ops && b in t.ops && SameCreate(t.d, t.ops[a], t.ops[b]) ensures a == b {
      if a != b { NotSame(s, l, t, mine, a, b); }
    }
  }

  lemma NotSame(s: State, l: Label, t: State, mine: set<Id>, a: OpId, b: OpId)
    requires Inv(s) && Enabled(s, l) && t == Apply(s, l) && Frame(s.d, t.d, mine)
    requires a in t.ops && b in t.ops && a != b
    requires l.a.BeginCreate? ==> l.a.p in t.d.heap && t.d.heap[l.a.p] == l.a.env
    ensures !SameCreate(t.d, t.ops[a], t.ops[b])
  {
    if t.ops[a].Create? && t.ops[b].Create? {
      CreateKept(s, l, t, mine, a);
      CreateKept(s, l, t, mine, b);
      if a in s.ops && b in s.ops {
        assert !SameCreate(s.d, s.ops[a], s.ops[b]);
      }
    }
  }

  /** A create after the step works on a new environment, or on the one it worked on before. */
  lemma CreateKept(s: State, l: Label, t: State, mine: set<Id>, o: OpId)
    requires Inv(s) && Enabled(s, l) && t == Apply(s, l) && Frame(s.d, t.d, mine) && o in t.ops && t.ops[o].Create?
    requires l.a.BeginCreate? ==> l.a.p in t.d.heap && t.d.heap[l.a.p] == l.a.env
    ensures o in s.ops ==> s.ops[o].Create? && s.ops[o].p == t.ops[o].p && s.ops[o].p in s.d.heap
    ensures o in s.ops ==> t.ops[o].p in t.d.heap && t.d.heap[t.ops[o].p].id == s.d.heap[s.ops[o].p].id
    ensures o in s.ops ==> s.d.heap[s.ops[o].p].id in s.d.born
    ensures o !in s.ops ==> o == l.o && t.ops[o].p in t.d.heap && t.d.heap[t.ops[o].p].id !in s.d.born
  {
    if o in s.ops {
      StillCreate(s, l, o);
      OldId(s, o);
    } else {
      NewCreate(s, l, o);
    }
  }

  lemma StillCreate(s: State, l: Label, o: OpId)
    requires Enabled(s, l) && o in s.ops && o in Apply(s, l).ops && Apply(s, l).ops[o].Create?
    ensures s.ops[o].Create? && s.ops[o].p == Apply(s, l).ops[o].p
  {
  }

  lemma NewCreate(s: State, l: Label, o: OpId)
    requires Enabled(s, l) && o !in s.ops && o in Apply(s, l).ops && Apply(s, l).ops[o].Create?
    ensures o == l.o && l.a.BeginCreate? && Apply(s, l).ops[o].p == l.a.p
  {
  }

  lemma OldId(s: State, o: OpId)
    requires Inv(s) && o in s.ops && s.ops[o].Create?
    ensures s.ops[o].p in s.d.heap && s.d.heap[s.ops[o].p].id in s.d.born
  {
    assert OpOk(s.d, s.ops[o]);
    assert ObjOk(s.d.kind, s.d.born, s.d.given, s.d.heap[s.ops[o].p]);
  }

  // ---- The calls, one at a time ----------------------------------------------

  lemma {:induction false} BirthOk(d: Data, p: Ptr, e: Env, t: Data)
    requires DataOk(d) && NewEnv(d, p, e)
    requires t == Birth(d, p, e)
    ensures DataOk(t)
    ensures CreateOk(t, e, ToStore)
  {
    BirthTableOk(d, p, e, t);
    forall q | q in t.heap && q != p ensures ObjOk(t.kind, t.born, t.given, t.heap[q]) {
      assert ObjOk(d.kind, d.born, d.given, d.heap[q]);
    }
  }

  lemma BirthTableOk(d: Data, p: Ptr, e: Env, t: Data)
    requires TableOk(d) && p !in d.heap && e.id !in d.born && t == Birth(d, p, e)
    ensures TableOk(t)
  {
    if d.kind.Sql? {
      forall id | id in t.rows ensures ObjOk(Sql, t.born, t.given, FromRow(id, t.rows[id])) {
        assert ObjOk(Sql, d.born, d.given, FromRow(id, d.rows[id]));
      }
    }
  }

  lemma BirthFrame(d: Data, p: Ptr, e: Env, t: Data)
    requires p !in d.heap && e.id !in d.born && forall id :: id in d.home ==> id in d.born
    requires t == Birth(d, p, e)
    ensures Frame(d, t, {})
  {
  }

  lemma TableFrame(d: Data, t: Data, mine: set<Id>)
    requires t == d.(envs := t.envs, rows := t.rows, stored := t.stored)
    requires d.stored <= t.stored <= d.stored + mine && RowsGrow(d.rows, t.rows, d.stored)
    requires forall id :: id in t.envs ==> id in d.envs || id !in d.stored
    requires forall id :: id in t.rows && id in d.rows && id !in mine ==> t.rows[id].status == d.rows[id].status
    ensures Frame(d, t, mine)
  {
  }

  lemma StoreCreateOk(d: Data, p: Ptr, t: Data)
    requires DataOk(d) && p in d.heap && CreateOk(d, d.heap[p], ToStore)
    requires t == StoreCreate(d, p)
    ensures DataOk(t)
    ensures t.heap == d.heap
    ensures CreateOk(t, t.heap[p], ToEngine)
  {
    assert ObjOk(d.kind, d.born, d.given, d.heap[p]);
    if d.kind.Sql? {
      StoreCreateRow(d, p, t);
    } else {
      StoreCreatePointer(d, p, t);
    }
  }

  lemma StoreCreateRow(d: Data, p: Ptr, t: Data)
    requires d.kind.Sql? && TableOk(d) && p in d.heap && ObjOk(Sql, d.born, d.given, d.heap[p])
    requires d.heap[p].containerId.NoContainer? && d.heap[p].status.Creating? && t == StoreCreate(d, p)
    ensures TableOk(t)
  {
    var e := d.heap[p];
    assert ObjOk(Sql, t.born, t.given, FromRow(e.id, t.rows[e.id]));
    assert SqlTableOk(t.rows, t.stored, t.born, t.given);
  }

  lemma StoreCreatePointer(d: Data, p: Ptr, t: Data)
    requires d.kind.Memory? && TableOk(d) && p in d.heap && d.heap[p].id in d.born && t == StoreCreate(d, p)
    ensures TableOk(t)
  {
    assert MemoryTableOk(t.envs, t.heap, t.stored);
  }

  lemma StoreCreateFrame(d: Data, p: Ptr, t: Data)
    requires TableOk(d) && p in d.heap && CreateOk(d, d.heap[p], ToStore)
    requires t == StoreCreate(d, p)
    ensures Frame(d, t, {d.heap[p].id})
  {
    if d.kind.Sql? { assert d.heap[p].id !in d.rows; }
    assert RowsGrow(d.rows, t.rows, d.stored);
    TableFrame(d, t, {d.heap[p].id});
  }

  lemma CreateContainerOk(d: Data, p: Ptr, c: ContainerId, t: Data)
    requires DataOk(d) && p in d.heap && CreateOk(d, d.heap[p], ToEngine) && c.Container? && c !in d.maker
    requires t == CreateContainer(d, d.heap[p].id, c)
    ensures DataOk(t)
    ensures CreateOk(t, t.heap[p], ToPublish(c))
  {
    CreateContainerEngine(d, d.heap[p].id, c, t);
    forall q | q in t.heap ensures ObjOk(t.kind, t.born, t.given, t.heap[q]) {
      assert ObjOk(d.kind, d.born, d.given, d.heap[q]);
    }
  }

  lemma CreateContainerEngine(d: Data, id: Id, c: ContainerId, t: Data)
    requires EngineOk(d.given, d.maker, d.live, d.failedStops) && id !in d.given && c.Container? && c !in d.maker
    requires t == CreateContainer(d, id, c)
    ensures EngineOk(t.given, t.maker, t.live, t.failedStops)
  {
  }

  lemma CreateContainerFrame(d: Data, p: Ptr, c: ContainerId, t: Data)
    requires p in d.heap && CreateOk(d, d.heap[p], ToEngine) && c.Container? && c !in d.maker
    requires t == CreateContainer(d, d.heap[p].id, c)
    ensures Frame(d, t, {d.heap[p].id})
  {
  }

  /** A write that leaves a good object leaves good data. */
  lemma WriteOk(d: Data, p: Ptr, e: Env, t: Data)
    requires DataOk(d) && p in d.heap && e.id == d.heap[p].id && ObjOk(d.kind, d.born, d.given, e)
    requires t == Write(d, p, e)
    ensures DataOk(t)
  {
    forall q | q in t.heap ensures ObjOk(t.kind, t.born, t.given, t.heap[q]) {
      if q != p { assert ObjOk(d.kind, d.born, d.given, d.heap[q]); }
    }
  }

  lemma PublishOk(d: Data, p: Ptr, c: ContainerId, t: Data)
    requires DataOk(d) && p in d.heap && CreateOk(d, d.heap[p], ToPublish(c))
    requires t == Write(d, p, d.heap[p].(containerId := c))
    ensures DataOk(t)
    ensures CreateOk(t, t.heap[p], ToStart(c))
  {
    assert ObjOk(d.kind, d.born, d.given, d.heap[p]);
    WriteOk(d, p, d.heap[p].(containerId := c), t);
  }

  lemma PublishFrame(d: Data, p: Ptr, c: ContainerId, t: Data)
    requires p in d.heap && CreateOk(d, d.heap[p], ToPublish(c))
    requires t == Write(d, p, d.heap[p].(containerId := c))
    ensures Frame(d, t, {d.heap[p].id})
  {
  }

  lemma SetRunningOk(d: Data, p: Ptr, c: ContainerId, t: Data)
    requires DataOk(d) && p in d.heap && CreateOk(d, d.heap[p], ToRun(c))
    requires t == Write(d, p, d.heap[p].(status := Running))
    ensures DataOk(t)
    ensures CreateOk(t, t.heap[p], ToUpdate(c))
  {
    assert ObjOk(d.kind, d.born, d.given, d.heap[p]);
    WriteOk(d, p, d.heap[p].(status := Running), t);
  }

  lemma SetRunningFrame(d: Data, p: Ptr, c: ContainerId, t: Data)
    requires p in d.heap && CreateOk(d, d.heap[p], ToRun(c))
    requires t == Write(d, p, d.heap[p].(status := Running))
    ensures Frame(d, t, {d.heap[p].id})
  {
  }

  lemma WriteLastUsedOk(d: Data, p: Ptr, now: Time, t: Data)
    requires DataOk(d) && p in d.heap && OpOk(d, Touch(p, true))
    requires t == Write(d, p, d.heap[p].(lastUsedAt := now))
    ensures DataOk(t)
    ensures OpOk(t, Touch(p, true))
  {
    assert ObjOk(d.kind, d.born, d.given, d.heap[p]);
    WriteOk(d, p, d.heap[p].(lastUsedAt := now), t);
  }

  lemma WriteLastUsedFrame(d: Data, p: Ptr, now: Time, t: Data)
    requires p in d.heap && OpOk(d, Touch(p, true))
    requires t == Write(d, p, d.heap[p].(lastUsedAt := now))
    ensures Frame(d, t, {})
  {
  }

  lemma StopContainerOk(d: Data, c: ContainerId, ok: bool, t: Data)
    requires DataOk(d) && c in d.maker
    requires t == StopContainer(d, c, ok)
    ensures DataOk(t)
    ensures t.heap == d.heap
    ensures if ok then c !in t.live else c in t.failedStops
  {
  }

  lemma StopContainerFrame(d: Data, c: ContainerId, ok: bool, t: Data)
    requires c in d.maker
    requires t == StopContainer(d, c, ok)
    ensures Frame(d, t, {})
  {
  }

  lemma StoreDeleteOk(d: Data, id: Id, user: UserId, ok: bool, t: Data)
    requires DataOk(d)
    requires t == StoreDelete(d, id, user, ok)
    ensures DataOk(t)
    ensures t.heap == d.heap
  {
  }

  lemma StoreDeleteFrame(d: Data, id: Id, user: UserId, ok: bool, t: Data)
    requires t == StoreDelete(d, id, user, ok)
    ensures Frame(d, t, {})
  {
  }

  /** A stale write is harmless: whoever writes back holds a running copy. */
  lemma StoreUpdateOk(d: Data, p: Ptr, ok: bool, t: Data)
    requires DataOk(d) && p in d.heap && d.heap[p].status.Running?
    requires t == StoreUpdate(d, p, ok)
    ensures DataOk(t)
    ensures t.heap == d.heap
  {
    if ok && UpdateFinds(d, p) {
      var id := d.heap[p].id;
      assert ObjOk(d.kind, d.born, d.given, d.heap[p]);
      assert TableOk(t) by {
        if d.kind.Memory? { assert t.envs == d.envs; }
        else { assert ObjOk(t.kind, t.born, t.given, FromRow(id, t.rows[id])); }
      }
    }
  }

  lemma StoreUpdateFrame(d: Data, p: Ptr, ok: bool, t: Data, mine: set<Id>)
    requires p in d.heap && d.heap[p].status.Running?
    requires var id := d.heap[p].id; id in d.rows && id !in mine ==> d.rows[id].status.Running?
    requires t == StoreUpdate(d, p, ok)
    ensures Frame(d, t, mine)
  {
    if !ok || !UpdateFinds(d, p) {
      AllocationFrame(d, d);
    } else {
      assert RowsGrow(d.rows, t.rows, d.stored);
      TableFrame(d, t, mine);
    }
  }

  lemma LoadedOk(d: Data, id: Id, p: Ptr, t: Data)
    requires DataOk(d) && InTable(d, id) && GetReturns(d, id, p)
    requires t == Loaded(d, id, p)
    ensures DataOk(t)
    ensures p in t.heap
    ensures t.heap[p] == Rec(d, id)
    ensures id in d.stored
    ensures Rec(d, id).id == id
  {
  }

  lemma LoadedFrame(d: Data, id: Id, p: Ptr, t: Data)
    requires InTable(d, id) && GetReturns(d, id, p)
    requires t == Loaded(d, id, p)
    ensures Frame(d, t, {})
  {
    AllocationFrame(d, t);
  }

  /** `t` is `d` with some objects added to the heap. */
  ghost predicate OnlyAllocates(d: Data, t: Data) {
    t == d.(heap := t.heap) && forall p :: p in d.heap ==> p in t.heap && t.heap[p] == d.heap[p]
  }

  lemma AllocationFrame(d: Data, t: Data)
    requires OnlyAllocates(d, t)
    ensures Frame(d, t, {})
  {
  }

  lemma StartFrame(d: Data, c: ContainerId, ok: bool, t: Data)
    requires t == StartContainer(d, c, ok)
    ensures Frame(d, t, {}) && (DataOk(d) ==> DataOk(t))
  {
  }

  lemma {:induction false} LoadAllOk(d: Data, ids: seq<Id>, ps: seq<Ptr>, t: Data)
    requires DataOk(d) && Listed(d, ids, ps)
    requires t == LoadAll(d, ids, ps)
    ensures DataOk(t) && OnlyAllocates(d, t)
    ensures forall i :: 0 <= i < |ps| ==> ps[i] in t.heap && t.heap[ps[i]] == Rec(d, ids[i])
    decreases |ids|
  {
    if ids != [] {
      var u := Loaded(d, ids[0], ps[0]);
      LoadedOk(d, ids[0], ps[0], u);
      ListedTail(d, ids, ps, u);
      LoadAllOk(u, ids[1..], ps[1..], t);
      forall i | 0 <= i < |ps| ensures ps[i] in t.heap && t.heap[ps[i]] == Rec(d, ids[i]) {
        if i > 0 { assert ps[i] == ps[1..][i - 1] && ids[i] == ids[1..][i - 1]; }
      }
    }
  }

  lemma ListedTail(d: Data, ids: seq<Id>, ps: seq<Ptr>, u: Data)
    requires Listed(d, ids, ps) && ids != [] && u == Loaded(d, ids[0], ps[0])
    ensures Listed(u, ids[1..], ps[1..]) && OnlyAllocates(d, u)
    ensures forall i :: 0 <= i < |ids| ==> InTable(u, ids[i]) && Rec(u, ids[i]) == Rec(d, ids[i])
  {
  }

  // ---- Every step keeps the invariant ----------------------------------------

  lemma CreateStepInv(s: State, l: Label)
    requires Inv(s) && Enabled(s, l)
    requires l.a.BeginCreate? || l.a.DoStore? || l.a.DoEngineCreate? || l.a.DoPublish? || l.a.DoStart?
    ensures Inv(Apply(s, l)) && Frame(s.d, Apply(s, l).d, Reach(s, l))
  {
    var d, t := s.d, Apply(s, l);
    if l.a.BeginCreate? {
      BirthOk(d, l.a.p, l.a.env, t.d);
      BirthFrame(d, l.a.p, l.a.env, t.d);
      OthersOk(s, l, t, {});
    } else {
      assert OpOk(d, s.ops[l.o]);
      var p := s.ops[l.o].p;
      var mine := Mine(d, s.ops[l.o]);
      if l.a.DoStore? && l.a.ok {
        StoreCreateOk(d, p, t.d);
        StoreCreateFrame(d, p, t.d);
        OthersOk(s, l, t, mine);
      } else if l.a.DoEngineCreate? && l.a.made.Some? {
        CreateContainerOk(d, p, l.a.made.value, t.d);
        CreateContainerFrame(d, p, l.a.made.value, t.d);
        OthersOk(s, l, t, mine);
      } else if l.a.DoPublish? {
        PublishOk(d, p, s.ops[l.o].pc.c, t.d);
        PublishFrame(d, p, s.ops[l.o].pc.c, t.d);
        OthersOk(s, l, t, mine);
      } else if l.a.DoStart? {
        StartFrame(d, s.ops[l.o].pc.c, l.a.ok, t.d);
        OthersOk(s, l, t, {});
      } else {
        AllocationFrame(d, d);
        OthersOk(s, l, t, {});
      }
    }
  }

  lemma FinishStepInv(s: State, l: Label)
    requires Inv(s) && Enabled(s, l)
    requires l.a.DoRollbackStop? || l.a.DoRollbackDelete? || l.a.DoInject?
    ensures Inv(Apply(s, l)) && Frame(s.d, Apply(s, l).d, Reach(s, l))
  {
    var d, t := s.d, Apply(s, l);
    assert OpOk(d, s.ops[l.o]);
    var p := s.ops[l.o].p;
    match l.a
    case DoRollbackStop(ok) =>
      StopContainerOk(d, s.ops[l.o].pc.c, ok, t.d);
      StopContainerFrame(d, s.ops[l.o].pc.c, ok, t.d);
      OthersOk(s, l, t, {});
    case DoRollbackDelete(ok) =>
      StoreDeleteOk(d, d.heap[p].id, d.heap[p].user, ok, t.d);
      StoreDeleteFrame(d, d.heap[p].id, d.heap[p].user, ok, t.d);
      OthersOk(s, l, t, {});
    case DoInject =>
      AllocationFrame(d, d);
      OthersOk(s, l, t, {});
  }

  lemma RunStepInv(s: State, l: Label)
    requires Inv(s) && Enabled(s, l) && (l.a.DoSetRunning? || l.a.DoFinalUpdate?)
    ensures Inv(Apply(s, l)) && Frame(s.d, Apply(s, l).d, Reach(s, l))
  {
    var d, t := s.d, Apply(s, l);
    assert OpOk(d, s.ops[l.o]);
    var p := s.ops[l.o].p;
    match l.a
    case DoSetRunning =>
      SetRunningOk(d, p, s.ops[l.o].pc.c, t.d);
      SetRunningFrame(d, p, s.ops[l.o].pc.c, t.d);
      OthersOk(s, l, t, Mine(d, s.ops[l.o]));
    case DoFinalUpdate(ok) =>
      StoreUpdateOk(d, p, ok, t.d);
      StoreUpdateFrame(d, p, ok, t.d, Reach(s, l));
      OthersOk(s, l, t, Reach(s, l));
  }

  lemma TeardownStepInv(s: State, l: Label)
    requires Inv(s) && Enabled(s, l)
    requires l.a.DoCheck? || l.a.DoStop? || l.a.DoDelete?
    ensures Inv(Apply(s, l)) && Frame(s.d, Apply(s, l).d, Reach(s, l))
  {
    var d, t := s.d, Apply(s, l);
    assert OpOk(d, s.ops[l.o]);
    match l.a
    case DoCheck =>
      AllocationFrame(d, d);
      OthersOk(s, l, t, {});
    case DoStop(ok) =>
      assert ObjOk(d.kind, d.born, d.given, d.heap[s.ops[l.o].todo[0]]);
      StopContainerOk(d, s.ops[l.o].tpc.c, ok, t.d);
      StopContainerFrame(d, s.ops[l.o].tpc.c, ok, t.d);
      OthersOk(s, l, t, {});
    case DoDelete(ok) =>
      StoreDeleteOk(d, d.heap[s.ops[l.o].todo[0]].id, s.ops[l.o].user, ok, t.d);
      StoreDeleteFrame(d, d.heap[s.ops[l.o].todo[0]].id, s.ops[l.o].user, ok, t.d);
      OthersOk(s, l, t, {});
  }

  lemma ReapStepInv(s: State, l: Label)
    requires Inv(s) && Enabled(s, l) && l.a.BeginReap?
    ensures Inv(Apply(s, l)) && Frame(s.d, Apply(s, l).d, Reach(s, l))
  {
    var d, t := s.d, Apply(s, l);
    LoadAllOk(d, l.a.ids, l.a.ps, t.d);
    AllocationFrame(d, t.d);
    forall p | p in l.a.ps ensures p in t.d.heap && t.d.heap[p].id in t.d.stored {
      var i :| 0 <= i < |l.a.ps| && l.a.ps[i] == p;
      assert InTable(d, l.a.ids[i]);
    }
    OthersOk(s, l, t, {});
  }

  lemma LoadStepInv(s: State, l: Label)
    requires Inv(s) && Enabled(s, l) && (l.a.BeginDestroy? || l.a.BeginTouch?)
    ensures Inv(Apply(s, l)) && Frame(s.d, Apply(s, l).d, Reach(s, l))
  {
    var d, t := s.d, Apply(s, l);
    LoadedOk(d, l.a.id, l.a.p, t.d);
    LoadedFrame(d, l.a.id, l.a.p, t.d);
    OthersOk(s, l, t, {});
  }

  lemma TouchStepInv(s: State, l: Label)
    requires Inv(s) && Enabled(s, l)
    requires l.a.DoWriteLastUsed? || l.a.DoTouchUpdate?
    ensures Inv(Apply(s, l)) && Frame(s.d, Apply(s, l).d, Reach(s, l))
  {
    var d, t := s.d, Apply(s, l);
    assert OpOk(d, s.ops[l.o]);
    var p := s.ops[l.o].p;
    match l.a
    case DoWriteLastUsed(now) =>
      WriteLastUsedOk(d, p, now, t.d);
      WriteLastUsedFrame(d, p, now, t.d);
      OthersOk(s, l, t, {});
    case DoTouchUpdate(ok) =>
      StoreUpdateOk(d, p, ok, t.d);
      StoreUpdateFrame(d, p, ok, t.d, {});
      OthersOk(s, l, t, {});
  }

  lemma TestStepInv(s: State, l: Label)
    requires Inv(s) && Enabled(s, l) && (l.a.DoTest? || l.a.EndTouch?)
    ensures Inv(Apply(s, l)) && Frame(s.d, Apply(s, l).d, Reach(s, l))
  {
    assert OpOk(s.d, s.ops[l.o]);
    AllocationFrame(s.d, s.d);
    OthersOk(s, l, Apply(s, l), {});
  }

  lemma StepInv(s: State, l: Label)
    requires Inv(s) && Enabled(s, l)
    ensures Inv(Apply(s, l)) && Frame(s.d, Apply(s, l).d, Reach(s, l))
  {
    match l.a
    case BeginCreate(_, _) => CreateStepInv(s, l);
    case DoStore(_) => CreateStepInv(s, l);
    case DoEngineCreate(_) => CreateStepInv(s, l);
    case DoPublish => CreateStepInv(s, l);
    case DoStart(_) => CreateStepInv(s, l);
    case DoCheck => TeardownStepInv(s, l);
    case DoStop(_) => TeardownStepInv(s, l);
    case DoDelete(_) => TeardownStepInv(s, l);
    case BeginDestroy(_, _, _) => LoadStepInv(s, l);
    case BeginReap(_, _) => ReapStepInv(s, l);
    case BeginTouch(_, _, _) => LoadStepInv(s, l);
    case DoTest => TestStepInv(s, l);
    case DoWriteLastUsed(_) => TouchStepInv(s, l);
    case DoTouchUpdate(_) => TouchStepInv(s, l);
    case EndTouch => TestStepInv(s, l);
    case DoSetRunning => RunStepInv(s, l);
    case DoFinalUpdate(_) => RunStepInv(s, l);
    case _ => FinishStepInv(s, l);
  }

  /** The invariant holds in every state of every execution. */
  lemma {:induction false} ExecutionInv(kind: Kind, ls: seq<Label>, ss: seq<State>, i: nat)
    requires Execution(kind, ls, ss) && i < |ss|
    ensures Inv(ss[i])
  {
    if i > 0 {
      ExecutionInv(kind, ls, ss, i - 1);
      StepInv(ss[i - 1], ls[i - 1]);
    }
  }
}
