/** What every interleaving guarantees: records never go backwards, and every container
    that nobody accounts for was lost in one of three known ways. */
module LifecycleTheorems {
  import opened Domain
  import opened Lifecycle
  import opened LifecycleInvariant
  import opened Runs

  // ---- Records ----------------------------------------------------------------

  /** How a record may look later on, compared with how it looks now. */
  ghost predicate Progress(now: Env, later: Env) {
    && later.id == now.id && later.user == now.user && later.tenant == now.tenant && later.spec == now.spec
    && later.createdAt == now.createdAt && later.expiresAt == now.expiresAt
    && (now.containerId.Container? ==> later.containerId == now.containerId)
    && (now.status.Running? ==> later.status.Running?)
  }

  /** Only `creating` and `running` are ever stored, and a running record has a container. */
  ghost predicate Sound(e: Env) {
    && (e.status.Creating? || e.status.Running?)
    && (e.status.Running? ==> e.containerId.Container?)
  }

  lemma RecordOk(d: Data, id: Id)
    requires DataOk(d) && InTable(d, id)
    ensures Sound(Rec(d, id)) && id in d.stored && Rec(d, id).id == id
    ensures ObjOk(d.kind, d.born, d.given, Rec(d, id))
  {
  }

  lemma RecordStep(d: Data, t: Data, id: Id)
    requires DataOk(d) && DataOk(t) && Monotone(d, t) && InTable(d, id) && InTable(t, id)
    ensures Progress(Rec(d, id), Rec(t, id))
  {
    RecordOk(d, id);
    RecordOk(t, id);
    if d.kind.Memory? {
      assert d.home[d.heap[d.envs[id]].id] == d.envs[id];
      assert t.home[t.heap[t.envs[id]].id] == t.envs[id];
    }
  }

  lemma NoReturn(d: Data, t: Data, id: Id)
    requires DataOk(d) && Monotone(d, t) && id in d.stored && !InTable(d, id)
    ensures !InTable(t, id) && id in t.stored
  {
  }

  lemma InvAt(kind: Kind, ls: seq<Label>, ss: seq<State>, i: nat)
    requires Execution(kind, ls, ss) && i < |ls|
    ensures Inv(ss[i]) && Inv(ss[i + 1]) && Monotone(ss[i].d, ss[i + 1].d)
  {
    ExecutionInv(kind, ls, ss, i);
    StepInv(ss[i], ls[i]);
  }

  /** Over a whole execution, in either store: a record that is there at two moments only
      made progress, and one that was stored and is gone stays gone. */
  lemma {:induction false} RecordHistory(kind: Kind, ls: seq<Label>, ss: seq<State>, i: nat, j: nat, id: Id)
    requires Execution(kind, ls, ss) && i <= j < |ss|
    ensures InTable(ss[i].d, id) ==> Sound(Rec(ss[i].d, id))
    ensures InTable(ss[i].d, id) && InTable(ss[j].d, id) ==> Progress(Rec(ss[i].d, id), Rec(ss[j].d, id))
    ensures id in ss[i].d.stored && !InTable(ss[i].d, id) ==> !InTable(ss[j].d, id)
    ensures id in ss[i].d.stored ==> id in ss[j].d.stored
    decreases j - i
  {
    ExecutionInv(kind, ls, ss, i);
    if InTable(ss[i].d, id) { RecordOk(ss[i].d, id); }
    if i < j {
      InvAt(kind, ls, ss, i);
      RecordHistory(kind, ls, ss, i + 1, j, id);
      if InTable(ss[i].d, id) {
        if InTable(ss[i + 1].d, id) { RecordStep(ss[i].d, ss[i + 1].d, id); }
      } else if id in ss[i].d.stored {
        NoReturn(ss[i].d, ss[i + 1].d, id);
      }
    }
  }

  // ---- Who accounts for a container --------------------------------------------

  ghost predicate Named(d: Data, c: ContainerId) {
    exists id :: InTable(d, id) && Rec(d, id).containerId == c
  }

  ghost function PcContainer(pc: CreatePc): ContainerId {
    if pc.ToStore? || pc.ToEngine? then NoContainer else pc.c
  }

  /** A pointer through which a teardown is still going to stop `c`. */
  ghost predicate WillStop(d: Data, p: Ptr, c: ContainerId) { p in d.heap && d.heap[p].containerId == c }

  ghost predicate Holds(d: Data, op: Op, c: ContainerId) {
    match op
    case Create(_, pc) => PcContainer(pc) == c
    case Teardown(todo, tpc, _) =>
      || (todo != [] && exists p :: p in todo[1..] && WillStop(d, p, c))
      || (todo != [] && tpc.ToCheck? && WillStop(d, todo[0], c))
      || tpc == ToStop(c)
    case Touch(_, _) => false
  }

  ghost predicate Held(s: State, c: ContainerId) {
    exists o :: o in s.ops && Holds(s.d, s.ops[o], c)
  }

  ghost predicate Accounted(s: State, c: ContainerId) { Named(s.d, c) || Held(s, c) }

  // ---- The three ways to lose one ------------------------------------------------

  /** `StopContainer(c)` failed, now or earlier in the operation that now lets go. */
  ghost predicate ByFailedStop(s: State, l: Label, c: ContainerId)
    requires Enabled(s, l)
  {
    && c in Apply(s, l).d.failedStops
    && ((l.a.DoStop? && !l.a.ok && s.ops[l.o].tpc == ToStop(c))
        || (l.a.DoDelete? && s.ops[l.o].tpc == ToDelete(StopTried(c, false)))
        || (l.a.DoRollbackDelete? && s.ops[l.o].pc == ToRollbackDelete(c, true)))
  }

  /** The last `Update` of the create that made `c` failed or found no record. */
  ghost predicate ByLostUpdate(s: State, l: Label, c: ContainerId)
    requires Enabled(s, l)
  {
    && l.a.DoFinalUpdate? && s.ops[l.o].pc == ToUpdate(c)
    && (!l.a.ok || !UpdateFinds(s.d, s.ops[l.o].p))
  }

  /** A destroy or reap that saw no container ID deletes the record that now names `c`. */
  ghost predicate ByEmptyRead(s: State, l: Label, c: ContainerId)
    requires Enabled(s, l)
  {
    && l.a.DoDelete? && l.a.ok && s.ops[l.o].tpc == ToDelete(ReadEmpty)
    && var id := s.d.heap[s.ops[l.o].todo[0]].id; InTable(s.d, id) && Rec(s.d, id).containerId == c
  }

  ghost predicate ExactlyOneCause(s: State, l: Label, c: ContainerId)
    requires Enabled(s, l)
  {
    var a, b, e := ByFailedStop(s, l, c), ByLostUpdate(s, l, c), ByEmptyRead(s, l, c);
    (a && !b && !e) || (!a && b && !e) || (!a && !b && e)
  }

  // ---- A name is lost only by deletion -------------------------------------------

  ghost predicate NamedByMaker(d: Data, c: ContainerId) {
    c in d.maker && InTable(d, d.maker[c]) && Rec(d, d.maker[c]).containerId == c
  }

  lemma NamedIff(d: Data, c: ContainerId)
    requires DataOk(d) && c.Container?
    ensures Named(d, c) <==> NamedByMaker(d, c)
  {
    forall id | InTable(d, id) && Rec(d, id).containerId == c ensures NamedByMaker(d, c) {
      RecordOk(d, id);
    }
  }

  /** Deletes that a label performs on the record `id`. */
  ghost predicate Deletes(s: State, l: Label, id: Id)
    requires Enabled(s, l)
  {
    || (l.a.DoDelete? && l.a.ok && s.d.heap[s.ops[l.o].todo[0]].id == id)
    || (l.a.DoRollbackDelete? && l.a.ok && s.d.heap[s.ops[l.o].p].id == id)
  }

  lemma LoadAllData(d: Data, ids: seq<Id>, ps: seq<Ptr>)
    requires |ids| == |ps|
    ensures LoadAll(d, ids, ps) == d.(heap := LoadAll(d, ids, ps).heap)
    decreases |ids|
  {
  }

  /** From `d` to `t` no record and no container was added or taken away. */
  ghost predicate Keeps(d: Data, t: Data) {
    t.envs == d.envs && t.rows == d.rows && t.stored == d.stored && t.maker == d.maker
  }

  lemma StopKeeps(d: Data, c: ContainerId, ok: bool)
    ensures Keeps(d, StopContainer(d, c, ok))
  {
  }

  lemma StopStep(s: State, l: Label)
    requires Enabled(s, l) && (l.a.DoStop? || l.a.DoRollbackStop?)
    ensures Keeps(s.d, Effect(s, l))
  {
    var c := if l.a.DoStop? then s.ops[l.o].tpc.c else s.ops[l.o].pc.c;
    assert Effect(s, l) == StopContainer(s.d, c, l.a.ok);
    StopKeeps(s.d, c, l.a.ok);
  }

  lemma ReapKeeps(s: State, l: Label)
    requires Enabled(s, l) && l.a.BeginReap?
    ensures Keeps(s.d, Effect(s, l))
  {
    LoadAllData(s.d, l.a.ids, l.a.ps);
  }

  /** Steps that only read, write objects or take note. */
  predicate Tableless(a: Action) {
    || a.BeginCreate? || a.DoPublish? || a.DoStart? || a.DoInject? || a.DoSetRunning? || a.BeginDestroy?
    || a.DoCheck? || a.BeginTouch? || a.DoTest? || a.DoWriteLastUsed? || a.EndTouch?
  }

  lemma TablelessStep(s: State, l: Label)
    requires Enabled(s, l) && Tableless(l.a)
    ensures Keeps(s.d, Effect(s, l))
  {
  }

  lemma DeleteKeeps(d: Data, id: Id, user: UserId, ok: bool)
    ensures StoreDelete(d, id, user, ok).stored == d.stored && StoreDelete(d, id, user, ok).maker == d.maker
  {
  }

  lemma DeleteStep(s: State, l: Label)
    requires Enabled(s, l) && (l.a.DoDelete? || l.a.DoRollbackDelete?)
    ensures Effect(s, l).stored == s.d.stored && Effect(s, l).maker == s.d.maker
  {
    var e := s.d.heap[if l.a.DoDelete? then s.ops[l.o].todo[0] else s.ops[l.o].p];
    var user := if l.a.DoDelete? then s.ops[l.o].user else e.user;
    assert Effect(s, l) == StoreDelete(s.d, e.id, user, l.a.ok);
    DeleteKeeps(s.d, e.id, user, l.a.ok);
  }

  ghost predicate KeysKept(d: Data, t: Data) { d.envs.Keys <= t.envs.Keys && d.rows.Keys <= t.rows.Keys }

  lemma UpdateKeeps(d: Data, p: Ptr, ok: bool)
    requires p in d.heap
    ensures var t := StoreUpdate(d, p, ok); KeysKept(d, t) && t.stored == d.stored && t.maker == d.maker
  {
  }

  lemma UpdateStep(s: State, l: Label)
    requires Enabled(s, l) && (l.a.DoFinalUpdate? || l.a.DoTouchUpdate?)
    ensures KeysKept(s.d, Effect(s, l)) && Effect(s, l).stored == s.d.stored && Effect(s, l).maker == s.d.maker
  {
    assert Effect(s, l) == StoreUpdate(s.d, s.ops[l.o].p, l.a.ok);
    UpdateKeeps(s.d, s.ops[l.o].p, l.a.ok);
  }

  lemma NewStep(s: State, l: Label)
    requires Enabled(s, l) && (l.a.DoStore? || l.a.DoEngineCreate?)
    ensures KeysKept(s.d, Effect(s, l))
    ensures l.a.DoStore? || Effect(s, l).stored == s.d.stored
    ensures l.a.DoEngineCreate? || Effect(s, l).maker == s.d.maker
  {
  }

  lemma TableStep(s: State, l: Label)
    requires Enabled(s, l)
    ensures l.a.DoDelete? || l.a.DoRollbackDelete? || KeysKept(s.d, Effect(s, l))
    ensures l.a.DoStore? || Effect(s, l).stored == s.d.stored
    ensures l.a.DoEngineCreate? || Effect(s, l).maker == s.d.maker
  {
    if Tableless(l.a) {
      TablelessStep(s, l);
    } else if l.a.BeginReap? {
      ReapKeeps(s, l);
    } else if l.a.DoStop? || l.a.DoRollbackStop? {
      StopStep(s, l);
    } else if l.a.DoDelete? || l.a.DoRollbackDelete? {
      DeleteStep(s, l);
    } else if l.a.DoFinalUpdate? || l.a.DoTouchUpdate? {
      UpdateStep(s, l);
    } else {
      NewStep(s, l);
    }
  }

  lemma TableLoss(s: State, l: Label, id: Id)
    requires Enabled(s, l) && DataOk(Effect(s, l)) && Effect(s, l).kind == s.d.kind
    requires InTable(s.d, id) && !InTable(Effect(s, l), id)
    ensures Deletes(s, l, id)
  {
    if l.a.DoDelete? || l.a.DoRollbackDelete? {
      var e := s.d.heap[if l.a.DoDelete? then s.ops[l.o].todo[0] else s.ops[l.o].p];
      var user := if l.a.DoDelete? then s.ops[l.o].user else e.user;
      assert Effect(s, l) == StoreDelete(s.d, e.id, user, l.a.ok);
      DeletesOnly(s.d, e.id, user, l.a.ok, id);
    } else {
      TableStep(s, l);
      StillInTable(s.d, Effect(s, l), id);
    }
  }

  lemma DeletesOnly(d: Data, id: Id, user: UserId, ok: bool, other: Id)
    requires InTable(d, other) && !InTable(StoreDelete(d, id, user, ok), other)
    ensures ok && id == other
  {
  }

  lemma StillInTable(d: Data, t: Data, id: Id)
    requires KeysKept(d, t) && TableOk(t) && t.kind == d.kind && InTable(d, id)
    ensures InTable(t, id)
  {
  }

  /** A named container whose record survives the step is still named. */
  lemma NameKept(s: State, l: Label, c: ContainerId)
    requires Inv(s) && Enabled(s, l) && c.Container? && Named(s.d, c) && !Named(Apply(s, l).d, c)
    ensures c in s.d.maker && InTable(s.d, s.d.maker[c]) && Rec(s.d, s.d.maker[c]).containerId == c
    ensures Deletes(s, l, s.d.maker[c])
  {
    var t := Apply(s, l).d;
    StepInv(s, l);
    NamedIff(s.d, c);
    var id := s.d.maker[c];
    if InTable(t, id) {
      RecordStep(s.d, t, id);
    } else {
      TableLoss(s, l, id);
    }
  }

  lemma DeleteCause(s: State, l: Label, id: Id, c: ContainerId)
    requires Enabled(s, l) && c.Container? && c in Apply(s, l).d.live
    requires l.o in s.ops && OpOk(s.d, s.ops[l.o]) && Given(s.d, id, c)
    requires InTable(s.d, id) && Rec(s.d, id).containerId == c && Deletes(s, l, id)
    ensures ByFailedStop(s, l, c) || ByEmptyRead(s, l, c)
  {
    if l.a.DoDelete? {
      assert s.ops[l.o].tpc.why.StopTried? ==> s.ops[l.o].tpc.why.c == c;
    } else {
      assert s.ops[l.o].pc.c == c;
    }
  }

  // ---- A hold is lost only by finishing --------------------------------------------

  lemma HoldsKept(d: Data, t: Data, op: Op, c: ContainerId)
    requires Monotone(d, t) && c.Container? && Holds(d, op, c)
    ensures Holds(t, op, c)
  {
    if op.Teardown? && op.todo != [] && exists p :: p in op.todo[1..] && WillStop(d, p, c) {
      var p :| p in op.todo[1..] && WillStop(d, p, c);
      assert WillStop(t, p, c);
    }
  }

  /** A create lets go of its live container only by finishing. */
  lemma CreateLets(s: State, l: Label, c: ContainerId)
    requires Enabled(s, l) && c.Container? && c in Apply(s, l).d.live
    requires l.o in s.ops && s.ops[l.o].Create? && OpOk(s.d, s.ops[l.o]) && PcContainer(s.ops[l.o].pc) == c
    requires After(s, l).Some? ==> PcContainer(After(s, l).value.pc) != c
    ensures ByFailedStop(s, l, c) || (l.a.DoFinalUpdate? && s.ops[l.o].pc == ToUpdate(c))
  {
  }

  lemma TailStillHeld(s: State, l: Label, p: Ptr, c: ContainerId)
    requires Enabled(s, l) && l.o in s.ops && s.ops[l.o].Teardown? && s.ops[l.o].todo != []
    requires p in s.ops[l.o].todo[1..] && WillStop(Apply(s, l).d, p, c)
    ensures After(s, l).Some? && Holds(Apply(s, l).d, After(s, l).value, c)
  {
    if l.a.DoDelete? {
      var rest := s.ops[l.o].todo[1..];
      if p != rest[0] { assert p in rest[1..]; }
    }
  }

  lemma TeardownLets(s: State, l: Label, c: ContainerId)
    requires Enabled(s, l) && c.Container? && c in Apply(s, l).d.live && Monotone(s.d, Apply(s, l).d)
    requires l.o in s.ops && s.ops[l.o].Teardown? && OpOk(s.d, s.ops[l.o]) && Holds(s.d, s.ops[l.o], c)
    requires After(s, l).Some? ==> !Holds(Apply(s, l).d, After(s, l).value, c)
    ensures ByFailedStop(s, l, c)
  {
    var op := s.ops[l.o];
    if p :| p in op.todo[1..] && WillStop(s.d, p, c) {
      TailStillHeld(s, l, p, c);
    }
  }

  lemma UpdateNames(s: State, l: Label, c: ContainerId)
    requires Enabled(s, l) && l.a.DoFinalUpdate? && s.ops[l.o].pc == ToUpdate(c) && OpOk(s.d, s.ops[l.o])
    requires l.a.ok && UpdateFinds(s.d, s.ops[l.o].p)
    ensures Named(Apply(s, l).d, c)
  {
    var t, id := Apply(s, l).d, s.d.heap[s.ops[l.o].p].id;
    assert InTable(t, id) && Rec(t, id).containerId == c;
  }

  lemma OtherHolds(s: State, l: Label, o: OpId, c: ContainerId)
    requires Enabled(s, l) && c.Container? && Monotone(s.d, Apply(s, l).d)
    requires o != l.o && o in s.ops && Holds(s.d, s.ops[o], c)
    ensures Accounted(Apply(s, l), c)
  {
    HoldsKept(s.d, Apply(s, l).d, s.ops[o], c);
    assert o in Apply(s, l).ops;
  }

  lemma HolderLets(s: State, l: Label, o: OpId, c: ContainerId)
    requires Enabled(s, l) && c.Container? && c in Apply(s, l).d.live && Monotone(s.d, Apply(s, l).d)
    requires o in s.ops && OpOk(s.d, s.ops[o]) && Holds(s.d, s.ops[o], c) && !Accounted(Apply(s, l), c)
    ensures ByFailedStop(s, l, c) || ByLostUpdate(s, l, c)
  {
    var t := Apply(s, l);
    if o != l.o {
      OtherHolds(s, l, o, c);
    } else {
      if After(s, l).Some? { assert !Holds(t.d, t.ops[o], c); }
      if s.ops[o].Teardown? {
        TeardownLets(s, l, c);
      } else {
        CreateLets(s, l, c);
        if l.a.DoFinalUpdate? && l.a.ok && UpdateFinds(s.d, s.ops[o].p) { UpdateNames(s, l, c); }
      }
    }
  }

  lemma CausesExclude(s: State, l: Label, c: ContainerId)
    requires Enabled(s, l) && (ByFailedStop(s, l, c) || ByLostUpdate(s, l, c) || ByEmptyRead(s, l, c))
    ensures ExactlyOneCause(s, l, c)
  {
  }

  lemma LiveIsReal(d: Data, c: ContainerId)
    requires DataOk(d) && (c in d.live || c in d.maker)
    ensures c in d.maker && c.Container? && Given(d, d.maker[c], c)
  {
    assert c in d.maker;
  }

  lemma OpAt(s: State, o: OpId)
    requires Inv(s) && o in s.ops
    ensures OpOk(s.d, s.ops[o])
  {
  }

  /** The step in which a live container stops being accounted for has exactly one cause. */
  lemma OrphanStep(s: State, l: Label, c: ContainerId)
    requires Inv(s) && Enabled(s, l) && c in Apply(s, l).d.live
    requires Accounted(s, c) && !Accounted(Apply(s, l), c)
    ensures ExactlyOneCause(s, l, c)
  {
    StepInv(s, l);
    LiveIsReal(Apply(s, l).d, c);
    if Named(s.d, c) {
      NameKept(s, l, c);
      LiveIsReal(s.d, c);
      OpAt(s, l.o);
      DeleteCause(s, l, s.d.maker[c], c);
    } else {
      var o :| o in s.ops && Holds(s.d, s.ops[o], c);
      OpAt(s, o);
      HolderLets(s, l, o, c);
    }
    CausesExclude(s, l, c);
  }

  // ---- Once lost, always lost ------------------------------------------------------

  /** A create whose environment was given `c` holds it. */
  lemma MakerHolds(s: State, o: OpId, id: Id, c: ContainerId)
    requires o in s.ops && OpOk(s.d, s.ops[o]) && id in Mine(s.d, s.ops[o]) && Given(s.d, id, c) && c.Container?
    ensures Held(s, c)
  {
    assert Holds(s.d, s.ops[o], c);
  }

  /** An object gains the ID of a known container only from the create that holds it. */
  lemma NewCid(s: State, t: Data, p: Ptr, c: ContainerId, mine: set<Id>)
    requires Inv(s) && DataOk(t) && Frame(s.d, t, mine) && c.Container? && c in s.d.maker && p in s.d.heap
    requires WillStop(t, p, c) && !WillStop(s.d, p, c)
    ensures s.d.heap[p].id in mine && Given(s.d, s.d.heap[p].id, c)
  {
    assert ObjOk(t.kind, t.born, t.given, t.heap[p]);
  }

  /** A record gains the ID of a known container only from the create that holds it. */
  lemma NewName(s: State, t: Data, c: ContainerId, mine: set<Id>)
    requires Inv(s) && DataOk(t) && Frame(s.d, t, mine) && c.Container? && c in s.d.maker
    requires NamedByMaker(t, c) && !NamedByMaker(s.d, c)
    ensures s.d.maker[c] in mine && Given(s.d, s.d.maker[c], c)
  {
    var d, id := s.d, s.d.maker[c];
    assert InTable(d, id);
    RecordOk(d, id);
    RecordOk(t, id);
    if d.kind.Memory? {
      assert d.home[d.heap[d.envs[id]].id] == d.envs[id];
      assert t.home[t.heap[t.envs[id]].id] == t.envs[id];
      NewCid(s, t, d.envs[id], c, mine);
    }
  }

  lemma HoldsBack(d: Data, t: Data, op: Op, c: ContainerId)
    requires Holds(t, op, c)
    requires op.Teardown? ==> forall p :: p in op.todo && WillStop(t, p, c) ==> WillStop(d, p, c)
    ensures Holds(d, op, c)
  {
    if op.Teardown? && op.todo != [] {
      assert forall p :: p in op.todo[1..] ==> p in op.todo;
    }
  }

  lemma OtherHeldBefore(s: State, t: Data, o: OpId, c: ContainerId, mine: set<Id>)
    requires Inv(s) && DataOk(t) && Frame(s.d, t, mine) && c.Container? && c in s.d.maker
    requires o in s.ops && Holds(t, s.ops[o], c) && s.d.maker[c] !in mine
    ensures Holds(s.d, s.ops[o], c)
  {
    var op := s.ops[o];
    assert OpOk(s.d, op);
    if op.Teardown? {
      forall p | p in op.todo && WillStop(t, p, c) ensures WillStop(s.d, p, c) {
        if !WillStop(s.d, p, c) { NewCid(s, t, p, c, mine); }
      }
    }
    HoldsBack(s.d, t, op, c);
  }

  lemma StepperHeldBefore(s: State, l: Label, c: ContainerId)
    requires Enabled(s, l) && c.Container? && c in s.d.maker
    requires l.o in s.ops && After(s, l).Some? && Holds(Apply(s, l).d, After(s, l).value, c)
    ensures Holds(Apply(s, l).d, s.ops[l.o], c)
  {
    if s.ops[l.o].Teardown? {
      var todo := s.ops[l.o].todo;
      if l.a.DoDelete? {
        assert forall p :: p in todo[1..][1..] ==> p in todo[1..];
        assert todo[1..][0] in todo[1..];
      }
    }
  }

  /** What a new teardown will stop is named by the store. */
  lemma DestroyHolds(s: State, l: Label, c: ContainerId)
    requires Enabled(s, l) && l.a.BeginDestroy? && c.Container?
    requires Holds(Apply(s, l).d, After(s, l).value, c)
    ensures Named(s.d, c)
  {
    assert InTable(s.d, l.a.id) && Rec(s.d, l.a.id).containerId == c;
  }

  lemma ReapHolds(d: Data, ids: seq<Id>, ps: seq<Ptr>, c: ContainerId)
    requires DataOk(d) && Listed(d, ids, ps)
    requires exists i :: 0 <= i < |ps| && WillStop(LoadAll(d, ids, ps), ps[i], c)
    ensures Named(d, c)
  {
    var t := LoadAll(d, ids, ps);
    LoadAllOk(d, ids, ps, t);
    var i :| 0 <= i < |ps| && WillStop(t, ps[i], c);
    assert Rec(d, ids[i]).containerId == c;
  }

  lemma SomePtr(d: Data, ps: seq<Ptr>, c: ContainerId)
    requires Holds(d, Teardown(ps, ToCheck, Anyone), c)
    ensures exists i :: 0 <= i < |ps| && WillStop(d, ps[i], c)
  {
    if !WillStop(d, ps[0], c) {
      var p :| p in ps[1..] && WillStop(d, p, c);
      var i :| 0 <= i < |ps| && ps[i] == p;
    }
  }

  lemma BeginHolds(s: State, l: Label, c: ContainerId)
    requires Inv(s) && Enabled(s, l) && c.Container? && l.o !in s.ops
    requires After(s, l).Some? && Holds(Apply(s, l).d, After(s, l).value, c)
    ensures Named(s.d, c)
  {
    if l.a.BeginDestroy? { DestroyHolds(s, l, c); }
    if l.a.BeginReap? {
      SomePtr(Apply(s, l).d, l.a.ps, c);
      ReapHolds(s.d, l.a.ids, l.a.ps, c);
    }
  }

  lemma NotHeldLater(s: State, l: Label, o: OpId, c: ContainerId)
    requires Inv(s) && Enabled(s, l) && c.Container? && c in s.d.maker && !Accounted(s, c)
    requires DataOk(Apply(s, l).d) && Frame(s.d, Apply(s, l).d, Reach(s, l)) && s.d.maker[c] !in Reach(s, l)
    requires o in Apply(s, l).ops
    ensures !Holds(Apply(s, l).d, Apply(s, l).ops[o], c)
  {
    var t := Apply(s, l);
    if Holds(t.d, t.ops[o], c) {
      if o !in s.ops {
        BeginHolds(s, l, c);
      } else {
        if o == l.o { StepperHeldBefore(s, l, c); }
        OtherHeldBefore(s, t.d, o, c, Reach(s, l));
      }
    }
  }

  /** A known container that nobody accounts for never comes back. */
  lemma OrphanForever(s: State, l: Label, c: ContainerId)
    requires Inv(s) && Enabled(s, l) && c in s.d.maker && !Accounted(s, c)
    ensures c in Apply(s, l).d.maker && !Accounted(Apply(s, l), c)
  {
    var t := Apply(s, l);
    StepInv(s, l);
    LiveIsReal(s.d, c);
    if s.d.maker[c] in Reach(s, l) {
      OpAt(s, l.o);
      MakerHolds(s, l.o, s.d.maker[c], c);
    } else {
      NamedIff(s.d, c);
      NamedIff(t.d, c);
      if NamedByMaker(t.d, c) { NewName(s, t.d, c, Reach(s, l)); }
      forall o | o in t.ops ensures !Holds(t.d, t.ops[o], c) { NotHeldLater(s, l, o, c); }
    }
  }

  // ---- Over whole executions ---------------------------------------------------------

  lemma {:induction false} LostForever(kind: Kind, ls: seq<Label>, ss: seq<State>, i: nat, j: nat, c: ContainerId)
    requires Execution(kind, ls, ss) && i <= j < |ss| && c in ss[i].d.maker && !Accounted(ss[i], c)
    ensures !Accounted(ss[j], c)
    decreases j - i
  {
    if i < j {
      ExecutionInv(kind, ls, ss, i);
      OrphanForever(ss[i], ls[i], c);
      LostForever(kind, ls, ss, i + 1, j, c);
    }
  }

  /** The step `i` lost the container `c`. */
  ghost predicate LostAt(ss: seq<State>, i: nat, c: ContainerId)
    requires i + 1 < |ss|
  {
    Accounted(ss[i], c) && !Accounted(ss[i + 1], c)
  }

  lemma NewIsHeld(s: State, l: Label, c: ContainerId)
    requires Enabled(s, l) && c in Effect(s, l).maker && c !in s.d.maker
    ensures Accounted(Apply(s, l), c)
  {
    if !l.a.DoEngineCreate? {
      TableStep(s, l);
    } else {
      assert Holds(Apply(s, l).d, Apply(s, l).ops[l.o], c);
    }
  }

  /** The last step before a state with an orphan lost it, or found it lost. */
  lemma LastStep(s: State, l: Label, c: ContainerId)
    requires Inv(s) && Enabled(s, l) && c in Apply(s, l).d.live && !Accounted(Apply(s, l), c)
    ensures c.Container? && c in Apply(s, l).d.maker
    ensures if Accounted(s, c) then ExactlyOneCause(s, l, c) else c in s.d.live
  {
    StepInv(s, l);
    LiveIsReal(Apply(s, l).d, c);
    if Accounted(s, c) {
      OrphanStep(s, l, c);
    } else if c !in s.d.maker {
      NewIsHeld(s, l, c);
    }
  }

  lemma {:induction false} FindLoss(kind: Kind, ls: seq<Label>, ss: seq<State>, n: nat, c: ContainerId)
      returns (i: nat)
    requires Execution(kind, ls, ss) && n < |ss| && c in ss[n].d.live && !Accounted(ss[n], c)
    ensures i < n && LostAt(ss, i, c) && Enabled(ss[i], ls[i]) && ExactlyOneCause(ss[i], ls[i], c)
    ensures c.Container? && c in ss[i + 1].d.maker
  {
    if n == 0 {
      assert false;
    } else {
      ExecutionInv(kind, ls, ss, n - 1);
      LastStep(ss[n - 1], ls[n - 1], c);
      if Accounted(ss[n - 1], c) {
        i := n - 1;
      } else {
        i := FindLoss(kind, ls, ss, n - 1, c);
      }
    }
  }

  /** Every live container that neither a record names nor an operation in flight holds was
      lost by exactly one step, for exactly one of the three causes. */
  lemma OrphansExplained(kind: Kind, ls: seq<Label>, ss: seq<State>, n: nat, c: ContainerId)
      returns (i: nat)
    requires Execution(kind, ls, ss) && n < |ss| && c in ss[n].d.live && !Accounted(ss[n], c)
    ensures i < n && LostAt(ss, i, c) && ExactlyOneCause(ss[i], ls[i], c)
    ensures forall j: nat :: j + 1 < |ss| && LostAt(ss, j, c) ==> j == i
  {
    i := FindLoss(kind, ls, ss, n, c);
    LostOnce(kind, ls, ss, i, c);
  }

  lemma LostOnce(kind: Kind, ls: seq<Label>, ss: seq<State>, i: nat, c: ContainerId)
    requires Execution(kind, ls, ss) && i + 1 < |ss| && LostAt(ss, i, c)
    requires c in ss[i + 1].d.maker && c.Container?
    ensures forall j: nat :: j + 1 < |ss| && LostAt(ss, j, c) ==> j == i
  {
    forall j: nat | j + 1 < |ss| && LostAt(ss, j, c) ensures j == i {
      if i < j { LostForever(kind, ls, ss, i + 1, j, c); }
      if j < i {
        AccountedIsKnown(kind, ls, ss, j, c);
        LostForever(kind, ls, ss, j + 1, i, c);
      }
    }
  }

  lemma AccountedIsKnown(kind: Kind, ls: seq<Label>, ss: seq<State>, j: nat, c: ContainerId)
    requires Execution(kind, ls, ss) && j + 1 < |ss| && Accounted(ss[j], c) && c.Container?
    ensures c in ss[j + 1].d.maker
  {
    InvAt(kind, ls, ss, j);
    NamedIff(ss[j].d, c);
    if !Named(ss[j].d, c) {
      var o :| o in ss[j].ops && Holds(ss[j].d, ss[j].ops[o], c);
      HoldsKnown(ss[j], o, c);
    }
  }

  lemma HoldsKnown(s: State, o: OpId, c: ContainerId)
    requires Inv(s) && o in s.ops && Holds(s.d, s.ops[o], c) && c.Container?
    ensures c in s.d.maker
  {
    assert OpOk(s.d, s.ops[o]);
    if s.ops[o].Teardown? {
      forall p | p in s.d.heap && s.d.heap[p].containerId == c ensures c in s.d.maker {
        assert ObjOk(s.d.kind, s.d.born, s.d.given, s.d.heap[p]);
      }
    }
  }

  // ---- A teardown leaves nothing behind -------------------------------------------------

  /** After a delete that met no I/O error the record is gone, whether it was found or not. */
  lemma DeleteRemoves(s: State, l: Label)
    requires Inv(s) && Enabled(s, l) && l.a.DoDelete? && l.a.ok
    ensures !InTable(Effect(s, l), s.d.heap[s.ops[l.o].todo[0]].id)
  {
    assert OpOk(s.d, s.ops[l.o]);
    var p := s.ops[l.o].todo[0];
    var id := s.d.heap[p].id;
    assert ObjOk(s.d.kind, s.d.born, s.d.given, s.d.heap[p]);
    if InTable(s.d, id) { RecordOk(s.d, id); }
  }

  lemma IdKept(d: Data, t: Data, p: Ptr)
    requires Monotone(d, t) && p in d.heap
    ensures p in t.heap && t.heap[p].id == d.heap[p].id
    ensures d.heap[p].id in d.stored ==> d.heap[p].id in t.stored
  {
  }

  lemma HeadStored(s: State, o: OpId, p: Ptr)
    requires Inv(s) && o in s.ops && s.ops[o].Teardown? && p in s.ops[o].todo
    ensures p in s.d.heap && s.d.heap[p].id in s.d.stored
  {
    assert OpOk(s.d, s.ops[o]);
  }

  /** No delete of operation `o` meets an I/O error between `i` and `j`. */
  ghost predicate DeletesWork(ls: seq<Label>, i: nat, j: nat, o: OpId)
    requires j <= |ls|
  {
    forall m :: i <= m < j && ls[m].o == o && ls[m].a.DoDelete? ==> ls[m].a.ok
  }

  ghost predicate ToDo(s: State, o: OpId, p: Ptr) { o in s.ops && s.ops[o].Teardown? && p in s.ops[o].todo }

  ghost predicate Gone(s: State, id: Id) { id in s.d.stored && !InTable(s.d, id) }

  /** A teardown step keeps a record on its list or removes it, and what is gone stays gone. */
  lemma TeardownStep(s: State, l: Label, t: State, o: OpId, p: Ptr, id: Id)
    requires Inv(s) && Enabled(s, l) && t == Apply(s, l) && Monotone(s.d, t.d) && p in s.d.heap && s.d.heap[p].id == id
    requires l.o == o && l.a.DoDelete? ==> l.a.ok
    ensures p in t.d.heap && t.d.heap[p].id == id
    ensures ToDo(s, o, p) ==> ToDo(t, o, p) || Gone(t, id)
    ensures Gone(s, id) ==> Gone(t, id)
  {
    IdKept(s.d, t.d, p);
    if Gone(s, id) {
      NoReturn(s.d, t.d, id);
    }
    if ToDo(s, o, p) {
      HeadStored(s, o, p);
      if l.o == o && l.a.DoDelete? && p == s.ops[o].todo[0] {
        DeleteRemoves(s, l);
      } else {
        TodoKept(s, l, o, p);
      }
    }
  }

  /** When a destroy or a reap pass is over and its deletes worked, every record it listed
      is gone, and by `RecordHistory` for good. */
  lemma TeardownComplete(kind: Kind, ls: seq<Label>, ss: seq<State>, i: nat, j: nat, o: OpId, p: Ptr)
    requires Execution(kind, ls, ss) && i <= j < |ss|
    requires o in ss[i].ops && ss[i].ops[o].Teardown? && p in ss[i].ops[o].todo
    requires o !in ss[j].ops && DeletesWork(ls, i, j, o)
    ensures p in ss[i].d.heap && !InTable(ss[j].d, ss[i].d.heap[p].id)
  {
    ExecutionInv(kind, ls, ss, i);
    HeadStored(ss[i], o, p);
    var id := ss[i].d.heap[p].id;
    var holds := seq(|ss|, n requires 0 <= n < |ss| => OnTheWay(ss[n], o, p, id));
    forall n | i <= n < j && OnTheWay(ss[n], o, p, id)
      ensures OnTheWay(ss[n + 1], o, p, id)
    {
      InvAt(kind, ls, ss, n);
      TeardownStep(ss[n], ls[n], ss[n + 1], o, p, id);
    }
    Persists(holds, i, j);
    assert OnTheWay(ss[j], o, p, id);
  }

  ghost predicate OnTheWay(s: State, o: OpId, p: Ptr, id: Id) {
    p in s.d.heap && s.d.heap[p].id == id && (ToDo(s, o, p) || Gone(s, id))
  }

  lemma TodoKept(s: State, l: Label, o: OpId, p: Ptr)
    requires Enabled(s, l) && o in s.ops && s.ops[o].Teardown? && p in s.ops[o].todo
    requires !(l.o == o && l.a.DoDelete? && p == s.ops[o].todo[0])
    ensures o in Apply(s, l).ops && Apply(s, l).ops[o].Teardown? && p in Apply(s, l).ops[o].todo
  {
  }
}
