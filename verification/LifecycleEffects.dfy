/** What the protocol brings about, beyond what it keeps: a running record's container was
    started, a completed create shows, and a touch is recorded. */
module LifecycleEffects {
  import opened Domain
  import opened Lifecycle
  import opened LifecycleInvariant
  import opened LifecycleTheorems
  import opened LifecycleCauses
  import opened Runs

  // ---- Running means started -----------------------------------------------------------

  ghost predicate Backed(e: Env, started: set<ContainerId>) { e.status.Running? ==> e.containerId in started }

  ghost predicate HeapBacked(heap: map<Ptr, Env>, started: set<ContainerId>) {
    forall p :: p in heap ==> Backed(heap[p], started)
  }

  ghost predicate RowsBacked(rows: map<Id, Row>, started: set<ContainerId>) {
    forall id :: id in rows ==> Backed(FromRow(id, rows[id]), started)
  }

  ghost predicate DataBacked(d: Data) { HeapBacked(d.heap, d.started) && RowsBacked(d.rows, d.started) }

  /** The create is past a successful start. */
  ghost predicate PcBacked(pc: CreatePc, started: set<ContainerId>) {
    pc.ToInject? || pc.ToRun? || pc.ToUpdate? ==> pc.c in started
  }

  ghost predicate OpsBacked(ops: map<OpId, Op>, started: set<ContainerId>) {
    forall o :: o in ops && ops[o].Create? ==> PcBacked(ops[o].pc, started)
  }

  ghost predicate AllBacked(s: State) { DataBacked(s.d) && OpsBacked(s.ops, s.d.started) }

  lemma RecBacked(d: Data, id: Id)
    requires DataBacked(d) && InTable(d, id)
    ensures Backed(Rec(d, id), d.started)
  {
  }

  lemma {:induction false} LoadAllBacked(d: Data, ids: seq<Id>, ps: seq<Ptr>)
    requires DataBacked(d) && |ids| == |ps|
    ensures DataBacked(LoadAll(d, ids, ps)) && LoadAll(d, ids, ps).started == d.started
    decreases |ids|
  {
    if ids != [] {
      var next := if InTable(d, ids[0]) then Loaded(d, ids[0], ps[0]) else d;
      if InTable(d, ids[0]) { LoadedBacked(d, ids[0], ps[0]); }
      LoadAllBacked(next, ids[1..], ps[1..]);
    }
  }

  lemma LoadedBacked(d: Data, id: Id, p: Ptr)
    requires DataBacked(d) && InTable(d, id)
    ensures DataBacked(Loaded(d, id, p)) && Loaded(d, id, p).started == d.started
  {
    RecBacked(d, id);
  }

  lemma WriteBacked(d: Data, p: Ptr, e: Env)
    requires DataBacked(d) && Backed(e, d.started)
    ensures DataBacked(Write(d, p, e)) && Write(d, p, e).started == d.started
  {
  }

  lemma UpdateBacked(d: Data, p: Ptr, ok: bool)
    requires DataBacked(d) && p in d.heap
    ensures DataBacked(StoreUpdate(d, p, ok)) && StoreUpdate(d, p, ok).started == d.started
  {
  }

  lemma DeleteBacked(d: Data, id: Id, user: UserId, ok: bool)
    requires DataBacked(d)
    ensures DataBacked(StoreDelete(d, id, user, ok)) && StoreDelete(d, id, user, ok).started == d.started
  {
  }

  lemma StoreBacked(d: Data, p: Ptr)
    requires DataBacked(d) && p in d.heap
    ensures DataBacked(StoreCreate(d, p)) && StoreCreate(d, p).started == d.started
  {
  }

  lemma StartBacked(d: Data, c: ContainerId, ok: bool)
    requires DataBacked(d)
    ensures DataBacked(StartContainer(d, c, ok)) && d.started <= StartContainer(d, c, ok).started
  {
  }

  lemma StopBacked(d: Data, c: ContainerId, ok: bool)
    requires DataBacked(d)
    ensures DataBacked(StopContainer(d, c, ok)) && StopContainer(d, c, ok).started == d.started
  {
  }

  /** The data side of a create's step. */
  lemma CreateBacked(s: State, l: Label)
    requires Enabled(s, l) && DataBacked(s.d) && CreateAt(s, l.o) && OpOk(s.d, s.ops[l.o]) && PcBacked(s.ops[l.o].pc, s.d.started)
    ensures DataBacked(Effect(s, l)) && s.d.started <= Effect(s, l).started
    ensures !l.a.DoStart? ==> Effect(s, l).started == s.d.started
  {
    var d, p := s.d, s.ops[l.o].p;
    match l.a
    case DoStore(ok) => if ok { StoreBacked(d, p); }
    case DoPublish => WriteBacked(d, p, d.heap[p].(containerId := s.ops[l.o].pc.c));
    case DoStart(ok) => StartBacked(d, s.ops[l.o].pc.c, ok);
    case DoRollbackStop(ok) => StopBacked(d, s.ops[l.o].pc.c, ok);
    case DoRollbackDelete(ok) => DeleteBacked(d, d.heap[p].id, d.heap[p].user, ok);
    case DoSetRunning => WriteBacked(d, p, d.heap[p].(status := Running));
    case DoFinalUpdate(ok) => UpdateBacked(d, p, ok);
    case _ =>
  }

  lemma OtherBacked(s: State, l: Label)
    requires Enabled(s, l) && DataBacked(s.d) && !CreateAt(s, l.o)
    ensures DataBacked(Effect(s, l)) && s.d.started <= Effect(s, l).started
    ensures Effect(s, l).started == s.d.started
  {
    var d := s.d;
    match l.a
    case BeginDestroy(id, _, p) => LoadedBacked(d, id, p);
    case BeginTouch(id, _, p) => LoadedBacked(d, id, p);
    case BeginReap(ids, ps) => LoadAllBacked(d, ids, ps);
    case DoStop(ok) => StopBacked(d, s.ops[l.o].tpc.c, ok);
    case DoDelete(ok) => DeleteBacked(d, d.heap[s.ops[l.o].todo[0]].id, s.ops[l.o].user, ok);
    case DoWriteLastUsed(now) => WriteBacked(d, s.ops[l.o].p, d.heap[s.ops[l.o].p].(lastUsedAt := now));
    case DoTouchUpdate(ok) => UpdateBacked(d, s.ops[l.o].p, ok);
    case _ =>
  }

  /** A create gets past its start only by starting its container. */
  lemma PcStep(s: State, l: Label)
    requires Enabled(s, l) && After(s, l).Some? && After(s, l).value.Create?
    requires l.o in s.ops && s.ops[l.o].Create? ==> PcBacked(s.ops[l.o].pc, s.d.started)
    ensures PcBacked(After(s, l).value.pc, Effect(s, l).started)
  {
  }

  lemma StepBacked(s: State, l: Label)
    requires Inv(s) && Enabled(s, l) && AllBacked(s)
    ensures AllBacked(Apply(s, l)) && s.d.started <= Apply(s, l).d.started
  {
    if CreateAt(s, l.o) {
      OpAt(s, l.o);
      CreateBacked(s, l);
    } else {
      OtherBacked(s, l);
    }
    if After(s, l).Some? && After(s, l).value.Create? { PcStep(s, l); }
  }

  lemma {:induction false} ExecutionBacked(kind: Kind, ls: seq<Label>, ss: seq<State>, n: nat)
    requires Execution(kind, ls, ss) && n < |ss|
    ensures AllBacked(ss[n])
  {
    if n > 0 {
      ExecutionBacked(kind, ls, ss, n - 1);
      ExecutionInv(kind, ls, ss, n - 1);
      StepBacked(ss[n - 1], ls[n - 1]);
    }
  }

  /** The step is a successful `StartContainer(c)`. */
  ghost predicate Starts(s: State, l: Label, c: ContainerId) {
    l.a == DoStart(true) && CreateAt(s, l.o) && s.ops[l.o].pc == ToStart(c)
  }

  lemma NewlyStarted(s: State, l: Label, t: State, c: ContainerId)
    requires Inv(s) && AllBacked(s) && Enabled(s, l) && t == Apply(s, l) && c in t.d.started && c !in s.d.started
    ensures Starts(s, l, c)
  {
    if CreateAt(s, l.o) {
      OpAt(s, l.o);
      CreateBacked(s, l);
      assert l.a.DoStart?;
      assert Effect(s, l) == StartContainer(s.d, s.ops[l.o].pc.c, l.a.ok);
    } else {
      OtherBacked(s, l);
    }
  }

  lemma StartedBefore(kind: Kind, ls: seq<Label>, ss: seq<State>, n: nat, c: ContainerId)
    requires Execution(kind, ls, ss) && n < |ss| && c in ss[n].d.started
    ensures exists i :: 0 <= i < n && Starts(ss[i], ls[i], c)
  {
    var holds := seq(|ss|, m requires 0 <= m < |ss| => c in ss[m].d.started);
    var i := Begins(holds, n);
    StartsAt(kind, ls, ss, i, c);
  }

  lemma StartsAt(kind: Kind, ls: seq<Label>, ss: seq<State>, i: nat, c: ContainerId)
    requires Execution(kind, ls, ss) && i < |ls| && c !in ss[i].d.started && c in ss[i + 1].d.started
    ensures Starts(ss[i], ls[i], c)
  {
    ExecutionBacked(kind, ls, ss, i);
    ExecutionInv(kind, ls, ss, i);
    NewlyStarted(ss[i], ls[i], ss[i + 1], c);
  }

  /** In every run of either store, whoever sees a record running sees one whose container
      was started successfully before. */
  lemma RunningWasStarted(kind: Kind, ls: seq<Label>, ss: seq<State>, n: nat, id: Id)
    requires Execution(kind, ls, ss) && n < |ss| && InTable(ss[n].d, id) && Rec(ss[n].d, id).status.Running?
    ensures exists i :: 0 <= i < n && Starts(ss[i], ls[i], Rec(ss[n].d, id).containerId)
  {
    ExecutionBacked(kind, ls, ss, n);
    RecBacked(ss[n].d, id);
    StartedBefore(kind, ls, ss, n, Rec(ss[n].d, id).containerId);
  }

  // ---- Effects ---------------------------------------------------------------------------

  /** A create whose last update finds its record leaves it running, with the container the
      engine made for it, and everything else as it was first built. */
  lemma CreateShows(s: State, l: Label)
    requires Inv(s) && Enabled(s, l) && l.a == DoFinalUpdate(true) && UpdateFinds(s.d, s.ops[l.o].p)
    ensures var id, t := s.d.heap[s.ops[l.o].p].id, Apply(s, l).d;
            && InTable(t, id) && Rec(t, id).status.Running? && Given(s.d, id, Rec(t, id).containerId)
            && id in s.d.born && Kin(s.d.kind, Rec(t, id), s.d.born[id])
  {
    OpAt(s, l.o);
    var d, p := s.d, s.ops[l.o].p;
    assert ObjOk(d.kind, d.born, d.given, d.heap[p]);
    UpdateKin(d, p, StoreUpdate(d, p, true));
  }

  lemma UpdateKin(d: Data, p: Ptr, t: Data)
    requires DataOk(d) && p in d.heap && d.heap[p].status.Running? && UpdateFinds(d, p) && t == StoreUpdate(d, p, true)
    ensures var id := d.heap[p].id;
            && InTable(t, id) && Rec(t, id).status.Running? && Rec(t, id).containerId == d.heap[p].containerId
            && id in d.born && Kin(d.kind, Rec(t, id), d.born[id])
  {
    StoreUpdateOk(d, p, true, t);
    UpdateWrites(d, p);
    RecordOk(t, d.heap[p].id);
  }

  ghost predicate OthersSame(d: Data, t: Data, but: Id) {
    forall id :: id != but ==> (InTable(t, id) <==> InTable(d, id)) && (InTable(d, id) ==> Rec(t, id) == Rec(d, id))
  }

  function Kept(kind: Kind, time: Time): Time { if kind.Memory? then time else Floor(time) }

  /** What an update that finds its record makes of it. */
  lemma UpdateWrites(d: Data, p: Ptr)
    requires p in d.heap && UpdateFinds(d, p)
    ensures var t := StoreUpdate(d, p, true); InTable(t, d.heap[p].id) && OthersSame(d, t, d.heap[p].id)
    ensures var r, e := Rec(StoreUpdate(d, p, true), d.heap[p].id), d.heap[p];
            r.status == e.status && r.containerId == e.containerId && r.lastUsedAt == Kept(d.kind, e.lastUsedAt)
  {
  }

  /** A touch that finds its record leaves the time it last wrote, floored by SQL, and leaves
      all other records alone. */
  lemma TouchShows(s: State, l: Label)
    requires Enabled(s, l) && l.a == DoTouchUpdate(true) && UpdateFinds(s.d, s.ops[l.o].p)
    ensures var e, t := s.d.heap[s.ops[l.o].p], Apply(s, l).d;
            InTable(t, e.id) && Rec(t, e.id).lastUsedAt == Kept(s.d.kind, e.lastUsedAt) && OthersSame(s.d, t, e.id)
  {
    UpdateWrites(s.d, s.ops[l.o].p);
  }

  /** Writing the time changes that field of that object; in the memory store the record shows
      it at once. */
  lemma WriteShows(s: State, l: Label)
    requires Inv(s) && Enabled(s, l) && l.a.DoWriteLastUsed?
    ensures var p := s.ops[l.o].p; var t := Apply(s, l).d;
            && t == s.d.(heap := s.d.heap[p := s.d.heap[p].(lastUsedAt := l.a.now)])
            && (s.d.kind.Memory? && InTable(s.d, s.d.heap[p].id) ==> Rec(t, s.d.heap[p].id).lastUsedAt == l.a.now)
  {
    var p := s.ops[l.o].p;
    if s.d.kind.Memory? && InTable(s.d, s.d.heap[p].id) {
      var q := s.d.envs[s.d.heap[p].id];
      assert s.d.home[s.d.heap[p].id] == p && s.d.home[s.d.heap[q].id] == q;
    }
  }

  /** From the moment a destroy or a reap has stopped a container successfully, it is gone. */
  lemma StopRemoves(kind: Kind, ls: seq<Label>, ss: seq<State>, i: nat, n: nat, c: ContainerId)
    requires Execution(kind, ls, ss) && i < n < |ss| && c in ss[i].d.maker
    requires (ls[i].a == DoStop(true) && ss[i].ops[ls[i].o].tpc == ToStop(c))
          || (ls[i].a == DoRollbackStop(true) && ss[i].ops[ls[i].o].pc == ToRollbackStop(c))
    ensures c !in ss[n].d.live
  {
    InvAt(kind, ls, ss, i);
    StopTakes(ss[i], ls[i], c);
    var holds := seq(|ss|, m requires 0 <= m < |ss| => Dead(ss[m].d, c));
    forall m | i + 1 <= m < n && Dead(ss[m].d, c)
      ensures Dead(ss[m + 1].d, c)
    {
      InvAt(kind, ls, ss, m);
    }
    Persists(holds, i + 1, n);
  }

  ghost predicate Dead(d: Data, c: ContainerId) { c in d.maker && c !in d.live }

  lemma StopTakes(s: State, l: Label, c: ContainerId)
    requires Enabled(s, l) && c in s.d.maker
    requires (l.a == DoStop(true) && s.ops[l.o].tpc == ToStop(c)) || (l.a == DoRollbackStop(true) && s.ops[l.o].pc == ToRollbackStop(c))
    ensures Dead(Apply(s, l).d, c)
  {
    assert Effect(s, l) == StopContainer(s.d, c, true);
  }

  // ---- How a create ends -------------------------------------------------------------------

  /** A create ends in one of three ways: it could not be stored, its rollback is over, or its
      last update was made. A rollback that met no I/O error leaves no record. */
  lemma CreateEnds(s: State, l: Label, o: OpId)
    requires Inv(s) && Enabled(s, l) && o in s.ops && s.ops[o].Create? && o !in Apply(s, l).ops
    ensures l.o == o && (l.a == DoStore(false) || l.a.DoRollbackDelete? || l.a.DoFinalUpdate?)
    ensures l.a == DoStore(false) ==> s.d.heap[s.ops[o].p].id !in s.d.stored
    ensures l.a == DoRollbackDelete(true) ==> !InTable(Apply(s, l).d, s.d.heap[s.ops[o].p].id)
  {
    OpAt(s, o);
    if l.a == DoRollbackDelete(true) {
      var e := s.d.heap[s.ops[o].p];
      assert ObjOk(s.d.kind, s.d.born, s.d.given, e);
      if InTable(s.d, e.id) { RecordOk(s.d, e.id); }
      assert Effect(s, l) == StoreDelete(s.d, e.id, e.user, true);
    }
  }

  /** A create only rolls back after the engine refused to make or to start its container. */
  ghost predicate Refused(s: State, l: Label, o: OpId) {
    l.o == o && (l.a == DoEngineCreate(None) || l.a == DoStart(false))
  }

  ghost predicate RollingBack(s: State, o: OpId) {
    o in s.ops && s.ops[o].Create? && (s.ops[o].pc.ToRollbackStop? || s.ops[o].pc.ToRollbackDelete?)
  }

  lemma RollbackBegins(s: State, l: Label, t: State, o: OpId)
    requires Enabled(s, l) && t == Apply(s, l) && RollingBack(t, o) && !RollingBack(s, o)
    ensures Refused(s, l, o)
  {
  }

  lemma RollbackWasRefused(kind: Kind, ls: seq<Label>, ss: seq<State>, n: nat, o: OpId)
    requires Execution(kind, ls, ss) && n < |ss| && RollingBack(ss[n], o)
    ensures exists i :: 0 <= i < n && Refused(ss[i], ls[i], o)
  {
    var holds := seq(|ss|, m requires 0 <= m < |ss| => RollingBack(ss[m], o));
    var i := Begins(holds, n);
    RollbackBegins(ss[i], ls[i], ss[i + 1], o);
  }

  // ---- The events behind an orphan ------------------------------------------------------------

  /** The step is a `StopContainer(c)` that failed. */
  ghost predicate StopCallFailed(s: State, l: Label, c: ContainerId) {
    l.o in s.ops &&
      ((l.a == DoStop(false) && s.ops[l.o].Teardown? && s.ops[l.o].tpc == ToStop(c))
       || (l.a == DoRollbackStop(false) && s.ops[l.o].Create? && s.ops[l.o].pc == ToRollbackStop(c)))
  }

  lemma NewlyFailed(s: State, l: Label, t: State, c: ContainerId)
    requires Enabled(s, l) && t == Apply(s, l) && c in t.d.failedStops && c !in s.d.failedStops
    ensures StopCallFailed(s, l, c)
  {
    if l.a.DoStop? || l.a.DoRollbackStop? {
      var x := if l.a.DoStop? then s.ops[l.o].tpc.c else s.ops[l.o].pc.c;
      assert Effect(s, l) == StopContainer(s.d, x, l.a.ok);
      StopFailures(s.d, x, l.a.ok, c);
    } else {
      FailuresKept(s, l);
    }
  }

  lemma StopFailures(d: Data, x: ContainerId, ok: bool, c: ContainerId)
    requires c in StopContainer(d, x, ok).failedStops && c !in d.failedStops
    ensures !ok && x == c
  {
  }

  lemma FailuresKept(s: State, l: Label)
    requires Enabled(s, l) && !l.a.DoStop? && !l.a.DoRollbackStop?
    ensures Effect(s, l).failedStops == s.d.failedStops
  {
    if l.a.BeginReap? { LoadAllData(s.d, l.a.ids, l.a.ps); }
  }

  lemma FailedBefore(kind: Kind, ls: seq<Label>, ss: seq<State>, n: nat, c: ContainerId)
    requires Execution(kind, ls, ss) && n < |ss| && c in ss[n].d.failedStops
    ensures exists i :: 0 <= i < n && StopCallFailed(ss[i], ls[i], c)
  {
    var holds := seq(|ss|, m requires 0 <= m < |ss| => c in ss[m].d.failedStops);
    var i := Begins(holds, n);
    NewlyFailed(ss[i], ls[i], ss[i + 1], c);
  }

  /** The step is operation `o` finding the record of `p` without a container ID. */
  ghost predicate SawNone(s: State, l: Label, o: OpId, p: Ptr) {
    l.o == o && l.a.DoCheck? && TeardownAt(s, o) && s.ops[o].todo[0] == p && s.d.heap[p].containerId.NoContainer?
  }

  ghost predicate WithoutStop(s: State, o: OpId, p: Ptr) {
    o in s.ops && s.ops[o].Teardown? && s.ops[o].todo != [] && s.ops[o].todo[0] == p && s.ops[o].tpc == ToDelete(ReadEmpty)
  }

  lemma SeesNone(s: State, l: Label, t: State, o: OpId, p: Ptr)
    requires Enabled(s, l) && t == Apply(s, l) && WithoutStop(t, o, p) && !WithoutStop(s, o, p)
    ensures SawNone(s, l, o, p)
  {
  }

  /** A teardown goes on without a stop only after it saw no container ID. */
  lemma SawNoneBefore(kind: Kind, ls: seq<Label>, ss: seq<State>, n: nat, o: OpId, p: Ptr)
    requires Execution(kind, ls, ss) && n < |ss| && WithoutStop(ss[n], o, p)
    ensures exists i :: 0 <= i < n && SawNone(ss[i], ls[i], o, p)
  {
    var holds := seq(|ss|, m requires 0 <= m < |ss| => WithoutStop(ss[m], o, p));
    var i := Begins(holds, n);
    SeesNone(ss[i], ls[i], ss[i + 1], o, p);
  }

  /** The step is the last `Update` of the create that made `c`, and it failed. */
  ghost predicate LastUpdateFailed(s: State, l: Label, c: ContainerId) {
    l.a == DoFinalUpdate(false) && CreateAt(s, l.o) && s.ops[l.o].pc == ToUpdate(c)
  }

  /** At step `m` a teardown saw no container ID in the record that it deleted at step `k`, the
      record of the environment that `c` was made for. */
  ghost predicate DeletedUnseen(ls: seq<Label>, ss: seq<State>, m: nat, k: nat, c: ContainerId)
    requires m <= k < |ls| < |ss|
  {
    && TeardownAt(ss[k], ls[k].o) && ls[k].a == DoDelete(true)
    && SawNone(ss[m], ls[m], ls[k].o, ss[k].ops[ls[k].o].todo[0])
    && c in ss[|ss| - 1].d.maker && ss[k].d.heap[ss[k].ops[ls[k].o].todo[0]].id == ss[|ss| - 1].d.maker[c]
  }

  ghost predicate SomeDeletedUnseen(ls: seq<Label>, ss: seq<State>, c: ContainerId)
    requires |ls| < |ss|
  {
    exists m, k :: 0 <= m <= k < |ls| && DeletedUnseen(ls, ss, m, k, c)
  }

  lemma {:induction false} MakerStays(kind: Kind, ls: seq<Label>, ss: seq<State>, i: nat, c: ContainerId)
    requires Execution(kind, ls, ss) && i < |ss| && c in ss[i].d.maker
    ensures c in ss[|ss| - 1].d.maker && ss[|ss| - 1].d.maker[c] == ss[i].d.maker[c]
  {
    var id := ss[i].d.maker[c];
    var holds := seq(|ss|, m requires 0 <= m < |ss| => c in ss[m].d.maker && ss[m].d.maker[c] == id);
    forall m | i <= m < |ss| - 1 && c in ss[m].d.maker && ss[m].d.maker[c] == id
      ensures c in ss[m + 1].d.maker && ss[m + 1].d.maker[c] == id
    {
      InvAt(kind, ls, ss, m);
    }
    Persists(holds, i, |ss| - 1);
  }

  lemma UnseenAt(kind: Kind, ls: seq<Label>, ss: seq<State>, k: nat, id: Id, c: ContainerId)
    requires Execution(kind, ls, ss) && k < |ls| && TornDown(ss[k], ls[k], id, ReadEmpty)
    requires c in ss[|ss| - 1].d.maker && ss[|ss| - 1].d.maker[c] == id
    ensures SomeDeletedUnseen(ls, ss, c)
  {
    var o := ls[k].o;
    var p := ss[k].ops[o].todo[0];
    assert WithoutStop(ss[k], o, p);
    SawNoneBefore(kind, ls, ss, k, o, p);
    var m :| 0 <= m < k && SawNone(ss[m], ls[m], o, p);
    assert DeletedUnseen(ls, ss, m, k, c);
  }

  /** Behind every orphan at the end of a run there is an event: a `StopContainer` of it that
      failed, a last `Update` of its create that failed, or a destroy or reap that looked at
      its record when it had no container ID and then deleted it. */
  lemma OrphanEvents(kind: Kind, ls: seq<Label>, ss: seq<State>, c: ContainerId)
    requires Execution(kind, ls, ss) && c in ss[|ls|].d.live && !Accounted(ss[|ls|], c)
    ensures || (exists i :: 0 <= i < |ls| && StopCallFailed(ss[i], ls[i], c))
            || (exists i :: 0 <= i < |ls| && LastUpdateFailed(ss[i], ls[i], c))
            || SomeDeletedUnseen(ls, ss, c)
  {
    var i := OrphanRootCause(kind, ls, ss, |ls|, c);
    EventBehind(kind, ls, ss, i, c);
  }

  lemma EventBehind(kind: Kind, ls: seq<Label>, ss: seq<State>, i: nat, c: ContainerId)
    requires Execution(kind, ls, ss) && i < |ls| && OneRootCause(ls, ss, i, c) && c.Container?
    ensures || (exists i :: 0 <= i < |ls| && StopCallFailed(ss[i], ls[i], c))
            || (exists i :: 0 <= i < |ls| && LastUpdateFailed(ss[i], ls[i], c))
            || SomeDeletedUnseen(ls, ss, c)
  {
    if StopFailed(ls, ss, i, c) {
      StopEvent(kind, ls, ss, i, c);
    } else if ReadTooEarly(ls, ss, i, c) {
      ReadEvent(kind, ls, ss, i, c);
    } else {
      UpdateEvent(ss[i], ls[i], c);
    }
  }

  lemma UpdateEvent(s: State, l: Label, c: ContainerId)
    requires Enabled(s, l) && ByLostUpdate(s, l, c) && !l.a.ok
    ensures LastUpdateFailed(s, l, c)
  {
  }

  lemma StopEvent(kind: Kind, ls: seq<Label>, ss: seq<State>, i: nat, c: ContainerId)
    requires Execution(kind, ls, ss) && i < |ls| && StopFailed(ls, ss, i, c)
    ensures exists m :: 0 <= m < |ls| && StopCallFailed(ss[m], ls[m], c)
  {
    if ByFailedStop(ss[i], ls[i], c) {
      FailedBefore(kind, ls, ss, i + 1, c);
    } else {
      var k :| 0 <= k < i && TornDown(ss[k], ls[k], ss[i].d.maker[c], StopTried(c, false));
      ExecutionInv(kind, ls, ss, k);
      TriedAndFailed(ss[k], ls[k], ss[i].d.maker[c], c);
      FailedBefore(kind, ls, ss, k, c);
    }
  }

  lemma TriedAndFailed(s: State, l: Label, id: Id, c: ContainerId)
    requires Inv(s) && TornDown(s, l, id, StopTried(c, false))
    ensures c in s.d.failedStops
  {
    OpAt(s, l.o);
  }

  lemma ReadEvent(kind: Kind, ls: seq<Label>, ss: seq<State>, i: nat, c: ContainerId)
    requires Execution(kind, ls, ss) && i < |ls| && ReadTooEarly(ls, ss, i, c) && c.Container?
    ensures SomeDeletedUnseen(ls, ss, c)
  {
    if ByEmptyRead(ss[i], ls[i], c) {
      ExecutionInv(kind, ls, ss, i);
      var id := ss[i].d.heap[ss[i].ops[ls[i].o].todo[0]].id;
      RecordOk(ss[i].d, id);
      MakerStays(kind, ls, ss, i, c);
      UnseenAt(kind, ls, ss, i, id, c);
    } else {
      MakerStays(kind, ls, ss, i, c);
      var k :| 0 <= k < i && TornDown(ss[k], ls[k], ss[i].d.maker[c], ReadEmpty);
      UnseenAt(kind, ls, ss, k, ss[i].d.maker[c], c);
    }
  }
}
