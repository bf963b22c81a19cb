/** The environment lifecycle as a protocol: any number of create, destroy, reap and
    "touch" (exec, file, WebSocket) operations interleave over one store and one engine.
    Every store call, every engine call and every write to a shared field is one step.

    An operation holds `*domain.Environment` pointers into `heap`. The memory store hands
    out the very pointer it stores, so a field write is seen at once; the SQL store scans
    a row into a fresh object, so an operation may write back a stale copy. */
module Lifecycle {
  import opened Domain

  type Ptr = nat
  type OpId = nat

  datatype Kind = Memory | Sql

  /** Where `CreateEnvironment` stands; the name says which call comes next. */
  datatype CreatePc =
    | ToStore
    | ToEngine
    | ToPublish(c: ContainerId)
    | ToStart(c: ContainerId)
    | ToRollbackStop(c: ContainerId)
    | ToRollbackDelete(c: ContainerId, stopFailed: bool)
    | ToInject(c: ContainerId)
    | ToRun(c: ContainerId)
    | ToUpdate(c: ContainerId)

  /** Why a teardown goes on to delete the record. */
  datatype Why = ReadEmpty | StopTried(c: ContainerId, ok: bool)

  datatype TeardownPc = ToCheck | ToStop(c: ContainerId) | ToDelete(why: Why)

  /** A destroy is a teardown of one record by its owner; a reap is a teardown of the
      listed records by `Anyone`. The head of `todo` is the one being worked on. A touch is
      an exec, file or WebSocket operation, which goes on once it saw the status running. */
  datatype Op =
    | Create(p: Ptr, pc: CreatePc)
    | Teardown(todo: seq<Ptr>, tpc: TeardownPc, user: UserId)
    | Touch(p: Ptr, tested: bool)

  /** Everything shared: the Go heap, the store, the engine. The last six fields are
      history, which steps read only to keep IDs fresh. */
  datatype Data = Data(
    kind: Kind,
    heap: map<Ptr, Env>,
    envs: map<Id, Ptr>,           // the memory store's map
    rows: map<Id, Row>,           // the SQL store's table
    live: set<ContainerId>,       // containers that exist in the engine
    started: set<ContainerId>,    // containers that were started successfully
    born: map<Id, Env>,           // every environment as it was first built
    stored: set<Id>,              // every ID that was ever in the store
    home: map<Id, Ptr>,           // the object `CreateEnvironment` built for each of them
    given: map<Id, ContainerId>,  // the container made for each environment
    maker: map<ContainerId, Id>,  // the inverse of `given`
    failedStops: set<ContainerId>)

  datatype State = State(d: Data, ops: map<OpId, Op>, usedOps: set<OpId>)

  function Init(kind: Kind): State {
    State(Data(kind, map[], map[], map[], {}, {}, map[], {}, map[], map[], map[], {}), map[], {})
  }

  // ---- Store and engine calls -----------------------------------------------

  predicate InTable(d: Data, id: Id) {
    if d.kind.Memory? then id in d.envs && d.envs[id] in d.heap else id in d.rows
  }

  function Rec(d: Data, id: Id): Env
    requires InTable(d, id)
  {
    if d.kind.Memory? then d.heap[d.envs[id]] else FromRow(id, d.rows[id])
  }

  predicate Found(d: Data, id: Id, user: UserId) {
    InTable(d, id) && MaySee(user, Rec(d, id).user)
  }

  function StoreCreate(d: Data, p: Ptr): Data
    requires p in d.heap
  {
    var e := d.heap[p];
    if d.kind.Memory? then d.(envs := d.envs[e.id := p], stored := d.stored + {e.id})
    else d.(rows := d.rows[e.id := ToRow(e)], stored := d.stored + {e.id})
  }

  /** `p` is a pointer that `Get(id)` can return: the stored one, or a new object in SQL. */
  predicate GetReturns(d: Data, id: Id, p: Ptr) {
    if d.kind.Memory? then id in d.envs && d.envs[id] == p else p !in d.heap
  }

  /** The data after `Get`, which in SQL builds the object `p`. */
  function Loaded(d: Data, id: Id, p: Ptr): Data
    requires InTable(d, id)
  {
    if d.kind.Memory? then d else d.(heap := d.heap[p := Rec(d, id)])
  }

  /** `ListExpired`: some of the stored records, each once, in any order. Which ones are
      expired does not matter to what is proved here. */
  predicate Listed(d: Data, ids: seq<Id>, ps: seq<Ptr>) {
    && |ids| == |ps|
    && (forall i :: 0 <= i < |ids| ==> InTable(d, ids[i]) && GetReturns(d, ids[i], ps[i]))
    && (forall i, j :: 0 <= i < j < |ids| ==> ids[i] != ids[j])
    && (forall i, j :: 0 <= i < j < |ps| ==> ps[i] != ps[j])
  }

  /** The data after scanning the listed rows, one at a time. */
  function LoadAll(d: Data, ids: seq<Id>, ps: seq<Ptr>): Data
    requires |ids| == |ps|
    decreases |ids|
  {
    if ids == [] then d
    else LoadAll(if InTable(d, ids[0]) then Loaded(d, ids[0], ps[0]) else d, ids[1..], ps[1..])
  }

  predicate UpdateFinds(d: Data, p: Ptr)
    requires p in d.heap
  {
    InTable(d, d.heap[p].id) && Rec(d, d.heap[p].id).user == d.heap[p].user
  }

  /** `Update`, with `ok` saying that no I/O error struck. A missing record changes nothing. */
  function StoreUpdate(d: Data, p: Ptr, ok: bool): Data
    requires p in d.heap
  {
    var e := d.heap[p];
    if !ok || !UpdateFinds(d, p) then d
    else if d.kind.Memory? then d.(envs := d.envs[e.id := p])
    else d.(rows := d.rows[e.id := UpdateRow(d.rows[e.id], e)])
  }

  function StoreDelete(d: Data, id: Id, user: UserId, ok: bool): Data {
    if ok && Found(d, id, user) then d.(envs := d.envs - {id}, rows := d.rows - {id}) else d
  }

  function CreateContainer(d: Data, id: Id, c: ContainerId): Data {
    d.(live := d.live + {c}, given := d.given[id := c], maker := d.maker[c := id])
  }

  function StartContainer(d: Data, c: ContainerId, ok: bool): Data {
    if ok then d.(started := d.started + {c}) else d
  }

  /** `StopContainer` removes the container unless it reports a failure. */
  function StopContainer(d: Data, c: ContainerId, ok: bool): Data {
    if ok then d.(live := d.live - {c}) else d.(failedStops := d.failedStops + {c})
  }

  /** `&domain.Environment{...}` in `CreateEnvironment`. */
  function Birth(d: Data, p: Ptr, e: Env): Data {
    d.(heap := d.heap[p := e], born := d.born[e.id := e], home := d.home[e.id := p])
  }

  /** A write through a pointer. */
  function Write(d: Data, p: Ptr, e: Env): Data { d.(heap := d.heap[p := e]) }

  // ---- Steps ----------------------------------------------------------------

  datatype Action =
    | BeginCreate(p: Ptr, env: Env)
    | DoStore(ok: bool)
    | DoEngineCreate(made: Option<ContainerId>)
    | DoPublish
    | DoStart(ok: bool)
    | DoRollbackStop(ok: bool)
    | DoRollbackDelete(ok: bool)
    | DoInject
    | DoSetRunning
    | DoFinalUpdate(ok: bool)
    | BeginDestroy(id: Id, user: UserId, p: Ptr)
    | BeginReap(ids: seq<Id>, ps: seq<Ptr>)
    | DoCheck
    | DoStop(ok: bool)
    | DoDelete(ok: bool)
    | BeginTouch(id: Id, user: UserId, p: Ptr)
    | DoTest
    | DoWriteLastUsed(now: Time)
    | DoTouchUpdate(ok: bool)
    | EndTouch

  datatype Label = Label(o: OpId, a: Action)

  predicate Fresh(s: State, o: OpId) { o !in s.ops && o !in s.usedOps }

  predicate CreateAt(s: State, o: OpId) {
    o in s.ops && s.ops[o].Create? && s.ops[o].p in s.d.heap
  }

  predicate TeardownAt(s: State, o: OpId) {
    o in s.ops && s.ops[o].Teardown? && s.ops[o].todo != [] && s.ops[o].todo[0] in s.d.heap
  }

  predicate TouchAt(s: State, o: OpId) {
    o in s.ops && s.ops[o].Touch? && s.ops[o].p in s.d.heap
  }

  /** What request validation and `uuid.New` give `CreateEnvironment`. */
  predicate NewEnv(d: Data, p: Ptr, e: Env) {
    && p !in d.heap && e.id !in d.born
    && !e.user.Anyone? && e.status.Creating? && e.containerId.NoContainer?
  }

  predicate Enabled(s: State, l: Label) {
    var o := l.o;
    match l.a
    case BeginCreate(p, e) => Fresh(s, o) && NewEnv(s.d, p, e)
    case DoStore(_) => CreateAt(s, o) && s.ops[o].pc.ToStore?
    case DoEngineCreate(made) =>
      && CreateAt(s, o) && s.ops[o].pc.ToEngine?
      && (made.Some? ==> !made.value.NoContainer? && made.value !in s.d.maker)
    case DoPublish => CreateAt(s, o) && s.ops[o].pc.ToPublish?
    case DoStart(_) => CreateAt(s, o) && s.ops[o].pc.ToStart?
    case DoRollbackStop(_) => CreateAt(s, o) && s.ops[o].pc.ToRollbackStop?
    case DoRollbackDelete(_) => CreateAt(s, o) && s.ops[o].pc.ToRollbackDelete?
    case DoInject => CreateAt(s, o) && s.ops[o].pc.ToInject?
    case DoSetRunning => CreateAt(s, o) && s.ops[o].pc.ToRun?
    case DoFinalUpdate(_) => CreateAt(s, o) && s.ops[o].pc.ToUpdate?
    case BeginDestroy(id, user, p) =>
      Fresh(s, o) && !user.Anyone? && Found(s.d, id, user) && GetReturns(s.d, id, p)
    case BeginReap(ids, ps) => Fresh(s, o) && ids != [] && Listed(s.d, ids, ps)
    case DoCheck => TeardownAt(s, o) && s.ops[o].tpc.ToCheck?
    case DoStop(_) => TeardownAt(s, o) && s.ops[o].tpc.ToStop?
    case DoDelete(_) => TeardownAt(s, o) && s.ops[o].tpc.ToDelete?
    case BeginTouch(id, user, p) =>
      && Fresh(s, o) && !user.Anyone? && Found(s.d, id, user) && GetReturns(s.d, id, p)
      && (s.d.kind.Sql? ==> Rec(s.d, id).status.Running?)
    case DoTest => TouchAt(s, o) && !s.ops[o].tested
    case DoWriteLastUsed(_) => TouchAt(s, o) && s.ops[o].tested
    case DoTouchUpdate(_) => TouchAt(s, o) && s.ops[o].tested
    case EndTouch => TouchAt(s, o)
  }

  /** The step's effect on the shared data. */
  function Effect(s: State, l: Label): Data
    requires Enabled(s, l)
  {
    var d := s.d;
    match l.a
    case BeginCreate(p, e) => Birth(d, p, e)
    case DoStore(ok) => if ok then StoreCreate(d, s.ops[l.o].p) else d
    case DoEngineCreate(made) =>
      if made.Some? then CreateContainer(d, d.heap[s.ops[l.o].p].id, made.value) else d
    case DoPublish =>
      var p := s.ops[l.o].p; Write(d, p, d.heap[p].(containerId := s.ops[l.o].pc.c))
    case DoStart(ok) => StartContainer(d, s.ops[l.o].pc.c, ok)
    case DoRollbackStop(ok) => StopContainer(d, s.ops[l.o].pc.c, ok)
    case DoRollbackDelete(ok) =>
      var e := d.heap[s.ops[l.o].p]; StoreDelete(d, e.id, e.user, ok)
    case DoSetRunning =>
      var p := s.ops[l.o].p; Write(d, p, d.heap[p].(status := Running))
    case DoFinalUpdate(ok) => StoreUpdate(d, s.ops[l.o].p, ok)
    case BeginDestroy(id, _, p) => Loaded(d, id, p)
    case BeginReap(ids, ps) => LoadAll(d, ids, ps)
    case DoStop(ok) => StopContainer(d, s.ops[l.o].tpc.c, ok)
    case DoDelete(ok) => StoreDelete(d, d.heap[s.ops[l.o].todo[0]].id, s.ops[l.o].user, ok)
    case BeginTouch(id, _, p) => Loaded(d, id, p)
    case DoWriteLastUsed(now) =>
      var p := s.ops[l.o].p; Write(d, p, d.heap[p].(lastUsedAt := now))
    case DoTouchUpdate(ok) => StoreUpdate(d, s.ops[l.o].p, ok)
    case _ => d
  }

  /** Where the operation stands after the step; `None` when it has returned. */
  function After(s: State, l: Label): Option<Op>
    requires Enabled(s, l)
  {
    var o := l.o;
    match l.a
    case BeginCreate(p, _) => Some(Create(p, ToStore))
    case DoStore(ok) => if ok then Some(s.ops[o].(pc := ToEngine)) else None
    case DoEngineCreate(made) =>
      Some(s.ops[o].(pc := if made.Some? then ToPublish(made.value) else ToRollbackDelete(NoContainer, false)))
    case DoPublish => Some(s.ops[o].(pc := ToStart(s.ops[o].pc.c)))
    case DoStart(ok) =>
      Some(s.ops[o].(pc := if ok then ToInject(s.ops[o].pc.c) else ToRollbackStop(s.ops[o].pc.c)))
    case DoRollbackStop(ok) => Some(s.ops[o].(pc := ToRollbackDelete(s.ops[o].pc.c, !ok)))
    case DoInject => Some(s.ops[o].(pc := ToRun(s.ops[o].pc.c)))
    case DoSetRunning => Some(s.ops[o].(pc := ToUpdate(s.ops[o].pc.c)))
    case BeginDestroy(_, user, p) => Some(Teardown([p], ToCheck, user))
    case BeginReap(_, ps) => Some(Teardown(ps, ToCheck, Anyone))
    case DoCheck =>
      var c := s.d.heap[s.ops[o].todo[0]].containerId;
      Some(s.ops[o].(tpc := if c.Container? then ToStop(c) else ToDelete(ReadEmpty)))
    case DoStop(ok) => Some(s.ops[o].(tpc := ToDelete(StopTried(s.ops[o].tpc.c, ok))))
    case DoDelete(_) =>
      var todo := s.ops[o].todo;
      if |todo| == 1 then None else Some(Teardown(todo[1..], ToCheck, s.ops[o].user))
    case BeginTouch(_, _, p) => Some(Touch(p, s.d.kind.Sql?)) // a scanned row is private: reading and testing are one
    case DoTest => if s.d.heap[s.ops[o].p].status.Running? then Some(s.ops[o].(tested := true)) else None
    case DoWriteLastUsed(_) => Some(s.ops[o])
    case DoTouchUpdate(_) => Some(s.ops[o])
    case _ => None
  }

  function Apply(s: State, l: Label): State
    requires Enabled(s, l)
  {
    var after := After(s, l);
    State(Effect(s, l),
          if after.Some? then s.ops[l.o := after.value] else s.ops - {l.o},
          s.usedOps + {l.o})
  }

  // ---- Runs -----------------------------------------------------------------

  ghost predicate Run(ls: seq<Label>, ss: seq<State>) {
    && |ss| == |ls| + 1
    && forall i :: 0 <= i < |ls| ==> Enabled(ss[i], ls[i]) && ss[i + 1] == Apply(ss[i], ls[i])
  }

  /** A run of the server from an empty store. */
  ghost predicate Execution(kind: Kind, ls: seq<Label>, ss: seq<State>) {
    Run(ls, ss) && ss[0] == Init(kind)
  }
}
