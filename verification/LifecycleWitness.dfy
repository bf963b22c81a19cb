/** The protocol can really lose a container: a reap pass that reads a record before its
    container ID is published deletes it while the create goes on. */
module LifecycleWitness {
  import opened Domain
  import opened Lifecycle
  import opened LifecycleTheorems

  ghost predicate Reaches(kind: Kind, s: State) {
    exists ls: seq<Label>, ss: seq<State> :: Execution(kind, ls, ss) && ss[|ss| - 1] == s
  }

  lemma Onwards(kind: Kind, s: State, l: Label)
    requires Reaches(kind, s) && Enabled(s, l)
    ensures Reaches(kind, Apply(s, l))
  {
    var ls: seq<Label>, ss: seq<State> :| Execution(kind, ls, ss) && ss[|ss| - 1] == s;
    var ls', ss' := ls + [l], ss + [Apply(s, l)];
    forall i | 0 <= i < |ls'|
      ensures Enabled(ss'[i], ls'[i]) && ss'[i + 1] == Apply(ss'[i], ls'[i])
    {
      if i < |ls| {
        assert Enabled(ss[i], ls[i]) && ss[i + 1] == Apply(ss[i], ls[i]);
      }
    }
    assert Execution(kind, ls', ss');
  }

  /** The create of `e` at pointer 0 has reached `pc`; `d` is all the shared data. */
  function Mid(d: Data, pc: CreatePc): State { State(d, map[0 := Create(0, pc)], {0}) }

  const C := Container(0)

  function Start(e: Env): Data {
    Data(Memory, map[0 := e], map[], map[], {}, {}, map[e.id := e], {}, map[e.id := 0], map[], map[], {})
  }

  function Stored(e: Env): Data { Start(e).(envs := map[e.id := 0], stored := {e.id}) }

  function Contained(e: Env): Data { Stored(e).(live := {C}, given := map[e.id := C], maker := map[C := e.id]) }

  function Published(e: Env): Data { Contained(e).(heap := map[0 := e.(containerId := C)]) }

  function Deleted(e: Env): Data { Published(e).(envs := map[]) }

  function Final(e: Env): State {
    State(Deleted(e).(heap := map[0 := e.(containerId := C, status := Running)], started := {C}), map[], {0, 1})
  }

  ghost predicate NewRecord(e: Env) { !e.user.Anyone? && e.status.Creating? && e.containerId.NoContainer? }

  function With(d: Data, pc: CreatePc, tpc: TeardownPc): State {
    State(d, map[0 := Create(0, pc), 1 := Teardown([0], tpc, Anyone)], {0, 1})
  }

  lemma ReachStored(e: Env)
    requires NewRecord(e)
    ensures Reaches(Memory, Mid(Stored(e), ToEngine))
  {
    assert Execution(Memory, [], [Init(Memory)]);
    assert Reaches(Memory, Init(Memory));
    Onwards(Memory, Init(Memory), Label(0, BeginCreate(0, e)));
    assert Apply(Init(Memory), Label(0, BeginCreate(0, e))) == Mid(Start(e), ToStore);
    Onwards(Memory, Mid(Start(e), ToStore), Label(0, DoStore(true)));
    assert Apply(Mid(Start(e), ToStore), Label(0, DoStore(true))) == Mid(Stored(e), ToEngine);
  }

  lemma ReachEmptyRead(e: Env)
    requires NewRecord(e)
    ensures Reaches(Memory, With(Stored(e), ToEngine, ToDelete(ReadEmpty)))
  {
    ReachStored(e);
    var l := Label(1, BeginReap([e.id], [0]));
    Onwards(Memory, Mid(Stored(e), ToEngine), l);
    assert LoadAll(Stored(e), [e.id], [0]) == Stored(e);
    assert Apply(Mid(Stored(e), ToEngine), l) == With(Stored(e), ToEngine, ToCheck);
    Onwards(Memory, With(Stored(e), ToEngine, ToCheck), Label(1, DoCheck));
    assert Apply(With(Stored(e), ToEngine, ToCheck), Label(1, DoCheck)) == With(Stored(e), ToEngine, ToDelete(ReadEmpty));
  }

  lemma ReachPublished(e: Env)
    requires NewRecord(e)
    ensures Reaches(Memory, With(Published(e), ToStart(C), ToDelete(ReadEmpty)))
  {
    ReachEmptyRead(e);
    var s := With(Stored(e), ToEngine, ToDelete(ReadEmpty));
    Onwards(Memory, s, Label(0, DoEngineCreate(Some(C))));
    var s2 := With(Contained(e), ToPublish(C), ToDelete(ReadEmpty));
    assert Apply(s, Label(0, DoEngineCreate(Some(C)))) == s2;
    Onwards(Memory, s2, Label(0, DoPublish));
    assert Apply(s2, Label(0, DoPublish)) == With(Published(e), ToStart(C), ToDelete(ReadEmpty));
  }

  lemma ReachDeleted(e: Env)
    requires NewRecord(e)
    ensures Reaches(Memory, State(Deleted(e), map[0 := Create(0, ToStart(C))], {0, 1}))
  {
    ReachPublished(e);
    var s := With(Published(e), ToStart(C), ToDelete(ReadEmpty));
    Onwards(Memory, s, Label(1, DoDelete(true)));
    assert Apply(s, Label(1, DoDelete(true))) == State(Deleted(e), map[0 := Create(0, ToStart(C))], {0, 1});
  }

  lemma ReachRunning(e: Env)
    requires NewRecord(e)
    ensures Reaches(Memory, State(Final(e).d, map[0 := Create(0, ToUpdate(C))], {0, 1}))
  {
    ReachDeleted(e);
    var s := State(Deleted(e), map[0 := Create(0, ToStart(C))], {0, 1});
    Onwards(Memory, s, Label(0, DoStart(true)));
    var s2 := State(Deleted(e).(started := {C}), map[0 := Create(0, ToInject(C))], {0, 1});
    assert Apply(s, Label(0, DoStart(true))) == s2;
    Onwards(Memory, s2, Label(0, DoInject));
    var s3 := State(Deleted(e).(started := {C}), map[0 := Create(0, ToRun(C))], {0, 1});
    assert Apply(s2, Label(0, DoInject)) == s3;
    Onwards(Memory, s3, Label(0, DoSetRunning));
    assert Apply(s3, Label(0, DoSetRunning)) == State(Final(e).d, map[0 := Create(0, ToUpdate(C))], {0, 1});
  }

  /** For every new environment there is a run of the memory store that ends with nothing in
      flight, no record and the container alive. */
  lemma EarlyReadOrphans(e: Env)
    requires NewRecord(e)
    ensures Reaches(Memory, Final(e)) && C in Final(e).d.live && !Accounted(Final(e), C)
  {
    ReachRunning(e);
    var s := State(Final(e).d, map[0 := Create(0, ToUpdate(C))], {0, 1});
    Onwards(Memory, s, Label(0, DoFinalUpdate(true)));
    assert Apply(s, Label(0, DoFinalUpdate(true))) == Final(e);
  }
}
