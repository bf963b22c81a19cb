/** Root causes of orphaned containers. A create whose last `Update` finds no record lost it
    to an earlier delete; this module follows that delete back to what its teardown saw. */
module LifecycleCauses {
  import opened Domain
  import opened Lifecycle
  import opened LifecycleInvariant
  import opened LifecycleTheorems

  /** Operation `o` is the create of environment `id`. */
  ghost predicate Creates(s: State, o: OpId, id: Id) {
    o in s.ops && s.ops[o].Create? && s.ops[o].p in s.d.heap && s.d.heap[s.ops[o].p].id == id
  }

  /** The step is a teardown's delete of the existing record `id`, reached for reason `why`. */
  ghost predicate TornDown(s: State, l: Label, id: Id, why: Why) {
    && Enabled(s, l) && l.a.DoDelete? && l.a.ok && InTable(s.d, id)
    && s.d.heap[s.ops[l.o].todo[0]].id == id && s.ops[l.o].tpc == ToDelete(why)
  }

  lemma CreateWasThere(s: State, l: Label, o: OpId, id: Id)
    requires Inv(s) && Enabled(s, l) && Monotone(s.d, Apply(s, l).d) && id in s.d.stored
    requires Creates(Apply(s, l), o, id)
    ensures Creates(s, o, id)
  {
    OpBefore(s, l, o);
    if o in s.ops {
      assert OpOk(s.d, s.ops[o]);
    }
  }

  /** An operation that exists after a step and is a create was one before, or begins. */
  lemma OpBefore(s: State, l: Label, o: OpId)
    requires Enabled(s, l) && o in Apply(s, l).ops && Apply(s, l).ops[o].Create?
    ensures o in s.ops ==> s.ops[o].Create? && s.ops[o].p == Apply(s, l).ops[o].p
    ensures o !in s.ops ==> o == l.o && l.a.BeginCreate? && l.a.p == Apply(s, l).ops[o].p
  {
  }

  lemma StoreStores(d: Data, p: Ptr)
    requires p in d.heap
    ensures InTable(StoreCreate(d, p), d.heap[p].id) && StoreCreate(d, p).stored == d.stored + {d.heap[p].id}
  {
  }

  lemma {:induction false} StoredStep(s: State, l: Label, id: Id)
    requires Enabled(s, l) && id in Effect(s, l).stored && id !in s.d.stored
    ensures InTable(Effect(s, l), id)
  {
    if !l.a.DoStore? {
      TableStep(s, l);
    } else {
      StoreStores(s.d, s.ops[l.o].p);
    }
  }

  lemma NotByRollback(s: State, l: Label, o: OpId, id: Id)
    requires Inv(s) && Enabled(s, l) && Deletes(s, l, id) && Creates(s, o, id) && o in Apply(s, l).ops
    ensures l.a.DoDelete?
  {
    if l.a.DoRollbackDelete? {
      assert SameCreate(s.d, s.ops[o], s.ops[l.o]);
    }
  }

  /** What one state and the step after it mean for the record `id` and its create. */
  datatype Watch = Watch(creating: bool, stored: bool, there: bool, torn: bool)

  ghost predicate Torn(s: State, l: Label, id: Id) { exists why :: TornDown(s, l, id, why) }

  ghost function Watched(s: State, l: Label, o: OpId, id: Id): Watch {
    Watch(Creates(s, o, id), id in s.d.stored, InTable(s.d, id), Torn(s, l, id))
  }

  ghost predicate Follows(w: Watch, creating: bool, stored: bool, there: bool) {
    && (stored && !w.stored ==> there)
    && (creating && w.stored ==> w.creating)
    && (creating && w.there && !there ==> w.torn)
  }

  lemma WatchStep(s: State, l: Label, t: State, o: OpId, id: Id)
    requires Inv(s) && Enabled(s, l) && t == Apply(s, l) && DataOk(t.d) && Monotone(s.d, t.d)
    ensures Follows(Watched(s, l, o, id), Creates(t, o, id), id in t.d.stored, InTable(t.d, id))
  {
    if id in t.d.stored && id !in s.d.stored {
      StoredStep(s, l, id);
    }
    if Creates(t, o, id) && id in s.d.stored {
      CreateWasThere(s, l, o, id);
    }
    if Creates(t, o, id) && InTable(s.d, id) && !InTable(t.d, id) {
      RecordOk(s.d, id);
      TornNow(s, l, o, id);
    }
  }

  lemma TornNow(s: State, l: Label, o: OpId, id: Id)
    requires Inv(s) && Enabled(s, l) && DataOk(Effect(s, l)) && Monotone(s.d, Effect(s, l)) && id in s.d.stored
    requires Creates(Apply(s, l), o, id) && InTable(s.d, id) && !InTable(Effect(s, l), id)
    ensures Torn(s, l, id)
  {
    CreateWasThere(s, l, o, id);
    TableLoss(s, l, id);
    NotByRollback(s, l, o, id);
    assert TornDown(s, l, id, s.ops[l.o].tpc.why);
  }

  lemma {:induction false} FindTorn(ws: seq<Watch>, n: nat) returns (m: nat)
    requires n < |ws| && ws[n].creating && ws[n].stored && !ws[n].there && !ws[0].stored
    requires forall i :: 0 <= i < n ==> Follows(ws[i], ws[i + 1].creating, ws[i + 1].stored, ws[i + 1].there)
    ensures m < n && ws[m].torn
    decreases n
  {
    var w := ws[n - 1];
    assert Follows(w, true, true, false);
    if w.there {
      return n - 1;
    }
    m := FindTorn(ws, n - 1);
  }

  /** A record that is gone while its create still runs was deleted by a teardown. */
  lemma FindDelete(kind: Kind, ls: seq<Label>, ss: seq<State>, n: nat, o: OpId, id: Id)
      returns (m: nat, why: Why)
    requires Execution(kind, ls, ss) && n < |ls|
    requires Creates(ss[n], o, id) && id in ss[n].d.stored && !InTable(ss[n].d, id)
    ensures m < n && TornDown(ss[m], ls[m], id, why)
  {
    var ws := seq(n + 1, i requires 0 <= i <= n => Watched(ss[i], ls[i], o, id));
    forall i | 0 <= i < n
      ensures Follows(ws[i], ws[i + 1].creating, ws[i + 1].stored, ws[i + 1].there)
    {
      InvAt(kind, ls, ss, i);
      WatchStep(ss[i], ls[i], ss[i + 1], o, id);
    }
    m := FindTorn(ws, n);
    why :| TornDown(ss[m], ls[m], id, why);
  }

  /** The teardown saw no container ID, or failed to stop this very container. */
  ghost predicate Excuse(why: Why, c: ContainerId) { why == ReadEmpty || why == StopTried(c, false) }

  lemma WhyTornDown(kind: Kind, ls: seq<Label>, ss: seq<State>, m: nat, n: nat, id: Id, why: Why, c: ContainerId)
    requires Execution(kind, ls, ss) && m <= n < |ss| && m < |ls| && TornDown(ss[m], ls[m], id, why)
    requires Given(ss[n].d, id, c) && c in ss[n].d.live
    ensures Excuse(why, c)
  {
    ExecutionInv(kind, ls, ss, m);
    var s := ss[m];
    assert OpOk(s.d, s.ops[ls[m].o]);
    if why.StopTried? {
      GivenStays(kind, ls, ss, m, n, id, why.c);
      if why.ok {
        DeadStays(kind, ls, ss, m, n, why.c);
      }
    }
  }

  lemma {:induction false} GivenStays(kind: Kind, ls: seq<Label>, ss: seq<State>, i: nat, j: nat, id: Id, c: ContainerId)
    requires Execution(kind, ls, ss) && i <= j < |ss| && Given(ss[i].d, id, c)
    ensures Given(ss[j].d, id, c)
    decreases j - i
  {
    if i < j {
      InvAt(kind, ls, ss, i);
      GivenStays(kind, ls, ss, i + 1, j, id, c);
    }
  }

  lemma {:induction false} DeadStays(kind: Kind, ls: seq<Label>, ss: seq<State>, i: nat, j: nat, c: ContainerId)
    requires Execution(kind, ls, ss) && i <= j < |ss| && c in ss[i].d.maker && c !in ss[i].d.live
    ensures c !in ss[j].d.live
    decreases j - i
  {
    if i < j {
      InvAt(kind, ls, ss, i);
      DeadStays(kind, ls, ss, i + 1, j, c);
    }
  }

  // ---- Three root causes --------------------------------------------------------------

  /** The record of `c` was torn down before step `i` for this reason. */
  ghost predicate GoneBefore(ls: seq<Label>, ss: seq<State>, i: nat, id: Id, why: Why)
    requires i <= |ls| < |ss|
  {
    exists m :: 0 <= m < i && TornDown(ss[m], ls[m], id, why)
  }

  ghost predicate MissedUpdate(s: State, l: Label, c: ContainerId)
    requires Enabled(s, l)
  {
    ByLostUpdate(s, l, c) && l.a.ok && c in s.d.maker
  }

  /** `StopContainer(c)` failed. */
  ghost predicate StopFailed(ls: seq<Label>, ss: seq<State>, i: nat, c: ContainerId)
    requires i < |ls| < |ss| && Enabled(ss[i], ls[i])
  {
    || ByFailedStop(ss[i], ls[i], c)
    || (MissedUpdate(ss[i], ls[i], c) && GoneBefore(ls, ss, i, ss[i].d.maker[c], StopTried(c, false)))
  }

  /** The final `Update` of the create failed. */
  ghost predicate UpdateFailed(ls: seq<Label>, ss: seq<State>, i: nat, c: ContainerId)
    requires i < |ls| < |ss| && Enabled(ss[i], ls[i])
  {
    ByLostUpdate(ss[i], ls[i], c) && !ls[i].a.ok
  }

  /** A destroy or reap read the record while its container ID was still empty. */
  ghost predicate ReadTooEarly(ls: seq<Label>, ss: seq<State>, i: nat, c: ContainerId)
    requires i < |ls| < |ss| && Enabled(ss[i], ls[i])
  {
    || ByEmptyRead(ss[i], ls[i], c)
    || (MissedUpdate(ss[i], ls[i], c) && GoneBefore(ls, ss, i, ss[i].d.maker[c], ReadEmpty))
  }

  ghost predicate OneRootCause(ls: seq<Label>, ss: seq<State>, i: nat, c: ContainerId)
    requires i < |ls| < |ss| && Enabled(ss[i], ls[i])
  {
    var a, b, e := StopFailed(ls, ss, i, c), UpdateFailed(ls, ss, i, c), ReadTooEarly(ls, ss, i, c);
    (a && !b && !e) || (!a && b && !e) || (!a && !b && e)
  }

  /** A record is torn down at most once. */
  lemma TornDownOnce(kind: Kind, ls: seq<Label>, ss: seq<State>, i: nat, j: nat, id: Id, why: Why, other: Why)
    requires Execution(kind, ls, ss) && i < |ls| && j < |ls|
    requires TornDown(ss[i], ls[i], id, why) && TornDown(ss[j], ls[j], id, other)
    ensures i == j && why == other
  {
    if i < j {
      TornDownGone(kind, ls, ss, i, j, id, why);
    } else if j < i {
      TornDownGone(kind, ls, ss, j, i, id, other);
    }
  }

  lemma TornDownGone(kind: Kind, ls: seq<Label>, ss: seq<State>, i: nat, j: nat, id: Id, why: Why)
    requires Execution(kind, ls, ss) && i < j < |ss| && i < |ls| && TornDown(ss[i], ls[i], id, why)
    ensures !InTable(ss[j].d, id)
  {
    InvAt(kind, ls, ss, i);
    DeleteRemoves(ss[i], ls[i]);
    RecordOk(ss[i].d, id);
    RecordHistory(kind, ls, ss, i + 1, j, id);
  }

  lemma MissedUpdateExplained(kind: Kind, ls: seq<Label>, ss: seq<State>, i: nat, c: ContainerId)
    requires Execution(kind, ls, ss) && i < |ls| && c.Container? && MissedUpdate(ss[i], ls[i], c) && c in ss[i].d.live
    ensures GoneBefore(ls, ss, i, ss[i].d.maker[c], ReadEmpty) || GoneBefore(ls, ss, i, ss[i].d.maker[c], StopTried(c, false))
    ensures !(GoneBefore(ls, ss, i, ss[i].d.maker[c], ReadEmpty) && GoneBefore(ls, ss, i, ss[i].d.maker[c], StopTried(c, false)))
  {
    var s, l := ss[i], ls[i];
    ExecutionInv(kind, ls, ss, i);
    OpAt(s, l.o);
    LiveIsReal(s.d, c);
    var id := s.d.maker[c];
    MissingRecord(s, l, c);
    var m, why := FindDelete(kind, ls, ss, i, l.o, id);
    WhyTornDown(kind, ls, ss, m, i, id, why, c);
    assert GoneBefore(ls, ss, i, id, why);
    if GoneBefore(ls, ss, i, id, ReadEmpty) && GoneBefore(ls, ss, i, id, StopTried(c, false)) {
      var a :| 0 <= a < i && TornDown(ss[a], ls[a], id, ReadEmpty);
      var b :| 0 <= b < i && TornDown(ss[b], ls[b], id, StopTried(c, false));
      TornDownOnce(kind, ls, ss, a, b, id, ReadEmpty, StopTried(c, false));
    }
  }

  lemma MissingRecord(s: State, l: Label, c: ContainerId)
    requires Inv(s) && Enabled(s, l) && c.Container? && MissedUpdate(s, l, c)
    ensures Creates(s, l.o, s.d.maker[c]) && s.d.maker[c] in s.d.stored && !InTable(s.d, s.d.maker[c])
  {
    OpAt(s, l.o);
    var id := s.d.heap[s.ops[l.o].p].id;
    assert ObjOk(s.d.kind, s.d.born, s.d.given, s.d.heap[s.ops[l.o].p]);
    if InTable(s.d, id) {
      RecordOk(s.d, id);
    }
  }

  /** Every live container that neither a record names nor an operation in flight holds was
      lost by one step, and has exactly one root cause: a failed `StopContainer`, a failed
      final `Update`, or a destroy or reap that read the record before its container ID. */
  lemma OrphanRootCause(kind: Kind, ls: seq<Label>, ss: seq<State>, n: nat, c: ContainerId)
      returns (i: nat)
    requires Execution(kind, ls, ss) && n < |ss| && c in ss[n].d.live && !Accounted(ss[n], c)
    ensures i < n && LostAt(ss, i, c) && OneRootCause(ls, ss, i, c) && c.Container?
  {
    i := FindLoss(kind, ls, ss, n, c);
    if ByLostUpdate(ss[i], ls[i], c) && ls[i].a.ok {
      InvAt(kind, ls, ss, i);
      OpAt(ss[i], ls[i].o);
      if c !in ss[i].d.live {
        DeadStays(kind, ls, ss, i, n, c);
      }
      MissedUpdateExplained(kind, ls, ss, i, c);
    }
  }
}
