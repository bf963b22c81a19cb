/** The environment service and the reaper as they run one call at a time on the memory
    store: validation, the create saga with its rollback, destroy, and a reap pass. What
    interleaving adds is the subject of the lifecycle modules. */
module Service {
  import opened Domain
  import opened Entities
  import MemoryStore

  /** The container engine. Any call may fail; a failed stop leaves the container alive. */
  class Engine {
    var live: set<ContainerId>
    var next: nat
    var started: set<ContainerId>
    var failedStops: set<ContainerId>

    ghost predicate Valid()
      reads this
    {
      forall c :: c in live ==> c.Container? && c.n < next
    }

    method CreateContainer() returns (c: ContainerId)
      requires Valid()
      modifies this
      ensures Valid() && failedStops == old(failedStops) && started == old(started) && next >= old(next)
      ensures c.NoContainer? ==> live == old(live)
      ensures c.Container? ==> c !in old(live) && live == old(live) + {c}
    {
      var works: bool := *;
      if !works {
        return NoContainer;
      }
      c := Container(next);
      next := next + 1;
      live := live + {c};
    }

    method StartContainer(c: ContainerId) returns (ok: bool)
      modifies this`started
      ensures started == if ok then old(started) + {c} else old(started)
    {
      ok := *;
      if ok {
        started := started + {c};
      }
    }

    method StopContainer(c: ContainerId) returns (ok: bool)
      requires Valid()
      modifies this`live, this`failedStops
      ensures Valid()
      ensures if ok then live == old(live) - {c} && failedStops == old(failedStops)
              else live == old(live) && failedStops == old(failedStops) + {c}
    {
      ok := *;
      if ok {
        live := live - {c};
      } else {
        failedStops := failedStops + {c};
      }
    }
  }

  // ---- Requests -------------------------------------------------------------------------

  datatype Config = Config(allowed: seq<string>, cpu: real, memoryMB: int, diskMB: int, network: string, maxLifetime: nat)

  datatype Input = Input(image: string, cpu: real, memoryMB: int, diskMB: int, network: string,
                         envVars: map<string, string>, snapshot: Option<Id>)

  datatype Error = NotFound | ImageRequired | ImageNotAllowed | InvalidCpu | InvalidMemory | InvalidNetwork
                 | ContainerNotCreated | ContainerNotStarted

  datatype Result<T> = Ok(value: T) | Err(error: Error)

  /** A request that leaves a resource out gets the configured one. */
  function Cpu(input: Input, cfg: Config): real { if input.cpu <= 0.0 then cfg.cpu else input.cpu }
  function Memory(input: Input, cfg: Config): int { if input.memoryMB <= 0 then cfg.memoryMB else input.memoryMB }
  function Disk(input: Input, cfg: Config): int { if input.diskMB <= 0 then cfg.diskMB else input.diskMB }
  function Network(input: Input, cfg: Config): string { if input.network == "" then cfg.network else input.network }

  predicate ImageOk(input: Input, cfg: Config, snapshots: map<Id, Snapshot>, user: UserId) {
    match input.snapshot
    case Some(id) => id in snapshots && MaySee(user, snapshots[id].user)
    case None => input.image != "" && (cfg.allowed == [] || input.image in cfg.allowed)
  }

  predicate CpuOk(input: Input, cfg: Config) { 0.1 <= Cpu(input, cfg) <= 4.0 }
  predicate MemoryOk(input: Input, cfg: Config) { 128 <= Memory(input, cfg) <= 8192 }
  predicate NetworkOk(input: Input, cfg: Config) { Network(input, cfg) in {"none", "egress-limited", "full"} }

  predicate Acceptable(input: Input, cfg: Config, snapshots: map<Id, Snapshot>, user: UserId) {
    ImageOk(input, cfg, snapshots, user) && CpuOk(input, cfg) && MemoryOk(input, cfg) && NetworkOk(input, cfg)
  }

  /** `spec` is what the request asks for: a positive amount and a named policy are kept, what
      is left out comes from the configuration, and a snapshot stands for its image. */
  predicate Fills(spec: Spec, input: Input, cfg: Config, imageRef: Id -> string) {
    && (input.snapshot.Some? ==> spec.image == imageRef(input.snapshot.value))
    && (input.snapshot.None? ==> spec.image == input.image)
    && (input.cpu > 0.0 ==> spec.cpu == input.cpu) && (input.cpu <= 0.0 ==> spec.cpu == cfg.cpu)
    && (input.memoryMB > 0 ==> spec.memoryMB == input.memoryMB) && (input.memoryMB <= 0 ==> spec.memoryMB == cfg.memoryMB)
    && (input.diskMB > 0 ==> spec.diskMB == input.diskMB) && (input.diskMB <= 0 ==> spec.diskMB == cfg.diskMB)
    && (input.network != "" ==> spec.network == input.network) && (input.network == "" ==> spec.network == cfg.network)
    && spec.envVars == input.envVars
  }

  /** What a spec must be like. */
  predicate InRange(spec: Spec) {
    && 0.1 <= spec.cpu <= 4.0 && 128 <= spec.memoryMB <= 8192
    && (spec.network == "none" || spec.network == "egress-limited" || spec.network == "full")
  }

  function Add(t: Time, nanos: nat): (r: Time)
    ensures Nanos(r) == Nanos(t) + nanos
  {
    var sum := t.nsec + nanos;
    Time(t.sec + sum / 1_000_000_000, sum % 1_000_000_000)
  }

  // ---- Conservation -------------------------------------------------------------------------

  /** Every live container is named by a record, unless stopping it failed. */
  ghost predicate Conserved(envs: map<Id, Env>, live: set<ContainerId>, failedStops: set<ContainerId>) {
    forall c :: c in live ==> c in failedStops || exists id :: id in envs && envs[id].containerId == c
  }

  /** The container of every running record was started. */
  ghost predicate AllStarted(envs: map<Id, Env>, started: set<ContainerId>) {
    forall id :: id in envs && envs[id].status.Running? ==> envs[id].containerId in started
  }

  lemma ConservedAdd(envs: map<Id, Env>, live: set<ContainerId>, failed: set<ContainerId>, e: Env)
    requires Conserved(envs, live, failed) && e.id !in envs
    ensures Conserved(envs[e.id := e], live + {e.containerId}, failed)
  {
    var more := envs[e.id := e];
    assert more[e.id].containerId == e.containerId;
    forall c | c in live && c !in failed
      ensures exists id :: id in more && more[id].containerId == c
    {
      var id :| id in envs && envs[id].containerId == c;
      assert more[id].containerId == c;
    }
  }

  lemma ConservedDrop(envs: map<Id, Env>, live: set<ContainerId>, failed: set<ContainerId>, id: Id)
    requires Conserved(envs, live, failed) && id in envs
    requires envs[id].containerId in live ==> envs[id].containerId in failed
    ensures Conserved(envs - {id}, live, failed)
  {
    forall c | c in live && c !in failed
      ensures exists k :: k in envs - {id} && (envs - {id})[k].containerId == c
    {
      var k :| k in envs && envs[k].containerId == c;
      assert (envs - {id})[k].containerId == c;
    }
  }

  class EnvironmentService {
    const store: MemoryStore.MemoryStore
    const engine: Engine
    const cfg: Config
    const imageRef: Id -> string

    constructor (store: MemoryStore.MemoryStore, engine: Engine, cfg: Config, imageRef: Id -> string)
      ensures this.store == store && this.engine == engine && this.cfg == cfg && this.imageRef == imageRef
    {
      this.store, this.engine, this.cfg, this.imageRef := store, engine, cfg, imageRef;
    }

    ghost predicate Valid()
      reads this, store, store.envs.Values, engine
    {
      && store.EnvsValid() && engine.Valid() && Conserved(store.EnvView(), engine.live, engine.failedStops)
      && AllStarted(store.EnvView(), engine.started)
    }

    /** The checks in the order the code makes them; the first that fails decides. */
    method Validate(user: UserId, input: Input) returns (r: Result<Spec>)
      ensures r.Ok? <==> Acceptable(input, cfg, store.snapshots, user)
      ensures r.Ok? ==> Fills(r.value, input, cfg, imageRef) && InRange(r.value)
      ensures forall spec :: Fills(spec, input, cfg, imageRef) && !InRange(spec) ==> r.Err?
      ensures r.Err? ==>
        match r.error
        case NotFound => input.snapshot.Some? && !ImageOk(input, cfg, store.snapshots, user)
        case ImageRequired => input.snapshot.None? && input.image == ""
        case ImageNotAllowed => input.snapshot.None? && input.image != "" && !ImageOk(input, cfg, store.snapshots, user)
        case InvalidCpu => ImageOk(input, cfg, store.snapshots, user) && !CpuOk(input, cfg)
        case InvalidMemory => ImageOk(input, cfg, store.snapshots, user) && CpuOk(input, cfg) && !MemoryOk(input, cfg)
        case InvalidNetwork =>
          ImageOk(input, cfg, store.snapshots, user) && CpuOk(input, cfg) && MemoryOk(input, cfg) && !NetworkOk(input, cfg)
        case _ => false
    {
      var req := input;
      if req.snapshot.Some? {
        var snap := store.GetSnapshot(req.snapshot.value, user);
        if snap.None? {
          return Err(NotFound);
        }
        req := req.(image := imageRef(req.snapshot.value));
      } else {
        if req.image == "" {
          return Err(ImageRequired);
        }
        if |cfg.allowed| > 0 && req.image !in cfg.allowed {
          return Err(ImageNotAllowed);
        }
      }
      if req.cpu <= 0.0 { req := req.(cpu := cfg.cpu); }
      if req.memoryMB <= 0 { req := req.(memoryMB := cfg.memoryMB); }
      if req.diskMB <= 0 { req := req.(diskMB := cfg.diskMB); }
      if req.network == "" { req := req.(network := cfg.network); }
      if req.cpu < 0.1 || req.cpu > 4.0 {
        return Err(InvalidCpu);
      }
      if req.memoryMB < 128 || req.memoryMB > 8192 {
        return Err(InvalidMemory);
      }
      if req.network !in {"none", "egress-limited", "full"} {
        return Err(InvalidNetwork);
      }
      return Ok(Spec(req.image, req.cpu, req.memoryMB, req.diskMB, req.network, req.envVars));
    }

    /** Either a running record with a live container of its own appears, or the store is as
        before and no container is left over unless stopping it failed. */
    method CreateEnvironment(tenant: UserId, user: UserId, input: Input, id: Id, now: Time)
      returns (r: Result<MemoryStore.EnvObject>)
      requires Valid() && id !in store.envs
      modifies store`envs, engine
      ensures Valid()
      ensures !Acceptable(input, cfg, store.snapshots, user) ==> r.Err? && engine.live == old(engine.live)
      ensures r.Err? ==> store.EnvView() == old(store.EnvView()) && NoneLeft(old(engine.live), engine.live, engine.failedStops)
      ensures r.Ok? ==>
        var e := r.value.e;
        && store.EnvView() == old(store.EnvView())[id := e]
        && e.id == id && e.user == user && e.tenant == tenant && e.status.Running?
        && Fills(e.spec, input, cfg, imageRef) && InRange(e.spec) && e.containerId in engine.started
        && e.createdAt == now && e.lastUsedAt == now && Nanos(e.expiresAt) == Nanos(now) + cfg.maxLifetime
        && e.containerId !in old(engine.live) && engine.live == old(engine.live) + {e.containerId}
    {
      var v := Validate(user, input);
      if v.Err? {
        return Err(v.error);
      }
      var env := new MemoryStore.EnvObject(
        Env(id, tenant, user, v.value, Creating, NoContainer, now, now, Add(now, cfg.maxLifetime)));
      var failure := Launch(env);
      return if failure.Some? then Err(failure.value) else Ok(env);
    }

    /** The saga: store the record, create and start the container, publish both. */
    method Launch(env: MemoryStore.EnvObject) returns (failure: Option<Error>)
      requires Valid() && env.e.id !in store.envs && env !in store.envs.Values
      modifies store`envs, engine, env
      ensures Valid()
      ensures failure.Some? ==>
        store.EnvView() == old(store.EnvView()) && NoneLeft(old(engine.live), engine.live, engine.failedStops)
      ensures failure.None? ==>
        && env.e == old(env.e).(containerId := env.e.containerId, status := Running)
        && store.EnvView() == old(store.EnvView())[env.e.id := env.e]
        && env.e.containerId !in old(engine.live) && engine.live == old(engine.live) + {env.e.containerId}
        && env.e.containerId in engine.started
    {
      ghost var before := store.EnvView();
      store.Create(env);
      var c := engine.CreateContainer();
      if c.NoContainer? {
        Abandon(env, before);
        return Some(ContainerNotCreated);
      }
      env.e := env.e.(containerId := c);
      assert store.EnvView() == before[env.e.id := env.e];
      var started := engine.StartContainer(c);
      if !started {
        Rollback(env, c, before);
        return Some(ContainerNotStarted);
      }
      Publish(env, before);
      ConservedAdd(before, old(engine.live), engine.failedStops, env.e);
      return None;
    }

    method Abandon(env: MemoryStore.EnvObject, ghost before: map<Id, Env>)
      requires store.EnvsValid() && env.e.id !in before && env.e.id in store.envs
      requires store.EnvView() == before[env.e.id := env.e]
      modifies store`envs
      ensures store.EnvsValid() && store.EnvView() == before
    {
      assert store.EnvView()[env.e.id] == env.e;
      var _ := store.Delete(env.e.id, env.e.user);
      assert store.EnvView() == before;
    }

    /** The record is already visible through the shared pointer; `Update` only confirms it. */
    method Publish(env: MemoryStore.EnvObject, ghost before: map<Id, Env>)
      requires store.EnvsValid() && env.e.id in store.envs && store.envs[env.e.id] == env
      requires forall id :: id in store.envs && id != env.e.id ==> store.envs[id] != env
      requires store.EnvView() == before[env.e.id := env.e]
      modifies store`envs, env
      ensures store.EnvsValid() && env.e == old(env.e).(status := Running)
      ensures store.EnvView() == before[env.e.id := env.e]
    {
      env.e := env.e.(status := Running);
      assert store.EnvView() == before[env.e.id := env.e];
      var _ := store.Update(env);
    }

    method Rollback(env: MemoryStore.EnvObject, c: ContainerId, ghost before: map<Id, Env>)
      requires store.EnvsValid() && engine.Valid() && env.e.id !in before && Conserved(before, engine.live - {c}, engine.failedStops)
      requires AllStarted(before, engine.started)
      requires env.e.id in store.envs && store.EnvView() == before[env.e.id := env.e]
      modifies store`envs, engine`live, engine`failedStops
      ensures Valid() && store.EnvView() == before
      ensures engine.live == old(engine.live) - {c} || (engine.live == old(engine.live) && c in engine.failedStops)
    {
      var _ := engine.StopContainer(c);
      Abandon(env, before);
    }

    /** A destroy removes the caller's record and its container, which survives only a failed
        stop; a record of someone else, or none at all, changes nothing. */
    method DestroyEnvironment(id: Id, user: UserId) returns (found: bool, stopped: bool)
      requires Valid()
      modifies store`envs, engine`live, engine`failedStops
      ensures Valid()
      ensures found == Lookup(old(store.EnvView()), EnvOwner, id, user).Some?
      ensures store.EnvView() == Remove(old(store.EnvView()), EnvOwner, id, user)
      ensures !found ==> engine.live == old(engine.live)
      ensures found ==> engine.live == if stopped then old(engine.live) - {old(store.EnvView())[id].containerId} else old(engine.live)
    {
      var env := store.Get(id, user);
      if env == null {
        return false, false;
      }
      stopped := StopAndDelete(env, user);
      return true, stopped;
    }

    /** What destroy and reap do with one record. */
    method StopAndDelete(env: MemoryStore.EnvObject, user: UserId) returns (stopped: bool)
      requires Valid() && env.e.id in store.envs && store.envs[env.e.id] == env && MaySee(user, env.e.user)
      modifies store`envs, engine`live, engine`failedStops
      ensures Valid() && store.envs == old(store.envs) - {env.e.id}
      ensures store.EnvView() == old(store.EnvView()) - {env.e.id}
      ensures old(engine.failedStops) <= engine.failedStops
      ensures engine.live == if stopped then old(engine.live) - {env.e.containerId} else old(engine.live)
      ensures !stopped ==> env.e.containerId in engine.failedStops
    {
      ghost var before := store.EnvView();
      stopped := true;
      if env.e.containerId.Container? {
        stopped := engine.StopContainer(env.e.containerId);
      }
      ConservedDrop(before, engine.live, engine.failedStops, env.e.id);
      var _ := store.Delete(env.e.id, user);
      assert store.EnvView() == before - {env.e.id};
    }

    /** A pass of the reaper: exactly the expired records are gone, and their containers with
        them, except where stopping failed. */
    method ReapPass(now: int)
      requires Valid()
      modifies store`envs, engine`live, engine`failedStops
      ensures Valid()
      ensures store.EnvView() == Reaped(old(store.EnvView()), now, store.idleTimeout)
      ensures engine.live <= old(engine.live)
      ensures forall id :: id in old(store.EnvView()) && Expired(old(store.EnvView())[id], now, store.idleTimeout) ==>
                old(store.EnvView())[id].containerId !in engine.live || old(store.EnvView())[id].containerId in engine.failedStops
    {
      ghost var due := ExpiredEnvs(store.EnvView(), now, store.idleTimeout);
      var expired := store.ListExpired(now);
      DueIds(store, expired, due);
      ReapListed(expired, due);
    }

    method ReapListed(rs: seq<MemoryStore.EnvObject>, ghost due: map<Id, Env>)
      requires Valid()
      requires forall i, j :: 0 <= i < j < |rs| ==> rs[i].e.id != rs[j].e.id
      requires forall i :: 0 <= i < |rs| ==> rs[i].e.id in store.envs && store.envs[rs[i].e.id] == rs[i]
      requires Ids(rs) == due.Keys && forall id :: id in due ==> exists j :: 0 <= j < |rs| && rs[j].e == due[id]
      modifies store`envs, engine`live, engine`failedStops
      ensures Valid() && engine.live <= old(engine.live)
      ensures store.EnvView() == old(store.EnvView()) - due.Keys
      ensures forall id :: id in due ==> Settled(due[id])
    {
      StopAndDeleteEach(rs);
      forall id | id in due
        ensures Settled(due[id])
      {
        var j :| 0 <= j < |rs| && rs[j].e == due[id];
      }
    }

    /** The reaper's loop over the listed records. */
    method StopAndDeleteEach(rs: seq<MemoryStore.EnvObject>)
      requires Valid()
      requires forall i, j :: 0 <= i < j < |rs| ==> rs[i].e.id != rs[j].e.id
      requires forall i :: 0 <= i < |rs| ==> rs[i].e.id in store.envs && store.envs[rs[i].e.id] == rs[i]
      modifies store`envs, engine`live, engine`failedStops
      ensures Valid() && engine.live <= old(engine.live)
      ensures store.EnvView() == old(store.EnvView()) - Ids(rs)
      ensures forall j :: 0 <= j < |rs| ==> Settled(rs[j].e)
    {
      ghost var before, live := store.EnvView(), engine.live;
      for i := 0 to |rs|
        invariant Valid() && engine.live <= live
        invariant forall j :: i <= j < |rs| ==> rs[j].e.id in store.envs && store.envs[rs[j].e.id] == rs[j]
        invariant store.EnvView() == before - Ids(rs[..i])
        invariant forall j :: 0 <= j < i ==> Settled(rs[j].e)
      {
        ReapNext(rs, i, before);
      }
      assert rs[..|rs|] == rs;
    }

    /** The container of `e` is gone, or stopping it failed. */
    ghost predicate Settled(e: Env)
      reads engine
    {
      e.containerId !in engine.live || e.containerId in engine.failedStops
    }

    method ReapNext(rs: seq<MemoryStore.EnvObject>, i: nat, ghost before: map<Id, Env>)
      requires Valid() && i < |rs| && store.EnvView() == before - Ids(rs[..i])
      requires rs[i].e.id in store.envs && store.envs[rs[i].e.id] == rs[i]
      modifies store`envs, engine`live, engine`failedStops
      ensures Valid() && engine.live <= old(engine.live) && old(engine.failedStops) <= engine.failedStops
      ensures store.envs == old(store.envs) - {rs[i].e.id} && store.EnvView() == before - Ids(rs[..i + 1])
      ensures Settled(rs[i].e)
    {
      var _ := StopAndDelete(rs[i], Anyone);
      IdsSnoc(rs, i);
    }
  }

  ghost function Ids(rs: seq<MemoryStore.EnvObject>): set<Id>
    reads rs
  {
    set r | r in rs :: r.e.id
  }

  /** A listing holds the due records, each under its own ID. */
  lemma DueIds(store: MemoryStore.MemoryStore, rs: seq<MemoryStore.EnvObject>, due: map<Id, Env>)
    requires store.EnvsValid() && store.Lists(rs, due)
    ensures Ids(rs) == due.Keys
    ensures forall i, j :: 0 <= i < j < |rs| ==> rs[i].e.id != rs[j].e.id
    ensures forall id :: id in due ==> exists j :: 0 <= j < |rs| && rs[j].e == due[id]
  {
    forall id | id in due
      ensures exists j :: 0 <= j < |rs| && rs[j].e == due[id] && rs[j] == store.envs[id]
    {
      assert store.envs[id] in rs;
    }
    forall id | id in due
      ensures id in Ids(rs)
    {
      var j :| 0 <= j < |rs| && rs[j] == store.envs[id];
      assert rs[j] in rs;
    }
  }

  lemma IdsSnoc(rs: seq<MemoryStore.EnvObject>, i: nat)
    requires i < |rs|
    ensures Ids(rs[..i + 1]) == Ids(rs[..i]) + {rs[i].e.id}
  {
    assert rs[..i + 1] == rs[..i] + [rs[i]];
  }

  /** No container is left over, unless stopping it failed. */
  ghost predicate NoneLeft(before: set<ContainerId>, after: set<ContainerId>, failedStops: set<ContainerId>) {
    before <= after && forall c :: c in after && c !in before ==> c in failedStops
  }

  // ---- Snapshots -------------------------------------------------------------------------

  /** The engine's snapshot images. Both calls may fail. */
  class ImageEngine {
    var images: set<Id>
    var failedDeletes: set<Id>

    method SnapshotContainer(id: Id) returns (ok: bool)
      modifies this`images
      ensures images == if ok then old(images) + {id} else old(images)
    {
      ok := *;
      if ok {
        images := images + {id};
      }
    }

    method DeleteSnapshotImage(id: Id) returns (ok: bool)
      modifies this`images, this`failedDeletes
      ensures if ok then images == old(images) - {id} && failedDeletes == old(failedDeletes)
              else images == old(images) && failedDeletes == old(failedDeletes) + {id}
    {
      ok := *;
      if ok {
        images := images - {id};
      } else {
        failedDeletes := failedDeletes + {id};
      }
    }
  }

  datatype SnapshotError = EnvNotFound | EnvNotRunning | CommitFailed | StoreFailed

  class SnapshotService {
    const store: MemoryStore.MemoryStore
    const engine: ImageEngine

    constructor (store: MemoryStore.MemoryStore, engine: ImageEngine)
      ensures this.store == store && this.engine == engine
    {
      this.store, this.engine := store, engine;
    }

    /** Every snapshot image has a record, unless deleting it failed. */
    ghost predicate Valid()
      reads this, store, store.envs.Values, engine
    {
      store.EnvsValid() && forall id :: id in engine.images ==> id in store.snapshots || id in engine.failedDeletes
    }

    /** A snapshot of a running environment of the user gets an image and a record; when the
        store refuses the record the image goes again, unless deleting it fails. */
    method CreateSnapshot(tenant: UserId, user: UserId, envId: Id, note: string, id: Id, imageId: string,
                          now: Time, storeWorks: bool)
      returns (failure: Option<SnapshotError>)
      requires Valid() && id !in store.snapshots && id !in engine.images
      modifies store`snapshots, engine
      ensures Valid()
      ensures var env := Lookup(store.EnvView(), EnvOwner, envId, user);
              && (failure == Some(EnvNotFound) <==> env.None?)
              && (failure == Some(EnvNotRunning) <==> env.Some? && !env.value.status.Running?)
      ensures failure.Some? ==> store.snapshots == old(store.snapshots)
      ensures failure.Some? ==> engine.images == old(engine.images)
                                || (engine.images == old(engine.images) + {id} && id in engine.failedDeletes)
      ensures failure.None? ==> engine.images == old(engine.images) + {id} && id in store.snapshots
      ensures failure.None? ==>
        store.snapshots == old(store.snapshots)[id := Snapshot(id, tenant, user, envId, imageId, note, 0, now)]
    {
      var env := store.Get(envId, user);
      if env == null {
        return Some(EnvNotFound);
      }
      if env.e.status != Running {
        return Some(EnvNotRunning);
      }
      var committed := engine.SnapshotContainer(id);
      if !committed {
        return Some(CommitFailed);
      }
      if !storeWorks {
        var _ := engine.DeleteSnapshotImage(id);
        assert engine.images == old(engine.images) || engine.images == old(engine.images) + {id};
        return Some(StoreFailed);
      }
      store.CreateSnapshot(Snapshot(id, tenant, user, envId, imageId, note, 0, now));
      return None;
    }

    /** Deleting a snapshot removes the user's record, and its image unless that failed. */
    method DeleteSnapshot(id: Id, user: UserId) returns (found: bool)
      requires Valid()
      modifies store`snapshots, engine
      ensures Valid()
      ensures found == Lookup(old(store.snapshots), SnapshotOwner, id, user).Some?
      ensures store.snapshots == Remove(old(store.snapshots), SnapshotOwner, id, user)
      ensures engine.images == old(engine.images) || (found && engine.images == old(engine.images) - {id})
      ensures found && id in engine.images ==> id in engine.failedDeletes
    {
      var snap := store.GetSnapshot(id, user);
      if snap.None? {
        return false;
      }
      var _ := engine.DeleteSnapshotImage(id);
      found := store.DeleteSnapshot(id, user);
    }
  }

  // ---- Exec ------------------------------------------------------------------------------

  datatype ExecError = TargetNotFound | TargetNotRunning | CommandRequired | ExecFailed

  /** `PrepareExec` and `getRunningEnv`. */
  method PrepareExec(store: MemoryStore.MemoryStore, id: Id, user: UserId)
    returns (target: MemoryStore.EnvObject?, failure: Option<ExecError>)
    requires store.EnvsValid()
    ensures target == null <==> failure.Some?
    ensures failure == Some(TargetNotFound) <==> Lookup(store.EnvView(), EnvOwner, id, user).None?
    ensures target != null ==> id in store.envs && store.envs[id] == target && target.e.status.Running?
    ensures target != null ==> Lookup(store.EnvView(), EnvOwner, id, user) == Some(target.e)
  {
    var env := store.Get(id, user);
    if env == null {
      return null, Some(TargetNotFound);
    }
    if env.e.status != Running {
      return null, Some(TargetNotRunning);
    }
    return env, None;
  }

  /** `StartExec` on a target that was read earlier. If the record has gone in the meantime
      the write to the old object does not bring it back; otherwise the last-used time of
      that record is all that changes. */
  method StartExec(store: MemoryStore.MemoryStore, env: MemoryStore.EnvObject, command: seq<string>, execWorks: bool, now: Time)
    returns (failure: Option<ExecError>)
    requires store.EnvsValid() && (env.e.id in store.envs ==> store.envs[env.e.id] == env)
    modifies store`envs, env
    ensures store.EnvsValid() && store.envs == old(store.envs)
    ensures failure == if command == [] then Some(CommandRequired) else if !execWorks then Some(ExecFailed) else None
    ensures env.e == if failure.Some? then old(env.e) else old(env.e).(lastUsedAt := now)
    ensures store.EnvView() == if failure.None? && env.e.id in old(store.envs)
                               then old(store.EnvView())[env.e.id := env.e] else old(store.EnvView())
  {
    if command == [] {
      return Some(CommandRequired);
    }
    if !execWorks {
      return Some(ExecFailed);
    }
    store.UpdateLastUsed(env, now);
    return None;
  }
}
