/** The records HaaS keeps about environments, and the two ways a store holds one:
    as the Go struct itself (the memory store) or as a row of columns (the SQL store).
    A time is a count of seconds since the Unix epoch and the nanoseconds within that
    second, as Go's `time.Time` carries it. */
module Domain {

  datatype Option<+T> = None | Some(value: T)

  type Byte = x: int | 0 <= x < 256

  type Bytes = seq<Byte>

  /** IDs are opaque: only their equality matters. */
  type Id = nat
  /** `Anyone` is the empty user ID, which bypasses the ownership filter. */
  datatype UserId = Anyone | User(n: nat)
  /** `NoContainer` is the empty container ID. */
  datatype ContainerId = NoContainer | Container(n: nat)

  datatype Time = Time(sec: int, nsec: int)

  datatype Status = Creating | Running | Stopping | Stopped | Destroyed

  datatype Spec = Spec(image: string, cpu: real, memoryMB: int, diskMB: int,
                       network: string, envVars: map<string, string>)

  datatype Env = Env(id: Id, tenant: UserId, user: UserId, spec: Spec, status: Status,
                     containerId: ContainerId, createdAt: Time, lastUsedAt: Time, expiresAt: Time)

  /** One row of the `environments` table, without its primary key. Times are whole seconds. */
  datatype Row = Row(user: UserId, tenant: UserId, status: Status, containerId: ContainerId,
                     createdAt: int, lastUsedAt: int, expiresAt: int, spec: Spec)

  /** Go's `Time.Unix()`: rounds towards the past, also before 1970. */
  function Unix(t: Time): int { t.sec }

  function FromUnix(seconds: int): Time { Time(seconds, 0) }

  /** What a time becomes after a trip through an SQL column. */
  function Floor(t: Time): Time { FromUnix(Unix(t)) }

  function ToRow(e: Env): Row {
    Row(e.user, e.tenant, e.status, e.containerId,
        Unix(e.createdAt), Unix(e.lastUsedAt), Unix(e.expiresAt), e.spec)
  }

  /** `scanEnv`. */
  function FromRow(id: Id, r: Row): Env {
    Env(id, r.tenant, r.user, r.spec, r.status, r.containerId,
        FromUnix(r.createdAt), FromUnix(r.lastUsedAt), FromUnix(r.expiresAt))
  }

  /** The columns that SQL `Update` assigns; image, network policy, tenant and creation
      time keep the row's own values. */
  function UpdateRow(r: Row, e: Env): Row {
    r.(status := e.status, containerId := e.containerId,
       lastUsedAt := Unix(e.lastUsedAt), expiresAt := Unix(e.expiresAt),
       spec := r.spec.(cpu := e.spec.cpu, memoryMB := e.spec.memoryMB,
                       diskMB := e.spec.diskMB, envVars := e.spec.envVars))
  }

  function Truncate(e: Env): Env {
    e.(createdAt := Floor(e.createdAt), lastUsedAt := Floor(e.lastUsedAt), expiresAt := Floor(e.expiresAt))
  }

  /** The ownership filter of both stores. */
  predicate MaySee(user: UserId, owner: UserId) { user.Anyone? || owner == user }
}
