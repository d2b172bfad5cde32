/** The versioned read-through cache as a transition system.

    Every await in the service is a point where other tasks may run, so one call
    of the service is a sequence of atomic actions: look up the namespace version, get,
    fetch the process-local lock object, acquire it, get again, try the Redis lock,
    poll, compute, store, release, leave.  The shared state holds the committed
    database history, the Redis entries and locks with their expiry times, each
    process's table of lock objects and each process's local copy of the version.

    Fields called `...At` and `lastMiss`, and the collections `issuer`, `started`,
    `computes`, `granted` and `late`, only record what happened; no action reads them. */
module CacheModel {

  type Time = real
  type TaskId = nat
  type ProcId = nat
  type LockId = nat
  type Payload = string
  type Record = map<string, string>

  /** The JSON text whose decoded value counts as a miss. */
  const NULL: Payload := "null"

  /** How long a process trusts its local copy of a version. */
  const LOCAL_WINDOW: Time := 5.0
  const JSON_POLL: Time := 0.1
  const BYTES_POLL: Time := 0.05
  const BYTES_ROUNDS: nat := 5

  /** `compute` is the uncached query: the parameters and the database content it reads. */
  datatype Config = Config(compute: (string, Record) -> Payload, lockTtl: Time, entryTtl: Time)

  /** Which of the two service methods a task runs. */
  datatype Variant = Json | Bytes

  datatype Key = Key(params: string, version: nat)
  datatype Entry = Entry(payload: Payload, expires: Time)
  datatype RedisLock = RedisLock(token: nat, expires: Time)
  datatype LocalVersion = LocalVersion(expires: Time, version: nat, readAt: Time)

  /** When a task that lost the Redis lock stops polling. */
  datatype Until = Deadline(at: Time) | Rounds(left: nat)

  datatype Pc =
    | New
    | VersionRead(seen: nat, readAt: Time)
    | Looked
    | Missed1
    | Waiting
    | Holding
    | Missed2
    | NxFailed
    | Sleeping(until: Until, since: Time)
    | Polled(until: Until)
    | Ready
    | Computing
    | Computed(value: Payload)
    | Stored(value: Payload)
    | Released(value: Payload)
    | Done(result: Payload, hit: bool)
    | Failed

  datatype Task = Task(
    proc: ProcId,
    variant: Variant,
    params: string,
    pc: Pc,
    version: nat,
    lookedAt: Time,
    versionAt: Time,
    lock: LockId,
    acquired: bool,
    token: nat,
    acquiredAt: Time,
    lastMiss: Time,
    nxAt: Time)
  {
    function K(): Key { Key(params, version) }
    function At(): (ProcId, Key) { (proc, K()) }
  }

  datatype State = State(
    now: Time,
    history: seq<Record>,   // history[v - 1] is the data committed with version v
    commitAt: seq<Time>,
    local: map<ProcId, LocalVersion>,
    entries: map<Key, Entry>,
    locks: map<Key, RedisLock>,
    table: map<(ProcId, Key), LockId>,
    owner: map<LockId, TaskId>,
    nextLock: LockId,
    nextToken: nat,
    issuer: map<nat, TaskId>,   // which task made each token
    tasks: map<TaskId, Task>,
    started: multiset<(ProcId, Key)>,
    computes: multiset<Key>,
    granted: multiset<Key>,
    late: set<Key>)

  /** A Redis request succeeds, is executed but its reply is lost, or never arrives. */
  datatype Outcome = Ok | Lost | Down

  datatype Action =
    | LookupNoRedis
    | LookupLocal
    | LookupDb
    | LookupStore
    | Get1(o: Outcome)
    | TakeRef
    | Acquire
    | Get2(o: Outcome)
    | NoClient
    | SetNx(o: Outcome)
    | BeginWait
    | PollGet(o: Outcome)
    | PollCheck
    | StartCompute
    | ReadDb
    | Store(o: Outcome)
    | Release(o: Outcome)
    | Finish
    | Abort

  datatype Step =
    | Tick(d: Time)
    | Evict(k: Key)
    | EvictLock(k: Key)
    | PopLocal(p: ProcId)
    | Commit(data: Record)
    | Do(t: TaskId, a: Action)

  // ----- reading the state -----

  /** The committed version of the namespace: an absent row counts as 1 and every bump adds 1. */
  function Version(s: State): nat { |s.history| }

  predicate Live(s: State, k: Key) { k in s.entries && s.now < s.entries[k].expires }

  predicate Usable(v: Variant, p: Payload) { v.Bytes? || p != NULL }

  /** What a get that reaches Redis gives this variant. */
  predicate Hits(s: State, v: Variant, k: Key) { Live(s, k) && Usable(v, s.entries[k].payload) }

  predicate RedisLockHeld(s: State, k: Key) { k in s.locks && s.now < s.locks[k].expires }

  /** The task is inside `async with local_lock`. */
  predicate InLocal(pc: Pc) {
    pc.Holding? || PastMiss(pc)
  }

  /** The task has missed twice and is bound for the compute unless a poll finds an entry. */
  predicate PastMiss(pc: Pc) {
    pc.Missed2? || pc.NxFailed? || pc.Sleeping? || pc.Polled? || pc.Ready?
    || pc.Computing? || pc.Computed? || pc.Stored? || pc.Released?
  }

  /** The compute has been started and its value is not stored yet. */
  predicate InCompute(pc: Pc) { pc.Computing? || pc.Computed? }

  predicate Finished(pc: Pc) { pc.Done? || pc.Failed? }

  // ----- the actions -----

  function Wait(c: Config, s: State, x: Task): Until {
    if x.variant.Json? then Deadline(s.now + c.lockTtl) else Rounds(BYTES_ROUNDS)
  }

  function Pause(x: Task): Time { if x.variant.Json? then JSON_POLL else BYTES_POLL }

  /** The control point and the guards at which the task can take the action. */
  predicate TaskEnabled(s: State, x: Task, a: Action) {
    match a
    case LookupNoRedis => x.pc.New?
    case LookupLocal => x.pc.New? && x.proc in s.local && s.now < s.local[x.proc].expires
    case LookupDb => x.pc.New? && !(x.proc in s.local && s.now < s.local[x.proc].expires)
    case LookupStore => x.pc.VersionRead?
    case Get1(_) => x.pc.Looked?
    case TakeRef => x.pc.Missed1?
    case Acquire => x.pc.Waiting? && x.lock !in s.owner
    case Get2(_) => x.pc.Holding?
    case NoClient => x.pc.Missed2?
    case SetNx(_) => x.pc.Missed2?
    case BeginWait => x.pc.NxFailed?
    case PollGet(_) => x.pc.Sleeping? && x.pc.since + Pause(x) <= s.now
    case PollCheck => x.pc.Polled?
    case StartCompute => x.pc.Ready?
    case ReadDb => x.pc.Computing?
    case Store(_) => x.pc.Computed?
    case Release(_) => x.pc.Stored?
    case Finish => x.pc.Released?
    case Abort => !x.pc.New? && !Finished(x.pc)
  }

  predicate Enabled(s: State, step: Step) {
    match step
    case Tick(d) => d > 0.0
    case Evict(k) => k in s.entries
    case EvictLock(k) => k in s.locks
    case PopLocal(_) => true
    case Commit(_) => true
    case Do(t, a) => t in s.tasks && TaskEnabled(s, s.tasks[t], a)
  }

  // ----- what an action decides -----

  /** A get that reaches Redis and finds a usable entry ends the call. */
  predicate Served(s: State, x: Task, a: Action) {
    (a.Get1? || a.Get2? || a.PollGet?) && a.o.Ok? && Hits(s, x.variant, x.K())
  }

  /** `SET lock:key token NX EX ttl` takes effect only when no live lock is there. */
  predicate Grants(s: State, x: Task, a: Action) {
    a.SetNx? && !a.o.Down? && !RedisLockHeld(s, x.K())
  }

  /** The compare-and-delete script, sent only by a task that was granted the lock. */
  predicate Unlocks(s: State, x: Task, a: Action) {
    && a.Release? && x.acquired && !a.o.Down?
    && RedisLockHeld(s, x.K()) && s.locks[x.K()].token == x.token
  }

  predicate Writes(a: Action) { a.Store? && !a.o.Down? }

  /** Leaving `async with local_lock`: with a cached value, after the fill, or by an exception. */
  predicate Leaves(s: State, x: Task, a: Action) {
    InLocal(x.pc) && (Served(s, x, a) || a.Finish? || a.Abort?)
  }

  /** The JSON variant pops the lock table only after a fill, the bytes variant in a `finally`. */
  predicate Pops(s: State, x: Task, a: Action) {
    Leaves(s, x, a) && (a.Finish? || x.variant.Bytes?)
  }

  predicate MakesLock(s: State, x: Task, a: Action) { a.TakeRef? && x.At() !in s.table }

  /** The guard of the polling loop: sleep once more, or give up and compute. */
  function Loop(s: State, u: Until): Pc {
    var again :=
      match u
      case Deadline(at) => s.now < at
      case Rounds(left) => left > 0;
    if again then Sleeping(u, s.now) else Ready
  }

  function AfterPoll(u: Until): Until {
    match u
    case Deadline(at) => u
    case Rounds(left) => Rounds(if left > 0 then left - 1 else 0)
  }

  /** Where the task stands after the action. */
  function NextTask(c: Config, s: State, x: Task, a: Action): Task
    requires TaskEnabled(s, x, a)
    requires |s.history| > 0
  {
    if Served(s, x, a) then x.(pc := Done(s.entries[x.K()].payload, true)) else
    match a
    case LookupNoRedis => x.(pc := Looked, version := 1, lookedAt := s.now, versionAt := s.now)
    case LookupLocal =>
      var l := s.local[x.proc];
      x.(pc := Looked, version := l.version, lookedAt := s.now, versionAt := l.readAt)
    case LookupDb => x.(pc := VersionRead(Version(s), s.now))
    case LookupStore =>
      x.(pc := Looked, version := x.pc.seen, lookedAt := s.now, versionAt := x.pc.readAt)
    case Get1(_) => x.(pc := Missed1)
    case TakeRef => x.(pc := Waiting, lock := if x.At() in s.table then s.table[x.At()] else s.nextLock)
    case Acquire => x.(pc := Holding)
    case Get2(_) => x.(pc := Missed2, lastMiss := s.now)
    case NoClient => x.(pc := Ready)
    case SetNx(o) =>
      var won := Grants(s, x, a) && o.Ok?;
      x.(pc := if won then Ready else NxFailed, acquired := won,
         token := s.nextToken, acquiredAt := s.now, nxAt := s.now)
    case BeginWait => x.(pc := Loop(s, Wait(c, s, x)))
    case PollGet(_) => x.(pc := Polled(AfterPoll(x.pc.until)), lastMiss := s.now)
    case PollCheck => x.(pc := Loop(s, x.pc.until))
    case StartCompute => x.(pc := Computing)
    case ReadDb => x.(pc := Computed(c.compute(x.params, s.history[|s.history| - 1])))
    case Store(_) => x.(pc := Stored(x.pc.value))
    case Release(_) => x.(pc := Released(x.pc.value))
    case Finish => x.(pc := Done(x.pc.value, false))
    case Abort => x.(pc := Failed)
  }

  /** The action's effect on the shared state.  A granted lock whose reply was lost stays in
      Redis although the task believes it was refused. */
  function Act(c: Config, s: State, t: TaskId, a: Action): State
    requires t in s.tasks && TaskEnabled(s, s.tasks[t], a)
    requires |s.history| > 0
  {
    var x := s.tasks[t];
    s.(tasks := s.tasks[t := NextTask(c, s, x, a)],
       local := if a.LookupStore?
                then s.local[x.proc := LocalVersion(s.now + LOCAL_WINDOW, x.pc.seen, x.pc.readAt)]
                else s.local,
       entries := if Writes(a) then s.entries[x.K() := Entry(x.pc.value, s.now + c.entryTtl)] else s.entries,
       locks := if Grants(s, x, a) then s.locks[x.K() := RedisLock(s.nextToken, s.now + c.lockTtl)]
                else if Unlocks(s, x, a) then s.locks - {x.K()}
                else s.locks,
       table := if MakesLock(s, x, a) then s.table[x.At() := s.nextLock]
                else if Pops(s, x, a) then s.table - {x.At()}
                else s.table,
       owner := if a.Acquire? then s.owner[x.lock := t]
                else if Leaves(s, x, a) then s.owner - {x.lock}
                else s.owner,
       nextLock := if MakesLock(s, x, a) then s.nextLock + 1 else s.nextLock,
       nextToken := if a.SetNx? then s.nextToken + 1 else s.nextToken,
       issuer := if a.SetNx? then s.issuer[s.nextToken := t] else s.issuer,
       started := if a.StartCompute? then s.started + multiset{x.At()} else s.started,
       computes := if a.StartCompute? then s.computes + multiset{x.K()} else s.computes,
       granted := if Grants(s, x, a) then s.granted + multiset{x.K()} else s.granted,
       late := if Grants(s, x, a) && Hits(s, x.variant, x.K()) then s.late + {x.K()} else s.late)
  }

  /** One step; committing writes the new data and raises the version together. */
  function Next(c: Config, s: State, step: Step): State
    requires Enabled(s, step)
    requires |s.history| > 0
  {
    match step
    case Tick(d) => s.(now := s.now + d)
    case Evict(k) => s.(entries := s.entries - {k})
    case EvictLock(k) => s.(locks := s.locks - {k})
    case PopLocal(p) => s.(local := s.local - {p})
    case Commit(data) => s.(history := s.history + [data], commitAt := s.commitAt + [s.now])
    case Do(t, a) => Act(c, s, t, a)
  }

  // ----- runs -----

  /** Any number of calls about to start; Redis and the lock tables are empty. */
  ghost predicate Init(c: Config, s: State) {
    && |s.history| > 0
    && |s.commitAt| == |s.history|
    && (forall i :: 0 <= i < |s.commitAt| ==> s.commitAt[i] <= s.now)
    && (forall i, j :: 0 <= i < j < |s.commitAt| ==> s.commitAt[i] <= s.commitAt[j])
    && s.local == map[] && s.entries == map[] && s.locks == map[]
    && s.table == map[] && s.owner == map[] && s.issuer == map[]
    && s.started == multiset{} && s.computes == multiset{} && s.granted == multiset{} && s.late == {}
    && (forall t :: t in s.tasks ==> s.tasks[t].pc.New? && !s.tasks[t].acquired)
  }

  /** `steps` leads from `s` to `end`, and every step satisfies `ok` where it is taken. */
  ghost predicate Run(c: Config, ok: (State, Step) -> bool, s: State, steps: seq<Step>, end: State)
    decreases |steps|
  {
    if steps == [] then s == end
    else
      && |s.history| > 0
      && Enabled(s, steps[0])
      && ok(s, steps[0])
      && Run(c, ok, Next(c, s, steps[0]), steps[1..], end)
  }
}
