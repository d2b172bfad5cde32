/** Single flight: inside one process a key is computed at most once, although the table of
    lock objects may lose or replace the object while tasks still wait for it. */
module CacheSingleFlight {
  import opened CacheModel

  /** Task `x` is a call of process `p` for key `k`. */
  predicate Of(x: Task, p: ProcId, k: Key) { x.proc == p && x.K() == k }

  /** The task refers to a lock object. */
  predicate HasRef(pc: Pc) { pc.Waiting? || InLocal(pc) }

  predicate BeforeCompute(pc: Pc) {
    pc.Missed2? || pc.NxFailed? || pc.Sleeping? || pc.Polled? || pc.Ready?
  }

  /** What process `p` is assumed to do for `k`: its gets and sets succeed and no call raises
      inside the local lock.  `SET NX`, the release and all other processes may fail. */
  predicate Reliable(x: Task, p: ProcId, k: Key, a: Action) {
    Of(x, p, k) && !x.pc.New? && !x.pc.VersionRead? ==>
      && (a.Get1? || a.Get2? || a.PollGet? || a.Store? ==> a.o.Ok?)
      && (a.Abort? ==> !InLocal(x.pc))
  }

  /** Reliable steps during which the entry of `k` neither expires nor is evicted. */
  ghost predicate SteadyStep(p: ProcId, k: Key, s: State, step: Step) {
    match step
    case Tick(d) => k in s.entries ==> s.now + d < s.entries[k].expires
    case Evict(e) => e != k
    case EvictLock(_) => true
    case PopLocal(_) => true
    case Commit(_) => true
    case Do(t, a) => t in s.tasks ==> Reliable(s.tasks[t], p, k, a)
  }

  ghost function Steady(p: ProcId, k: Key): (State, Step) -> bool {
    (s: State, step: Step) => SteadyStep(p, k, s, step)
  }

  ghost predicate Sound(c: Config) {
    c.entryTtl > 0.0 && forall p, r :: c.compute(p, r) != NULL
  }

  // ----- the invariant -----

  /** A task inside `async with` owns its lock object. */
  ghost predicate OwnerInv(s: State) {
    forall t | t in s.tasks && InLocal(s.tasks[t].pc) :: s.tasks[t].lock in s.owner && s.owner[s.tasks[t].lock] == t
  }

  ghost predicate ValueInv(k: Key, s: State) {
    && (k in s.entries ==> s.now < s.entries[k].expires && s.entries[k].payload != NULL)
    && (forall t | t in s.tasks && s.tasks[t].pc.Computed? :: s.tasks[t].pc.value != NULL)
  }

  /** Until the key is stored, every task of the process uses the lock object in the table. */
  ghost predicate OneLock(p: ProcId, k: Key, s: State) {
    k !in s.entries ==>
      forall t | t in s.tasks && Of(s.tasks[t], p, k) && HasRef(s.tasks[t].pc) ::
        (p, k) in s.table && s.tasks[t].lock == s.table[(p, k)]
  }

  ghost predicate OneFlight(p: ProcId, k: Key, s: State) {
    forall t, u | t in s.tasks && u in s.tasks && Of(s.tasks[t], p, k) && Of(s.tasks[u], p, k) ::
      PastMiss(s.tasks[t].pc) && PastMiss(s.tasks[u].pc) ==> t == u
  }

  ghost predicate Flying(p: ProcId, k: Key, s: State) {
    exists t :: t in s.tasks && Of(s.tasks[t], p, k) && InCompute(s.tasks[t].pc)
  }

  /** A stored or released value is in the cache, a task before its compute is the first. */
  ghost predicate PhaseInv(p: ProcId, k: Key, s: State) {
    forall t | t in s.tasks && Of(s.tasks[t], p, k) ::
      && (s.tasks[t].pc.Stored? || s.tasks[t].pc.Released? ==> k in s.entries)
      && (BeforeCompute(s.tasks[t].pc) ==> s.started[(p, k)] == 0)
  }

  ghost predicate CountInv(p: ProcId, k: Key, s: State) {
    && s.started[(p, k)] <= 1
    && (s.started[(p, k)] == 1 ==> k in s.entries || Flying(p, k, s))
  }

  ghost predicate Inv(p: ProcId, k: Key, s: State) {
    && |s.history| > 0
    && OwnerInv(s) && ValueInv(k, s) && OneLock(p, k, s) && OneFlight(p, k, s)
    && PhaseInv(p, k, s) && CountInv(p, k, s)
  }

  ghost predicate Can(c: Config, p: ProcId, k: Key, s: State, t: TaskId, a: Action) {
    Sound(c) && Inv(p, k, s) && Enabled(s, Do(t, a)) && Reliable(s.tasks[t], p, k, a)
  }

  // ----- one action -----

  /** How an action moves a task through the phases. */
  lemma PhaseStep(c: Config, p: ProcId, k: Key, s: State, x: Task, a: Action)
    requires |s.history| > 0 && TaskEnabled(s, x, a) && Reliable(x, p, k, a) && ValueInv(k, s)
    ensures
      var y := NextTask(c, s, x, a);
      && (InLocal(y.pc) ==> y.lock == x.lock && y.At() == x.At() && (InLocal(x.pc) || a.Acquire?))
      && (Of(y, p, k) && PastMiss(y.pc) && !PastMiss(x.pc) ==>
            a.Get2? && x.pc.Holding? && k !in s.entries && y.pc.Missed2?)
      && (Of(y, p, k) && BeforeCompute(y.pc) && !y.pc.Missed2? ==> Of(x, p, k) && BeforeCompute(x.pc))
      && (Of(y, p, k) && HasRef(y.pc) ==> Of(x, p, k) && ((HasRef(x.pc) && y.lock == x.lock) || a.TakeRef?))
      && (Of(y, p, k) && (y.pc.Stored? || y.pc.Released?) ==> Of(x, p, k) && (a.Store? || x.pc.Stored?))
  {
  }

  /** Who leaves, pops and writes. */
  lemma LeaveStep(c: Config, p: ProcId, k: Key, s: State, t: TaskId, a: Action)
    requires |s.history| > 0 && Enabled(s, Do(t, a)) && Reliable(s.tasks[t], p, k, a) && ValueInv(k, s)
    ensures
      var x, s' := s.tasks[t], Act(c, s, t, a);
      && s'.now == s.now && s'.history == s.history
      && s'.tasks == s.tasks[t := NextTask(c, s, x, a)]
      && (k in s.entries ==> k in s'.entries)
      && (k in s'.entries && k !in s.entries ==> a.Store? && x.K() == k)
      && (a.Store? && Of(x, p, k) ==> k in s'.entries)
      && (x.At() == (p, k) && Pops(s, x, a) ==> k in s.entries || x.pc.Released?)
      && (!(x.At() == (p, k) && Pops(s, x, a)) && (p, k) in s.table ==>
            (p, k) in s'.table && s'.table[(p, k)] == s.table[(p, k)])
  {
  }

  /** The lock object of another task inside `async with` stays that task's. */
  lemma OtherOwnerKept(c: Config, s: State, t: TaskId, a: Action, u: TaskId)
    requires |s.history| > 0 && OwnerInv(s) && Enabled(s, Do(t, a)) && u in s.tasks && u != t && InLocal(s.tasks[u].pc)
    ensures
      var s' := Act(c, s, t, a);
      s'.tasks[u] == s.tasks[u] && s.tasks[u].lock in s'.owner && s'.owner[s.tasks[u].lock] == u
  {
  }

  /** A task is inside after an action by which it enters or does not leave. */
  lemma StaysInside(c: Config, s: State, x: Task, a: Action)
    requires |s.history| > 0 && TaskEnabled(s, x, a)
    ensures
      var y := NextTask(c, s, x, a);
      InLocal(y.pc) ==> y.lock == x.lock && (a.Acquire? || (InLocal(x.pc) && !Leaves(s, x, a)))
  {
  }

  lemma OwnOwnerKept(c: Config, s: State, t: TaskId, a: Action)
    requires |s.history| > 0 && OwnerInv(s) && Enabled(s, Do(t, a))
    ensures
      var y, s' := NextTask(c, s, s.tasks[t], a), Act(c, s, t, a);
      InLocal(y.pc) ==> y.lock in s'.owner && s'.owner[y.lock] == t
  {
    StaysInside(c, s, s.tasks[t], a);
  }

  lemma OwnerKept(c: Config, p: ProcId, k: Key, s: State, t: TaskId, a: Action)
    requires Can(c, p, k, s, t, a)
    ensures OwnerInv(Act(c, s, t, a))
  {
    var s' := Act(c, s, t, a);
    OwnOwnerKept(c, s, t, a);
    forall u | u in s'.tasks && InLocal(s'.tasks[u].pc)
      ensures s'.tasks[u].lock in s'.owner && s'.owner[s'.tasks[u].lock] == u
    {
      if u != t {
        OtherOwnerKept(c, s, t, a, u);
      }
    }
  }

  lemma ComputedValue(c: Config, k: Key, s: State, x: Task, a: Action)
    requires Sound(c) && |s.history| > 0 && TaskEnabled(s, x, a)
    ensures NextTask(c, s, x, a).pc.Computed? ==> NextTask(c, s, x, a).pc.value != NULL
  {
  }

  lemma StoredValue(c: Config, k: Key, s: State, t: TaskId, a: Action)
    requires Sound(c) && |s.history| > 0 && ValueInv(k, s) && Enabled(s, Do(t, a))
    ensures
      var s' := Act(c, s, t, a);
      k in s'.entries ==> s'.now < s'.entries[k].expires && s'.entries[k].payload != NULL
  {
  }

  lemma ValueKept(c: Config, p: ProcId, k: Key, s: State, t: TaskId, a: Action)
    requires Can(c, p, k, s, t, a)
    ensures ValueInv(k, Act(c, s, t, a))
  {
    StoredValue(c, k, s, t, a);
    ComputedValue(c, k, s, s.tasks[t], a);
  }

  lemma LockKept(c: Config, p: ProcId, k: Key, s: State, t: TaskId, a: Action)
    requires Can(c, p, k, s, t, a)
    ensures OneLock(p, k, Act(c, s, t, a))
  {
    PhaseStep(c, p, k, s, s.tasks[t], a);
    LeaveStep(c, p, k, s, t, a);
  }

  /** A second miss inside the local lock shows that nobody of the process flies or flew. */
  lemma MissMeansFirst(p: ProcId, k: Key, s: State, t: TaskId)
    requires Inv(p, k, s) && t in s.tasks && Of(s.tasks[t], p, k) && s.tasks[t].pc.Holding? && k !in s.entries
    ensures forall u | u in s.tasks && Of(s.tasks[u], p, k) :: !PastMiss(s.tasks[u].pc)
    ensures s.started[(p, k)] == 0
  {
    assert s.owner[s.table[(p, k)]] == t;
  }

  /** One task moves: it flew before, or nobody did. */
  lemma FlightMoves(p: ProcId, k: Key, s: State, s': State, t: TaskId, y: Task)
    requires OneFlight(p, k, s) && t in s.tasks && s'.tasks == s.tasks[t := y]
    requires Of(y, p, k) && PastMiss(y.pc) ==>
      || (Of(s.tasks[t], p, k) && PastMiss(s.tasks[t].pc))
      || (forall u | u in s.tasks && Of(s.tasks[u], p, k) :: !PastMiss(s.tasks[u].pc))
    ensures OneFlight(p, k, s')
  {
  }

  lemma FlightKept(c: Config, p: ProcId, k: Key, s: State, t: TaskId, a: Action)
    requires Can(c, p, k, s, t, a)
    ensures OneFlight(p, k, Act(c, s, t, a))
  {
    var y := NextTask(c, s, s.tasks[t], a);
    PhaseStep(c, p, k, s, s.tasks[t], a);
    LeaveStep(c, p, k, s, t, a);
    if Of(y, p, k) && PastMiss(y.pc) && !PastMiss(s.tasks[t].pc) {
      MissMeansFirst(p, k, s, t);
    }
    FlightMoves(p, k, s, Act(c, s, t, a), t, y);
  }

  /** One task moves, and what it does to entries and to the count of starts. */
  lemma PhaseMoves(p: ProcId, k: Key, s: State, s': State, t: TaskId, y: Task)
    requires PhaseInv(p, k, s) && OneFlight(p, k, s) && t in s.tasks && s'.tasks == s.tasks[t := y]
    requires k in s.entries ==> k in s'.entries
    requires Of(y, p, k) && (y.pc.Stored? || y.pc.Released?) ==> k in s'.entries
    requires Of(y, p, k) && BeforeCompute(y.pc) ==> s'.started[(p, k)] == 0
    requires s'.started[(p, k)] != s.started[(p, k)] ==> Of(s.tasks[t], p, k) && PastMiss(s.tasks[t].pc)
    ensures PhaseInv(p, k, s')
  {
  }

  lemma StartedStep(c: Config, p: ProcId, k: Key, s: State, t: TaskId, a: Action)
    requires Can(c, p, k, s, t, a)
    ensures
      var s' := Act(c, s, t, a);
      if Of(s.tasks[t], p, k) && a.StartCompute? then s'.started[(p, k)] == 1 && Flying(p, k, s')
      else s'.started[(p, k)] == s.started[(p, k)]
  {
    var s' := Act(c, s, t, a);
    if Of(s.tasks[t], p, k) && a.StartCompute? {
      assert Of(s'.tasks[t], p, k) && InCompute(s'.tasks[t].pc);
    }
  }

  lemma PhaseKept(c: Config, p: ProcId, k: Key, s: State, t: TaskId, a: Action)
    requires Can(c, p, k, s, t, a)
    ensures PhaseInv(p, k, Act(c, s, t, a))
  {
    var y := NextTask(c, s, s.tasks[t], a);
    PhaseStep(c, p, k, s, s.tasks[t], a);
    LeaveStep(c, p, k, s, t, a);
    if Of(y, p, k) && PastMiss(y.pc) && !PastMiss(s.tasks[t].pc) {
      MissMeansFirst(p, k, s, t);
    }
    StartedStep(c, p, k, s, t, a);
    PhaseMoves(p, k, s, Act(c, s, t, a), t, y);
  }

  /** A flight goes on or lands in the cache. */
  lemma FlyingStep(c: Config, p: ProcId, k: Key, s: State, t: TaskId, a: Action)
    requires Can(c, p, k, s, t, a) && Flying(p, k, s)
    ensures k in Act(c, s, t, a).entries || Flying(p, k, Act(c, s, t, a))
  {
    var s' := Act(c, s, t, a);
    LeaveStep(c, p, k, s, t, a);
    var f :| f in s.tasks && Of(s.tasks[f], p, k) && InCompute(s.tasks[f].pc);
    assert k in s'.entries || InCompute(s'.tasks[f].pc);
  }

  lemma CountKept(c: Config, p: ProcId, k: Key, s: State, t: TaskId, a: Action)
    requires Can(c, p, k, s, t, a)
    ensures CountInv(p, k, Act(c, s, t, a))
  {
    LeaveStep(c, p, k, s, t, a);
    StartedStep(c, p, k, s, t, a);
    if Flying(p, k, s) {
      FlyingStep(c, p, k, s, t, a);
    }
  }

  lemma NextKept(c: Config, p: ProcId, k: Key, s: State, step: Step)
    requires Sound(c) && Inv(p, k, s) && Enabled(s, step) && SteadyStep(p, k, s, step)
    ensures Inv(p, k, Next(c, s, step))
  {
    match step
    case Do(t, a) =>
      OwnerKept(c, p, k, s, t, a);
      ValueKept(c, p, k, s, t, a);
      LockKept(c, p, k, s, t, a);
      FlightKept(c, p, k, s, t, a);
      PhaseKept(c, p, k, s, t, a);
      CountKept(c, p, k, s, t, a);
    case _ =>
      var s' := Next(c, s, step);
      assert s'.tasks == s.tasks && Flying(p, k, s) == Flying(p, k, s');
  }

  lemma {:induction false} RunKept(c: Config, p: ProcId, k: Key, s: State, steps: seq<Step>, end: State)
    requires Sound(c) && Inv(p, k, s) && Run(c, Steady(p, k), s, steps, end)
    ensures Inv(p, k, end)
    decreases |steps|
  {
    if steps == [] {
    } else {
      NextKept(c, p, k, s, steps[0]);
      RunKept(c, p, k, Next(c, s, steps[0]), steps[1..], end);
    }
  }

  /** Main result: over the whole run process `p` starts at most one compute of `k`, for
      both variants of the call and whatever other processes do. */
  lemma SingleFlight(c: Config, p: ProcId, k: Key, s: State, steps: seq<Step>, end: State)
    requires Sound(c) && Init(c, s) && Run(c, Steady(p, k), s, steps, end)
    ensures end.started[(p, k)] <= 1
  {
    RunKept(c, p, k, s, steps, end);
  }
}
