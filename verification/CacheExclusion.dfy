/** The Redis lock: while Redis works and no holder outlives its lock, no two tasks of any
    processes compute the same key at the same time. */
module CacheExclusion {
  import opened CacheModel

  /** The bounds a run is assumed to keep for one key: `get` is the longest time from a
      get taking effect to its caller seeing the result, `gap` the longest time between
      two consecutive gets of a task that has missed. */
  datatype Bounds = Bounds(get: Time, gap: Time)

  ghost predicate Sane(c: Config, b: Bounds) {
    && 0.0 <= b.get < c.lockTtl <= c.entryTtl
    && 0.0 <= b.gap < c.entryTtl
    && (forall p, r :: c.compute(p, r) != NULL)
  }

  /** The task was granted the lock of `k` and has not released it. */
  predicate Holds(x: Task, k: Key) {
    x.K() == k && x.acquired && Filling(x.pc)
  }

  predicate Filling(pc: Pc) { pc.Ready? || InCompute(pc) || pc.Stored? }

  /** The task has missed and will get again. */
  predicate Awaits(x: Task, k: Key) {
    x.K() == k && (x.pc.Missed2? || x.pc.NxFailed? || x.pc.Sleeping? || x.pc.Polled?)
  }

  /** The task was refused the lock of `k`. */
  predicate Refused(x: Task, k: Key) {
    x.K() == k && (x.pc.NxFailed? || x.pc.Sleeping? || x.pc.Polled?)
  }

  /** How far time may pass with this task in this state. */
  predicate InTime(c: Config, b: Bounds, k: Key, x: Task, now: Time) {
    && (Holds(x, k) ==> now < x.acquiredAt + c.lockTtl - b.get)
    && (Awaits(x, k) ==> now <= x.lastMiss + b.gap)
    && (Awaits(x, k) && x.pc.Polled? ==> now <= x.lastMiss + b.get)
  }

  predicate ActsWell(x: Task, k: Key, a: Action) {
    x.K() == k && !x.pc.New? && !x.pc.VersionRead? ==>
      && x.variant.Json?
      && !a.NoClient?
      && (a.Get1? || a.Get2? || a.PollGet? || a.SetNx? || a.Store? || a.Release? ==> a.o.Ok?)
      && (a.Abort? ==> !Holds(x, k))
  }

  /** Redis works for `k`: nothing of `k` is evicted or fails, holders of its lock do not
      raise, and the time bounds are kept.  Tasks may still raise while they wait. */
  ghost predicate OrderlyStep(c: Config, b: Bounds, k: Key, s: State, step: Step) {
    match step
    case Tick(d) => forall t | t in s.tasks :: InTime(c, b, k, s.tasks[t], s.now + d)
    case Evict(e) => e != k
    case EvictLock(e) => e != k
    case PopLocal(_) => true
    case Commit(_) => true
    case Do(t, a) => t in s.tasks ==> ActsWell(s.tasks[t], k, a)
  }

  ghost function Orderly(c: Config, b: Bounds, k: Key): (State, Step) -> bool {
    (s: State, step: Step) => OrderlyStep(c, b, k, s, step)
  }

  // ----- the invariant -----

  ghost predicate HeldSince(s: State, k: Key, at: Time) {
    exists h :: h in s.tasks && Holds(s.tasks[h], k) && s.tasks[h].acquiredAt <= at
  }

  predicate HasLock(c: Config, b: Bounds, k: Key, s: State, x: Task) {
    && k in s.locks && s.locks[k] == RedisLock(x.token, x.acquiredAt + c.lockTtl)
    && x.token < s.nextToken
    && x.acquiredAt <= s.now < x.acquiredAt + c.lockTtl - b.get
  }

  ghost predicate OneHolderPerToken(k: Key, s: State) {
    forall g, h | g in s.tasks && h in s.tasks && Holds(s.tasks[g], k) && Holds(s.tasks[h], k) ::
      s.tasks[g].token == s.tasks[h].token ==> g == h
  }

  /** The lock in Redis is the holder's, it has not expired, and there is one holder. */
  ghost predicate LockInv(c: Config, b: Bounds, k: Key, s: State) {
    && (forall h | h in s.tasks && Holds(s.tasks[h], k) :: HasLock(c, b, k, s, s.tasks[h]))
    && OneHolderPerToken(k, s)
    && (k in s.locks ==> HeldSince(s, k, s.now))
  }

  predicate OwnTask(k: Key, x: Task) {
    && (x.K() == k && Filling(x.pc) ==> x.acquired)
    && (x.acquired ==> Filling(x.pc) || x.pc.Released? || Finished(x.pc))
  }

  /** Only holders reach the compute. */
  ghost predicate OwnInv(k: Key, s: State) {
    forall t | t in s.tasks :: OwnTask(k, s.tasks[t])
  }

  /** A live entry was stored after every waiting task's last miss. */
  ghost predicate MissInv(c: Config, b: Bounds, k: Key, s: State) {
    forall t | t in s.tasks && Awaits(s.tasks[t], k) ::
      var x := s.tasks[t];
      && x.lastMiss <= s.now <= x.lastMiss + b.gap
      && (Live(s, k) ==> x.lastMiss + c.entryTtl <= s.entries[k].expires)
  }

  ghost predicate Patient(c: Config, b: Bounds, s: State, x: Task) {
    && x.nxAt <= s.now
    && (x.pc.Sleeping? || x.pc.Polled? ==> x.pc.until.Deadline? && x.nxAt + c.lockTtl <= x.pc.until.at)
    && (x.pc.Polled? ==> s.now <= x.lastMiss + b.get < x.pc.until.at)
  }

  /** A refused task can count on an entry or on a holder older than its refusal. */
  ghost predicate WaitInv(c: Config, b: Bounds, k: Key, s: State) {
    forall t | t in s.tasks && Refused(s.tasks[t], k) ::
      && (Live(s, k) || HeldSince(s, k, s.tasks[t].nxAt))
      && Patient(c, b, s, s.tasks[t])
  }

  ghost predicate ValueInv(c: Config, k: Key, s: State) {
    && (k in s.entries ==> s.entries[k].payload != NULL)
    && (forall t | t in s.tasks && (s.tasks[t].pc.Computed? || s.tasks[t].pc.Stored?) ::
          s.tasks[t].pc.value != NULL)
    && (forall h | h in s.tasks && Holds(s.tasks[h], k) && s.tasks[h].pc.Stored? ::
          k in s.entries && s.tasks[h].acquiredAt + c.entryTtl <= s.entries[k].expires)
  }

  ghost predicate Inv(c: Config, b: Bounds, k: Key, s: State) {
    && |s.history| > 0
    && LockInv(c, b, k, s) && OwnInv(k, s) && MissInv(c, b, k, s) && WaitInv(c, b, k, s) && ValueInv(c, k, s)
  }

  ghost predicate Can(c: Config, b: Bounds, k: Key, s: State, step: Step) {
    Sane(c, b) && Inv(c, b, k, s) && Enabled(s, step) && OrderlyStep(c, b, k, s, step)
  }

  // ----- what one action does to the tasks of one key -----

  /** Holding starts with a grant and ends with the release. */
  lemma HoldsStep(c: Config, k: Key, s: State, x: Task, a: Action)
    requires |s.history| > 0 && TaskEnabled(s, x, a) && ActsWell(x, k, a) && OwnTask(k, x)
    ensures
      var y := NextTask(c, s, x, a);
      && (Holds(y, k) && !Holds(x, k) ==>
            a.SetNx? && x.K() == k && Grants(s, x, a) && y.token == s.nextToken && y.acquiredAt == s.now && y.pc.Ready?)
      && (Holds(y, k) && Holds(x, k) ==> y.token == x.token && y.acquiredAt == x.acquiredAt && !a.SetNx? && !a.Release?)
      && (Holds(x, k) && !Holds(y, k) ==> a.Release?)
  {
  }

  /** What one action leaves of the entry and the lock of `k`. */
  ghost predicate SameEntry(s: State, s': State, k: Key) {
    (k in s'.entries <==> k in s.entries) && (k in s.entries ==> s'.entries[k] == s.entries[k])
  }

  ghost predicate SameLock(s: State, s': State, k: Key) {
    (k in s'.locks <==> k in s.locks) && (k in s.locks ==> s'.locks[k] == s.locks[k])
  }

  lemma KeyStep(c: Config, k: Key, s: State, t: TaskId, a: Action)
    requires |s.history| > 0 && Enabled(s, Do(t, a)) && ActsWell(s.tasks[t], k, a)
    ensures
      var x, s' := s.tasks[t], Act(c, s, t, a);
      && s'.now == s.now && s'.history == s.history
      && s'.tasks == s.tasks[t := NextTask(c, s, x, a)]
      && s.nextToken <= s'.nextToken && (a.SetNx? ==> s.nextToken < s'.nextToken)
      && (if x.K() == k && a.Store? then k in s'.entries && s'.entries[k] == Entry(x.pc.value, s.now + c.entryTtl)
          else SameEntry(s, s', k))
      && (if x.K() == k && Grants(s, x, a)
          then k in s'.locks && s'.locks[k] == RedisLock(s.nextToken, s.now + c.lockTtl)
          else if x.K() == k && Unlocks(s, x, a) then k !in s'.locks
          else SameLock(s, s', k))
  {
  }

  /** A holder stays one unless it releases. */
  lemma HeldSinceStep(c: Config, k: Key, s: State, t: TaskId, a: Action, at: Time)
    requires |s.history| > 0 && Enabled(s, Do(t, a)) && ActsWell(s.tasks[t], k, a) && OwnTask(k, s.tasks[t])
    requires HeldSince(s, k, at) && !(Holds(s.tasks[t], k) && a.Release?)
    ensures HeldSince(Act(c, s, t, a), k, at)
  {
    var h :| h in s.tasks && Holds(s.tasks[h], k) && s.tasks[h].acquiredAt <= at;
    HoldsStep(c, k, s, s.tasks[t], a);
    var s' := Act(c, s, t, a);
    assert h in s'.tasks && Holds(s'.tasks[h], k) && s'.tasks[h].acquiredAt <= at;
  }

  // ----- each step keeps it -----

  lemma TickKeeps(c: Config, b: Bounds, k: Key, s: State, d: Time)
    requires Can(c, b, k, s, Tick(d))
    ensures Inv(c, b, k, Next(c, s, Tick(d)))
  {
    var s' := Next(c, s, Tick(d));
    assert forall t | t in s.tasks :: InTime(c, b, k, s.tasks[t], s.now + d);
    forall at | HeldSince(s, k, at) ensures HeldSince(s', k, at) {
      var h :| h in s.tasks && Holds(s.tasks[h], k) && s.tasks[h].acquiredAt <= at;
      assert h in s'.tasks && Holds(s'.tasks[h], k);
    }
  }

  lemma HeldKept(c: Config, b: Bounds, k: Key, s: State, t: TaskId, a: Action)
    requires Can(c, b, k, s, Do(t, a))
    ensures k in Act(c, s, t, a).locks ==> HeldSince(Act(c, s, t, a), k, s.now)
  {
    var x, s' := s.tasks[t], Act(c, s, t, a);
    KeyStep(c, k, s, t, a);
    if k in s'.locks {
      if x.K() == k && Grants(s, x, a) {
        HoldsStep(c, k, s, x, a);
        assert Holds(s'.tasks[t], k);
      } else {
        assert !(Holds(x, k) && a.Release?);
        HeldSinceStep(c, k, s, t, a, s.now);
      }
    }
  }

  lemma TokensKept(c: Config, b: Bounds, k: Key, s: State, t: TaskId, a: Action)
    requires Can(c, b, k, s, Do(t, a))
    ensures OneHolderPerToken(k, Act(c, s, t, a))
  {
    HoldsStep(c, k, s, s.tasks[t], a);
    forall h | h in s.tasks && Holds(s.tasks[h], k) ensures s.tasks[h].token < s.nextToken {
      assert HasLock(c, b, k, s, s.tasks[h]);
    }
  }

  lemma HasLockKept(c: Config, b: Bounds, k: Key, s: State, t: TaskId, a: Action, h: TaskId)
    requires Can(c, b, k, s, Do(t, a)) && h in s.tasks && Holds(Act(c, s, t, a).tasks[h], k)
    ensures HasLock(c, b, k, Act(c, s, t, a), Act(c, s, t, a).tasks[h])
  {
    HoldsStep(c, k, s, s.tasks[t], a);
    KeyStep(c, k, s, t, a);
    if Holds(s.tasks[h], k) {
      assert HasLock(c, b, k, s, s.tasks[h]);
    }
  }

  lemma LockKept(c: Config, b: Bounds, k: Key, s: State, t: TaskId, a: Action)
    requires Can(c, b, k, s, Do(t, a))
    ensures LockInv(c, b, k, Act(c, s, t, a))
  {
    var s' := Act(c, s, t, a);
    HeldKept(c, b, k, s, t, a);
    TokensKept(c, b, k, s, t, a);
    forall h | h in s'.tasks && Holds(s'.tasks[h], k) ensures HasLock(c, b, k, s', s'.tasks[h]) {
      HasLockKept(c, b, k, s, t, a, h);
    }
    assert s'.now == s.now;
  }

  lemma OwnTaskKept(c: Config, b: Bounds, k: Key, s: State, x: Task, a: Action)
    requires |s.history| > 0 && TaskEnabled(s, x, a) && ActsWell(x, k, a) && OwnTask(k, x)
    requires c.lockTtl > 0.0 && (Refused(x, k) ==> Patient(c, b, s, x))
    ensures OwnTask(k, NextTask(c, s, x, a))
  {
  }

  lemma OwnKept(c: Config, b: Bounds, k: Key, s: State, t: TaskId, a: Action)
    requires Can(c, b, k, s, Do(t, a))
    ensures OwnInv(k, Act(c, s, t, a))
  {
    OwnTaskKept(c, b, k, s, s.tasks[t], a);
  }

  /** A miss happens only when there is no live entry. */
  lemma MissStep(c: Config, k: Key, s: State, x: Task, a: Action)
    requires |s.history| > 0 && TaskEnabled(s, x, a) && ActsWell(x, k, a)
    requires k in s.entries ==> s.entries[k].payload != NULL
    ensures
      var y := NextTask(c, s, x, a);
      Awaits(y, k) ==>
        && x.K() == k && !a.Store?
        && (if a.Get2? || a.PollGet? then !Live(s, k) && y.lastMiss == s.now
            else Awaits(x, k) && y.lastMiss == x.lastMiss)
  {
  }

  lemma MissKept(c: Config, b: Bounds, k: Key, s: State, t: TaskId, a: Action)
    requires Can(c, b, k, s, Do(t, a))
    ensures MissInv(c, b, k, Act(c, s, t, a))
  {
    MissStep(c, k, s, s.tasks[t], a);
    KeyStep(c, k, s, t, a);
  }

  /** What the action makes of a refused task. */
  lemma RefusedStep(c: Config, k: Key, s: State, x: Task, a: Action)
    requires |s.history| > 0 && TaskEnabled(s, x, a) && ActsWell(x, k, a)
    ensures
      var y := NextTask(c, s, x, a);
      Refused(y, k) ==>
        && x.K() == k
        && (if a.SetNx? then RedisLockHeld(s, k) && y.nxAt == s.now && y.pc.NxFailed?
            else Refused(x, k) && y.nxAt == x.nxAt)
  {
  }

  lemma PatientKept(c: Config, b: Bounds, k: Key, s: State, x: Task, a: Action)
    requires Sane(c, b) && |s.history| > 0 && TaskEnabled(s, x, a) && ActsWell(x, k, a)
    requires Refused(x, k) ==> Patient(c, b, s, x)
    requires x.K() == k && a.PollGet? && !Served(s, x, a) ==> s.now + b.get < x.nxAt + c.lockTtl
    ensures Refused(NextTask(c, s, x, a), k) ==> Patient(c, b, s, NextTask(c, s, x, a))
  {
  }

  /** A poll that misses happens while an older holder is still inside its interval. */
  lemma MissedPoll(c: Config, b: Bounds, k: Key, s: State, t: TaskId)
    requires Can(c, b, k, s, Do(t, PollGet(Ok))) && s.tasks[t].K() == k && !Live(s, k)
    ensures s.now + b.get < s.tasks[t].nxAt + c.lockTtl
  {
    assert Refused(s.tasks[t], k);
    var h :| h in s.tasks && Holds(s.tasks[h], k) && s.tasks[h].acquiredAt <= s.tasks[t].nxAt;
  }

  /** A refused task can still count on an entry or on an older holder. */
  lemma HopeKept(c: Config, b: Bounds, k: Key, s: State, t: TaskId, a: Action, u: TaskId)
    requires Can(c, b, k, s, Do(t, a)) && u in s.tasks && Refused(Act(c, s, t, a).tasks[u], k)
    ensures Live(Act(c, s, t, a), k) || HeldSince(Act(c, s, t, a), k, Act(c, s, t, a).tasks[u].nxAt)
  {
    var x, s' := s.tasks[t], Act(c, s, t, a);
    RefusedStep(c, k, s, x, a);
    KeyStep(c, k, s, t, a);
    if u == t && a.SetNx? {
      HeldSinceStep(c, k, s, t, a, s.now);
    } else if Live(s, k) || (Holds(x, k) && a.Release?) {
      assert Live(s', k);
    } else {
      HeldSinceStep(c, k, s, t, a, s.tasks[u].nxAt);
    }
  }

  lemma WaitKept(c: Config, b: Bounds, k: Key, s: State, t: TaskId, a: Action)
    requires Can(c, b, k, s, Do(t, a))
    ensures WaitInv(c, b, k, Act(c, s, t, a))
  {
    var x, s' := s.tasks[t], Act(c, s, t, a);
    if x.K() == k && a.PollGet? && !Served(s, x, a) {
      MissedPoll(c, b, k, s, t);
    }
    PatientKept(c, b, k, s, x, a);
    forall u | u in s'.tasks && Refused(s'.tasks[u], k)
      ensures Live(s', k) || HeldSince(s', k, s'.tasks[u].nxAt)
      ensures Patient(c, b, s', s'.tasks[u])
    {
      HopeKept(c, b, k, s, t, a, u);
    }
  }

  lemma ValueStep(c: Config, k: Key, s: State, x: Task, a: Action)
    requires |s.history| > 0 && TaskEnabled(s, x, a) && ActsWell(x, k, a) && (forall p, r :: c.compute(p, r) != NULL)
    requires (x.pc.Computed? || x.pc.Stored?) ==> x.pc.value != NULL
    ensures
      var y := NextTask(c, s, x, a);
      && (y.pc.Computed? || y.pc.Stored? ==> y.pc.value != NULL)
      && (y.pc.Stored? ==> a.Store? && y.K() == x.K())
  {
  }

  lemma ValueKept(c: Config, b: Bounds, k: Key, s: State, t: TaskId, a: Action)
    requires Can(c, b, k, s, Do(t, a))
    ensures ValueInv(c, k, Act(c, s, t, a))
  {
    ValueStep(c, k, s, s.tasks[t], a);
    KeyStep(c, k, s, t, a);
    HoldsStep(c, k, s, s.tasks[t], a);
  }

  /** Steps that touch no task, no time and nothing of `k` keep the invariant. */
  lemma SameForKey(c: Config, b: Bounds, k: Key, s: State, s': State)
    requires Inv(c, b, k, s) && |s'.history| > 0
    requires s'.tasks == s.tasks && s'.now == s.now && s'.nextToken == s.nextToken
    requires SameEntry(s, s', k) && SameLock(s, s', k)
    ensures Inv(c, b, k, s')
  {
    assert forall at :: HeldSince(s, k, at) <==> HeldSince(s', k, at);
  }

  lemma NextKeeps(c: Config, b: Bounds, k: Key, s: State, step: Step)
    requires Can(c, b, k, s, step)
    ensures Inv(c, b, k, Next(c, s, step))
  {
    match step
    case Tick(d) => TickKeeps(c, b, k, s, d);
    case Do(t, a) =>
      LockKept(c, b, k, s, t, a);
      OwnKept(c, b, k, s, t, a);
      MissKept(c, b, k, s, t, a);
      WaitKept(c, b, k, s, t, a);
      ValueKept(c, b, k, s, t, a);
    case _ => SameForKey(c, b, k, s, Next(c, s, step));
  }

  lemma {:induction false} RunKeeps(c: Config, b: Bounds, k: Key, s: State, steps: seq<Step>, end: State)
    requires Sane(c, b) && Inv(c, b, k, s) && Run(c, Orderly(c, b, k), s, steps, end)
    ensures Inv(c, b, k, end)
    decreases |steps|
  {
    if steps == [] {
    } else {
      NextKeeps(c, b, k, s, steps[0]);
      RunKeeps(c, b, k, Next(c, s, steps[0]), steps[1..], end);
    }
  }

  /** Main result: no two tasks, of one process or of two, are computing one key at once. */
  lemma NoOverlap(c: Config, b: Bounds, k: Key, s: State, steps: seq<Step>, end: State, t: TaskId, u: TaskId)
    requires Sane(c, b) && Init(c, s) && Run(c, Orderly(c, b, k), s, steps, end)
    requires t in end.tasks && end.tasks[t].K() == k && InCompute(end.tasks[t].pc)
    requires u in end.tasks && end.tasks[u].K() == k && InCompute(end.tasks[u].pc)
    ensures t == u
  {
    RunKeeps(c, b, k, s, steps, end);
    assert Holds(end.tasks[t], k) && Holds(end.tasks[u], k);
  }

  /** A computing task holds the live lock: one that was refused the lock never computes. */
  lemma OnlyHoldersCompute(c: Config, b: Bounds, k: Key, s: State, steps: seq<Step>, end: State, t: TaskId)
    requires Sane(c, b) && Init(c, s) && Run(c, Orderly(c, b, k), s, steps, end)
    requires t in end.tasks && end.tasks[t].K() == k && InCompute(end.tasks[t].pc)
    ensures end.tasks[t].acquired
    ensures k in end.locks && end.locks[k].token == end.tasks[t].token && RedisLockHeld(end, k)
  {
    RunKeeps(c, b, k, s, steps, end);
    assert Holds(end.tasks[t], k);
  }
}
