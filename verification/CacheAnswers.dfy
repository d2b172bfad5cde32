/** When a cached value answers a call, how long it can, and how long a call waits for one.

    The clauses here name the entries, locks and clocks themselves, not the decisions of the
    transition system. */
module CacheAnswers {
  import opened CacheModel

  predicate IsGet(a: Action) { a.Get1? || a.Get2? || a.PollGet? }

  /** A get answers the call exactly when it reaches Redis, the key has an entry that has not
      expired, and the call asks for bytes or the entry is not a JSON null.  The answer is the
      entry; otherwise the call goes on. */
  lemma GetAnswersIff(c: Config, s: State, t: TaskId, a: Action)
    requires |s.history| > 0 && t in s.tasks && TaskEnabled(s, s.tasks[t], a) && IsGet(a)
    ensures
      var x, k := s.tasks[t], s.tasks[t].K();
      var after := Act(c, s, t, a).tasks[t].pc;
      && (after.Done? <==>
            && a.o.Ok? && k in s.entries && s.now < s.entries[k].expires
            && (x.variant.Bytes? || s.entries[k].payload != "null"))
      && (after.Done? ==> after == Done(s.entries[k].payload, true))
      && (!after.Done? ==> (a.Get1? && after.Missed1?) || (a.Get2? && after.Missed2?) || (a.PollGet? && after.Polled?))
  {
  }

  /** No call is ended by anything but such a get, its own fill, or an exception. */
  lemma EndsIff(c: Config, s: State, t: TaskId, a: Action)
    requires |s.history| > 0 && t in s.tasks && TaskEnabled(s, s.tasks[t], a) && !IsGet(a)
    ensures
      var after := Act(c, s, t, a).tasks[t].pc;
      && (after.Done? <==> a.Finish?) && (after.Failed? <==> a.Abort?)
      && (after.Done? ==> s.tasks[t].pc.Released? && after == Done(s.tasks[t].pc.value, false))
  {
  }

  // ----- what holds of every entry, lock and answer -----

  ghost predicate NoNull(s: State) {
    forall t :: t in s.tasks && s.tasks[t].variant.Json? ==> s.tasks[t].pc != Done("null", true)
  }

  ghost predicate InTime(c: Config, s: State) {
    && (forall k :: k in s.entries ==> s.entries[k].expires <= s.now + c.entryTtl)
    && (forall k :: k in s.locks ==> s.locks[k].expires <= s.now + c.lockTtl)
    && (forall p :: p in s.local ==> s.local[p].expires <= s.now + 5.0)
  }

  lemma NextNoNull(c: Config, s: State, step: Step)
    requires |s.history| > 0 && Enabled(s, step) && NoNull(s)
    ensures |Next(c, s, step).history| > 0 && NoNull(Next(c, s, step))
  {
    if step.Do? {
      if IsGet(step.a) {
        GetAnswersIff(c, s, step.t, step.a);
      } else {
        EndsIff(c, s, step.t, step.a);
      }
    }
  }

  lemma NextInTime(c: Config, s: State, step: Step)
    requires |s.history| > 0 && Enabled(s, step) && InTime(c, s)
    ensures |Next(c, s, step).history| > 0 && InTime(c, Next(c, s, step))
  {
  }

  lemma {:induction false} RunAnswers(c: Config, ok: (State, Step) -> bool, s: State, steps: seq<Step>, end: State)
    requires |s.history| > 0 && NoNull(s) && InTime(c, s) && Run(c, ok, s, steps, end)
    ensures NoNull(end) && InTime(c, end)
    decreases |steps|
  {
    if steps == [] {
    } else {
      NextNoNull(c, s, steps[0]);
      NextInTime(c, s, steps[0]);
      RunAnswers(c, ok, Next(c, s, steps[0]), steps[1..], end);
    }
  }

  /** Main result: over every run no JSON call is answered by a stored null, no entry, lock or
      local version outlives its time to live. */
  lemma NullIsNoHit(c: Config, ok: (State, Step) -> bool, s: State, steps: seq<Step>, end: State)
    requires Init(c, s) && Run(c, ok, s, steps, end)
    ensures forall t :: t in end.tasks && end.tasks[t].variant.Json? ==> end.tasks[t].pc != Done("null", true)
    ensures forall k :: k in end.entries ==> end.entries[k].expires <= end.now + c.entryTtl
    ensures forall k :: k in end.locks ==> end.locks[k].expires <= end.now + c.lockTtl
    ensures forall p :: p in end.local ==> end.local[p].expires <= end.now + 5.0
  {
    RunAnswers(c, ok, s, steps, end);
  }

  // ----- a stored value stays until it expires -----

  /** Steps that neither evict the entry of `k` nor store a new one. */
  ghost function Leaving(k: Key): (State, Step) -> bool {
    (s: State, step: Step) =>
      && step != Evict(k)
      && (step.Do? && step.a.Store? && step.t in s.tasks ==> s.tasks[step.t].K() != k)
  }

  lemma {:induction false} EntryStays(c: Config, s: State, steps: seq<Step>, end: State, k: Key)
    requires k in s.entries && Run(c, Leaving(k), s, steps, end)
    ensures k in end.entries && end.entries[k] == s.entries[k]
    decreases |steps|
  {
    if steps == [] {
    } else {
      EntryStays(c, Next(c, s, steps[0]), steps[1..], end, k);
    }
  }

  /** Main result: what a task stores answers every get of its key that reaches Redis within the
      time to live, unless the entry is evicted or stored again, or the value is a JSON null. */
  lemma StoredIsServed(
      c: Config, s: State, t: TaskId, o: Outcome, steps: seq<Step>, end: State, u: TaskId, a: Action)
    requires |s.history| > 0 && t in s.tasks && s.tasks[t].pc.Computed? && !o.Down?
    requires Run(c, Leaving(s.tasks[t].K()), Next(c, s, Do(t, Store(o))), steps, end)
    requires |end.history| > 0 && u in end.tasks && TaskEnabled(end, end.tasks[u], a) && IsGet(a) && a.o.Ok?
    requires end.tasks[u].K() == s.tasks[t].K() && end.now < s.now + c.entryTtl
    requires end.tasks[u].variant.Json? ==> s.tasks[t].pc.value != "null"
    ensures Act(c, end, u, a).tasks[u].pc == Done(s.tasks[t].pc.value, true)
  {
    EntryStays(c, Next(c, s, Do(t, Store(o))), steps, end, s.tasks[t].K());
    GetAnswersIff(c, end, u, a);
  }

  // ----- how long a call polls -----

  function OnePoll(t: TaskId, step: Step): nat { if step.Do? && step.t == t && step.a.PollGet? then 1 else 0 }

  /** The polls of task `t` among the steps. */
  function Polls(t: TaskId, steps: seq<Step>): nat {
    if steps == [] then 0 else OnePoll(t, steps[0]) + Polls(t, steps[1..])
  }

  /** None before a call is bound to compute with the lock, five or none without it. */
  predicate PolledOut(x: Task, n: nat) { n == 0 || (n == 5 && !x.acquired) }

  /** Where a call for bytes stands after `n` polls. */
  predicate PollsSoFar(x: Task, n: nat) {
    match x.pc
    case Sleeping(u, _) => u.Rounds? && u.left + n == 5 && n < 5 && !x.acquired
    case Polled(u) => u.Rounds? && u.left + n == 5 && n >= 1 && !x.acquired
    case Ready => PolledOut(x, n)
    case Computing => PolledOut(x, n)
    case Computed(_) => PolledOut(x, n)
    case Stored(_) => PolledOut(x, n)
    case Released(_) => PolledOut(x, n)
    case Done(_, hit) => n <= 5 && (hit || PolledOut(x, n))
    case Failed => n <= 5
    case _ => n == 0 && !x.acquired
  }

  lemma ActedPolls(c: Config, s: State, x: Task, a: Action, n: nat)
    requires |s.history| > 0 && TaskEnabled(s, x, a) && x.variant.Bytes? && PollsSoFar(x, n)
    ensures PollsSoFar(NextTask(c, s, x, a), n + if a.PollGet? then 1 else 0)
  {
  }

  ghost predicate Polling(s: State, t: TaskId, n: nat) {
    t in s.tasks && s.tasks[t].variant.Bytes? && PollsSoFar(s.tasks[t], n)
  }

  lemma NextPolls(c: Config, s: State, step: Step, t: TaskId, n: nat)
    requires |s.history| > 0 && Enabled(s, step) && Polling(s, t, n)
    ensures Polling(Next(c, s, step), t, n + OnePoll(t, step))
  {
    if step.Do? && step.t == t {
      ActedPolls(c, s, s.tasks[t], step.a, n);
    }
  }

  lemma {:induction false} RunPolls(
      c: Config, ok: (State, Step) -> bool, s: State, steps: seq<Step>, end: State, t: TaskId, n: nat)
    requires Polling(s, t, n) && Run(c, ok, s, steps, end)
    ensures Polling(end, t, n + Polls(t, steps))
    decreases |steps|
  {
    if steps == [] {
    } else {
      NextPolls(c, s, steps[0], t, n);
      RunPolls(c, ok, Next(c, s, steps[0]), steps[1..], end, t, n + OnePoll(t, steps[0]));
    }
  }

  /** Main result: over every run a call for bytes polls at most five times, and one that computes
      polled five times, or never because it holds the lock or could not ask for it. */
  lemma AtMostFivePolls(c: Config, ok: (State, Step) -> bool, s: State, steps: seq<Step>, end: State, t: TaskId)
    requires Init(c, s) && t in s.tasks && s.tasks[t].variant.Bytes? && Run(c, ok, s, steps, end)
    ensures t in end.tasks && Polls(t, steps) <= 5
    ensures end.tasks[t].pc.Computing? || (end.tasks[t].pc.Done? && !end.tasks[t].pc.hit) ==>
      Polls(t, steps) == 0 || (Polls(t, steps) == 5 && !end.tasks[t].acquired)
  {
    RunPolls(c, ok, s, steps, end, t, 0);
  }

  /** A refused call starts to poll: bytes five times, JSON until the lock the other holds must
      have expired. */
  lemma PollingIs(c: Config, s: State, t: TaskId, a: Action)
    requires |s.history| > 0 && t in s.tasks && TaskEnabled(s, s.tasks[t], a)
    ensures
      var x, after := s.tasks[t], Act(c, s, t, a).tasks[t].pc;
      && (a.BeginWait? && x.variant.Bytes? ==> after == Sleeping(Rounds(5), s.now))
      && (a.BeginWait? && x.variant.Json? ==>
            after == if c.lockTtl > 0.0 then Sleeping(Deadline(s.now + c.lockTtl), s.now) else Ready)
      && (a.PollCheck? && x.pc.until.Deadline? ==>
            after == if s.now < x.pc.until.at then Sleeping(x.pc.until, s.now) else Ready)
  {
  }

  /** A sleeping call polls as soon as 0.05 s (bytes) or 0.1 s (JSON) have passed, not before. */
  lemma PollsWhenRested(s: State, x: Task, o: Outcome)
    ensures TaskEnabled(s, x, PollGet(o)) <==>
      x.pc.Sleeping? && s.now >= x.pc.since + if x.variant.Json? then 0.1 else 0.05
  {
  }

  // ----- the version and the locks -----

  /** Without a client the version is 1; an unexpired local copy is used as it is; otherwise the
      committed version is read and copied for 5 s. */
  lemma VersionUsed(c: Config, s: State, t: TaskId, a: Action)
    requires |s.history| > 0 && t in s.tasks && TaskEnabled(s, s.tasks[t], a)
    ensures
      var x, s' := s.tasks[t], Act(c, s, t, a);
      && (a.LookupNoRedis? ==> s'.tasks[t].pc.Looked? && s'.tasks[t].version == 1)
      && (a.LookupLocal? ==>
            && x.proc in s.local && s.now < s.local[x.proc].expires
            && s'.tasks[t].pc.Looked? && s'.tasks[t].version == s.local[x.proc].version)
      && (a.LookupDb? ==>
            && (x.proc in s.local ==> s.local[x.proc].expires <= s.now)
            && s'.tasks[t].pc == VersionRead(|s.history|, s.now))
      && (a.LookupStore? ==>
            && s'.tasks[t].version == x.pc.seen
            && s'.local == s.local[x.proc := LocalVersion(s.now + 5.0, x.pc.seen, x.pc.readAt)])
      && (!a.LookupStore? ==> s'.local == s.local)
      && (a.LookupNoRedis? || a.LookupLocal? || a.LookupStore? ==> s'.tasks[t].lookedAt == s.now)
  {
  }

  /** With a client a new call uses the local copy exactly when it has not expired. */
  lemma LookupsAre(s: State, x: Task)
    ensures TaskEnabled(s, x, LookupNoRedis) <==> x.pc.New?
    ensures TaskEnabled(s, x, LookupLocal) <==> x.pc.New? && x.proc in s.local && s.now < s.local[x.proc].expires
    ensures TaskEnabled(s, x, LookupDb) <==> x.pc.New? && !TaskEnabled(s, x, LookupLocal)
  {
  }

  /** A call that has not ended can go on, unless it waits for a lock that has an owner or rests
      between two polls. */
  lemma NeverStuck(s: State, x: Task)
    requires !x.pc.Done? && !x.pc.Failed? && (x.pc.Waiting? ==> x.lock !in s.owner)
    requires x.pc.Sleeping? ==> s.now >= x.pc.since + if x.variant.Json? then 0.1 else 0.05
    ensures exists a: Action :: !a.Abort? && TaskEnabled(s, x, a)
  {
    var a :=
      match x.pc
      case New => LookupNoRedis
      case VersionRead(_, _) => LookupStore
      case Looked => Get1(Ok)
      case Missed1 => TakeRef
      case Waiting => Acquire
      case Holding => Get2(Ok)
      case Missed2 => NoClient
      case NxFailed => BeginWait
      case Sleeping(_, _) => PollGet(Ok)
      case Polled(_) => PollCheck
      case Ready => StartCompute
      case Computing => ReadDb
      case Computed(_) => Store(Ok)
      case Stored(_) => Release(Ok)
      case _ => Finish;
    assert TaskEnabled(s, x, a);
  }

  /** What happens without the calls: any time passes, any entry or lock is evicted, a copy of a
      version is dropped, data is committed. */
  lemma OthersMay(c: Config, s: State, d: Time, k: Key, p: ProcId, data: Record)
    requires |s.history| > 0
    ensures d > 0.0 ==> Enabled(s, Tick(d)) && Next(c, s, Tick(d)) == s.(now := s.now + d)
    ensures k in s.entries ==> Enabled(s, Evict(k)) && Next(c, s, Evict(k)) == s.(entries := s.entries - {k})
    ensures k in s.locks ==> Enabled(s, EvictLock(k)) && Next(c, s, EvictLock(k)) == s.(locks := s.locks - {k})
    ensures Enabled(s, PopLocal(p)) && Next(c, s, PopLocal(p)) == s.(local := s.local - {p})
    ensures Enabled(s, Commit(data))
    ensures Next(c, s, Commit(data)) == s.(history := s.history + [data], commitAt := s.commitAt + [s.now])
  {
  }

  /** Only a store that arrives writes an entry. */
  lemma EntryIs(c: Config, s: State, t: TaskId, a: Action)
    requires |s.history| > 0 && t in s.tasks && TaskEnabled(s, s.tasks[t], a)
    ensures Act(c, s, t, a).entries ==
      if a.Store? && (a.o.Ok? || a.o.Lost?)
      then s.entries[s.tasks[t].K() := Entry(s.tasks[t].pc.value, s.now + c.entryTtl)] else s.entries
  {
  }

  /** `SET NX` makes a lock exactly when it arrives and no unexpired one is there; the task knows
      of it exactly when the reply arrives too.  A release removes exactly an unexpired lock with
      the task's own token. */
  lemma RedisLockIs(c: Config, s: State, t: TaskId, a: Action)
    requires |s.history| > 0 && t in s.tasks && TaskEnabled(s, s.tasks[t], a)
    ensures
      var x, k, s' := s.tasks[t], s.tasks[t].K(), Act(c, s, t, a);
      var held := k in s.locks && s.now < s.locks[k].expires;
      && (a.SetNx? && !a.o.Down? && !held ==> s'.locks == s.locks[k := RedisLock(s.nextToken, s.now + c.lockTtl)])
      && (a.SetNx? ==> (s'.tasks[t].acquired <==> a.o.Ok? && !held))
      && (a.SetNx? ==> s'.tasks[t].pc == if a.o.Ok? && !held then Ready else NxFailed)
      && (a.Release? && x.acquired && !a.o.Down? && held && s.locks[k].token == x.token ==> s'.locks == s.locks - {k})
      && (s'.locks != s.locks ==> (a.SetNx? && !a.o.Down? && !held) || (a.Release? && x.acquired && !a.o.Down?))
  {
  }

  /** The call ends inside the local lock: with a cached value, after its fill, or by an exception. */
  predicate EndsInside(x: Task, after: Task) {
    && !x.pc.New? && !x.pc.VersionRead? && !x.pc.Looked? && !x.pc.Missed1? && !x.pc.Waiting?
    && (after.pc.Done? || after.pc.Failed?)
  }

  /** The local lock is taken when nobody owns it and given up when the call ends inside it. */
  lemma OwnerIs(c: Config, s: State, t: TaskId, a: Action)
    requires |s.history| > 0 && t in s.tasks && TaskEnabled(s, s.tasks[t], a)
    ensures
      var x, s' := s.tasks[t], Act(c, s, t, a);
      var ends := EndsInside(x, s'.tasks[t]);
      && (a.Acquire? ==> x.lock !in s.owner && s'.owner == s.owner[x.lock := t])
      && (ends ==> s'.owner == s.owner - {x.lock})
      && (!a.Acquire? && !ends ==> s'.owner == s.owner)
  {
  }

  /** The lock object goes with the end of a fill, and for bytes with every end inside the lock. */
  lemma TableIs(c: Config, s: State, t: TaskId, a: Action)
    requires |s.history| > 0 && t in s.tasks && TaskEnabled(s, s.tasks[t], a) && !a.TakeRef?
    ensures
      var x, s' := s.tasks[t], Act(c, s, t, a);
      s'.table == if EndsInside(x, s'.tasks[t]) && (x.variant.Bytes? || (s'.tasks[t].pc.Done? && !s'.tasks[t].pc.hit))
                  then s.table - {(x.proc, x.K())} else s.table
  {
  }

  /** The lock object is made by the first call that finds none, and shared by all calls of the
      process for the key. */
  lemma LockIs(c: Config, s: State, t: TaskId)
    requires |s.history| > 0 && t in s.tasks && TaskEnabled(s, s.tasks[t], TakeRef)
    ensures
      var at, s' := (s.tasks[t].proc, s.tasks[t].K()), Act(c, s, t, TakeRef);
      && s'.table == (if at in s.table then s.table else s.table[at := s.nextLock])
      && s'.tasks[t].lock == s'.table[at] && s'.tasks[t].pc.Waiting?
  {
  }
}
