/** Who may delete a Redis lock, and when a key is computed more than once across processes. */
module CacheOnce {
  import opened CacheModel
  import opened CacheExclusion

  // ----- the release script -----

  ghost predicate TokenInv(s: State) {
    && |s.history| > 0
    && (forall n | n in s.issuer :: n < s.nextToken)
    && (forall k | k in s.locks :: s.locks[k].token in s.issuer)
    && (forall t | t in s.tasks && s.tasks[t].acquired ::
          s.tasks[t].token in s.issuer && s.issuer[s.tasks[t].token] == t)
  }

  lemma TokenTaskKept(c: Config, s: State, x: Task, a: Action)
    requires |s.history| > 0 && TaskEnabled(s, x, a)
    ensures
      var y := NextTask(c, s, x, a);
      y.acquired ==> if a.SetNx? then y.token == s.nextToken else x.acquired && y.token == x.token
  {
  }

  lemma TokenKept(c: Config, s: State, step: Step)
    requires TokenInv(s) && Enabled(s, step)
    ensures TokenInv(Next(c, s, step))
  {
    if step.Do? {
      TokenTaskKept(c, s, s.tasks[step.t], step.a);
    }
  }

  lemma {:induction false} RunTokens(c: Config, ok: (State, Step) -> bool, s: State, steps: seq<Step>, end: State)
    requires TokenInv(s) && Run(c, ok, s, steps, end)
    ensures TokenInv(end)
    decreases |steps|
  {
    if steps == [] {
    } else {
      TokenKept(c, s, steps[0]);
      RunTokens(c, ok, Next(c, s, steps[0]), steps[1..], end);
    }
  }

  /** In every run, also after expiry and re-acquisition: the only lock an action of task
      `t` ever removes carries a token that `t` itself made, and it is removed by a release. */
  lemma ReleaseOnlyOwnToken(c: Config, ok: (State, Step) -> bool, s: State, steps: seq<Step>, end: State,
                            t: TaskId, a: Action, k: Key)
    requires Init(c, s) && Run(c, ok, s, steps, end)
    requires |end.history| > 0 && Enabled(end, Do(t, a))
    requires k in end.locks && k !in Next(c, end, Do(t, a)).locks
    ensures a.Release? && end.tasks[t].K() == k
    ensures end.locks[k].token in end.issuer && end.issuer[end.locks[k].token] == t
  {
    RunTokens(c, ok, s, steps, end);
  }

  // ----- at most one compute -----

  /** Orderly steps during which the entry of `k` does not expire. */
  ghost predicate LastingStep(c: Config, b: Bounds, k: Key, s: State, step: Step) {
    OrderlyStep(c, b, k, s, step) && (step.Tick? && k in s.entries ==> s.now + step.d < s.entries[k].expires)
  }

  ghost function Lasting(c: Config, b: Bounds, k: Key): (State, Step) -> bool {
    (s: State, step: Step) => LastingStep(c, b, k, s, step)
  }

  /** Task `t` has been granted the lock of `k`, is about to compute, has not released. */
  ghost predicate Held(s: State, k: Key) {
    exists t :: t in s.tasks && Holds(s.tasks[t], k)
  }

  ghost predicate Pending(s: State, k: Key) {
    exists t :: t in s.tasks && Holds(s.tasks[t], k) && s.tasks[t].pc.Ready?
  }

  ghost predicate OnceInv(k: Key, s: State) {
    && (k in s.entries ==> Live(s, k))
    && (s.granted[k] >= 1 <==> k in s.entries || Held(s, k))
    && (k in s.late <==> s.granted[k] >= 2)
    && s.granted[k] == s.computes[k] + (if Pending(s, k) then 1 else 0)
  }

  /** A task moves and holds as much as before. */
  lemma HeldMoves(k: Key, s: State, s': State, t: TaskId, y: Task)
    requires t in s.tasks && s'.tasks == s.tasks[t := y] && (Holds(y, k) <==> Holds(s.tasks[t], k))
    ensures Held(s', k) == Held(s, k)
  {
    if h :| h in s.tasks && Holds(s.tasks[h], k) { assert Holds(s'.tasks[h], k); }
    if h :| h in s'.tasks && Holds(s'.tasks[h], k) { assert Holds(s.tasks[h], k); }
  }

  /** A lock is granted only while nobody holds it. */
  lemma GrantStep(c: Config, b: Bounds, k: Key, s: State, t: TaskId, a: Action)
    requires Can(c, b, k, s, Do(t, a)) && s.tasks[t].K() == k && Grants(s, s.tasks[t], a)
    ensures !Held(s, k) && Held(Act(c, s, t, a), k)
  {
    HoldsStep(c, k, s, s.tasks[t], a);
    assert Holds(Act(c, s, t, a).tasks[t], k);
  }

  /** A release leaves a live entry behind. */
  lemma ReleaseStep(c: Config, b: Bounds, k: Key, s: State, t: TaskId, a: Action)
    requires Can(c, b, k, s, Do(t, a)) && s.tasks[t].K() == k && a.Release?
    ensures k in s.entries && k in Act(c, s, t, a).entries
  {
    assert Holds(s.tasks[t], k);
    KeyStep(c, k, s, t, a);
  }

  lemma HeldStep(c: Config, b: Bounds, k: Key, s: State, t: TaskId, a: Action)
    requires Can(c, b, k, s, Do(t, a))
    ensures
      var x, s' := s.tasks[t], Act(c, s, t, a);
      if x.K() == k && Grants(s, x, a) then !Held(s, k) && Held(s', k)
      else if x.K() == k && a.Release? then k in s.entries && k in s'.entries
      else Held(s', k) == Held(s, k)
  {
    var x := s.tasks[t];
    if x.K() == k && Grants(s, x, a) {
      GrantStep(c, b, k, s, t, a);
    } else if x.K() == k && a.Release? {
      ReleaseStep(c, b, k, s, t, a);
    } else {
      HoldsStep(c, k, s, x, a);
      KeyStep(c, k, s, t, a);
      HeldMoves(k, s, Act(c, s, t, a), t, NextTask(c, s, x, a));
    }
  }

  lemma ReadyStep(c: Config, k: Key, s: State, x: Task, a: Action)
    requires |s.history| > 0 && TaskEnabled(s, x, a) && ActsWell(x, k, a) && OwnTask(k, x)
    ensures
      var y := NextTask(c, s, x, a);
      && (Holds(y, k) && y.pc.Ready? <==> x.K() == k && Grants(s, x, a))
      && (x.pc.Ready? && Holds(x, k) ==> a.StartCompute?)
      && (a.StartCompute? ==> x.pc.Ready?)
  {
  }

  lemma OneHolder(c: Config, b: Bounds, k: Key, s: State, t: TaskId, u: TaskId)
    requires Inv(c, b, k, s) && t in s.tasks && u in s.tasks && Holds(s.tasks[t], k) && Holds(s.tasks[u], k)
    ensures t == u
  {
    assert HasLock(c, b, k, s, s.tasks[t]) && HasLock(c, b, k, s, s.tasks[u]);
  }

  lemma PendingSame(c: Config, k: Key, s: State, t: TaskId, a: Action)
    requires |s.history| > 0 && Enabled(s, Do(t, a)) && ActsWell(s.tasks[t], k, a) && OwnTask(k, s.tasks[t])
    requires !(s.tasks[t].K() == k && (Grants(s, s.tasks[t], a) || a.StartCompute?))
    ensures Pending(Act(c, s, t, a), k) == Pending(s, k)
  {
    var x, s' := s.tasks[t], Act(c, s, t, a);
    ReadyStep(c, k, s, x, a);
    KeyStep(c, k, s, t, a);
    if h :| h in s.tasks && Holds(s.tasks[h], k) && s.tasks[h].pc.Ready? { assert Holds(s'.tasks[h], k); }
    if h :| h in s'.tasks && Holds(s'.tasks[h], k) && s'.tasks[h].pc.Ready? { assert Holds(s.tasks[h], k); }
  }

  lemma PendingStep(c: Config, b: Bounds, k: Key, s: State, t: TaskId, a: Action)
    requires Can(c, b, k, s, Do(t, a))
    ensures
      var x, s' := s.tasks[t], Act(c, s, t, a);
      if x.K() == k && Grants(s, x, a) then !Pending(s, k) && Pending(s', k)
      else if x.K() == k && a.StartCompute? then Pending(s, k) && !Pending(s', k)
      else Pending(s', k) == Pending(s, k)
  {
    var x, s' := s.tasks[t], Act(c, s, t, a);
    if x.K() == k && Grants(s, x, a) {
      HeldStep(c, b, k, s, t, a);
      ReadyStep(c, k, s, x, a);
      assert Holds(s'.tasks[t], k);
    } else if x.K() == k && a.StartCompute? {
      assert Holds(x, k);
      forall u | u in s.tasks && Holds(s.tasks[u], k) ensures u == t {
        OneHolder(c, b, k, s, t, u);
      }
    } else {
      PendingSame(c, k, s, t, a);
    }
  }

  lemma CountStep(c: Config, k: Key, s: State, t: TaskId, a: Action)
    requires |s.history| > 0 && Enabled(s, Do(t, a)) && ActsWell(s.tasks[t], k, a)
    requires k in s.entries ==> s.entries[k].payload != NULL
    ensures
      var x, s' := s.tasks[t], Act(c, s, t, a);
      && s'.granted[k] == s.granted[k] + (if x.K() == k && Grants(s, x, a) then 1 else 0)
      && s'.computes[k] == s.computes[k] + (if x.K() == k && a.StartCompute? then 1 else 0)
      && (k in s'.late <==> k in s.late || (x.K() == k && Grants(s, x, a) && Live(s, k)))
  {
  }

  lemma OnceKeptDo(c: Config, b: Bounds, k: Key, s: State, t: TaskId, a: Action)
    requires Can(c, b, k, s, Do(t, a)) && OnceInv(k, s)
    ensures OnceInv(k, Act(c, s, t, a))
  {
    HeldStep(c, b, k, s, t, a);
    PendingStep(c, b, k, s, t, a);
    CountStep(c, k, s, t, a);
    KeyStep(c, k, s, t, a);
    var x := s.tasks[t];
    if x.K() == k && a.Store? {
      assert Holds(x, k);
    }
  }

  lemma OnceKept(c: Config, b: Bounds, k: Key, s: State, step: Step)
    requires Can(c, b, k, s, step) && LastingStep(c, b, k, s, step) && OnceInv(k, s)
    ensures OnceInv(k, Next(c, s, step))
  {
    if step.Do? {
      OnceKeptDo(c, b, k, s, step.t, step.a);
    } else {
      assert Next(c, s, step).tasks == s.tasks;
    }
  }

  lemma {:induction false} RunOnce(c: Config, b: Bounds, k: Key, s: State, steps: seq<Step>, end: State)
    requires Sane(c, b) && Inv(c, b, k, s) && OnceInv(k, s) && Run(c, Lasting(c, b, k), s, steps, end)
    ensures Inv(c, b, k, end) && OnceInv(k, end)
    decreases |steps|
  {
    if steps == [] {
    } else {
      NextKeeps(c, b, k, s, steps[0]);
      OnceKept(c, b, k, s, steps[0]);
      RunOnce(c, b, k, Next(c, s, steps[0]), steps[1..], end);
    }
  }

  /** Nothing re-checks the cache after a granted `SET NX`.  Over all processes, a key is
      computed at most once exactly when no lock is granted while a live entry of the key
      is there: the test the code leaves out. */
  lemma AtMostOnceIff(c: Config, b: Bounds, k: Key, s: State, steps: seq<Step>, end: State)
    requires Sane(c, b) && Init(c, s) && Run(c, Lasting(c, b, k), s, steps, end)
    ensures k !in end.late ==> end.computes[k] <= 1
    ensures (forall t :: t in end.tasks && end.tasks[t].K() == k ==> !end.tasks[t].pc.Ready?) ==>
      (k !in end.late <==> end.computes[k] <= 1)
  {
    RunOnce(c, b, k, s, steps, end);
  }

  // ----- a run that computes twice -----

  /** A run written out with its states: `states[i]` is the state before `steps[i]`. */
  datatype Trace = Trace(states: seq<State>, steps: seq<Step>)

  function Last(r: Trace): State
    requires |r.states| > 0
  {
    r.states[|r.states| - 1]
  }

  ghost predicate StepAt(c: Config, b: Bounds, k: Key, r: Trace, i: nat)
    requires i < |r.steps| && i + 1 < |r.states|
  {
    && |r.states[i].history| > 0 && Enabled(r.states[i], r.steps[i])
    && LastingStep(c, b, k, r.states[i], r.steps[i])
    && r.states[i + 1] == Next(c, r.states[i], r.steps[i])
  }

  ghost predicate IsTrace(c: Config, b: Bounds, k: Key, s: State, r: Trace) {
    && |r.states| == |r.steps| + 1 && r.states[0] == s
    && (forall i: nat | i < |r.steps| :: StepAt(c, b, k, r, i))
  }

  lemma {:induction false} TraceRuns(c: Config, b: Bounds, k: Key, s: State, r: Trace, from: nat)
    requires IsTrace(c, b, k, s, r) && from <= |r.steps|
    ensures Run(c, Lasting(c, b, k), r.states[from], r.steps[from..], Last(r))
    decreases |r.steps| - from
  {
    if from == |r.steps| {
    } else {
      TraceRuns(c, b, k, s, r, from + 1);
      assert StepAt(c, b, k, r, from);
      assert r.steps[from..][0] == r.steps[from] && r.steps[from..][1..] == r.steps[from + 1..];
    }
  }

  /** Task `t` takes one action, with Redis working. */
  lemma Go(c: Config, b: Bounds, k: Key, s: State, r: Trace, t: TaskId, a: Action) returns (r': Trace)
    requires IsTrace(c, b, k, s, r)
    requires |Last(r).history| > 0 && Enabled(Last(r), Do(t, a)) && ActsWell(Last(r).tasks[t], k, a)
    ensures IsTrace(c, b, k, s, r') && Last(r') == Act(c, Last(r), t, a)
  {
    r' := Trace(r.states + [Act(c, Last(r), t, a)], r.steps + [Do(t, a)]);
    forall i: nat | i < |r'.steps| ensures StepAt(c, b, k, r', i) {
      if i < |r.steps| {
        assert StepAt(c, b, k, r, i);
      }
    }
  }

  /** Every task's record but its own is left alone. */
  function With(s: State, t: TaskId, x: Task): State { s.(tasks := s.tasks[t := x]) }

  /** The actions of a lookup and of two misses, written out. */
  lemma LookupDbIs(c: Config, s: State, t: TaskId)
    requires |s.history| > 0 && Enabled(s, Do(t, LookupDb))
    ensures Act(c, s, t, LookupDb) == With(s, t, s.tasks[t].(pc := VersionRead(|s.history|, s.now)))
  {
  }

  lemma LookupStoreIs(c: Config, s: State, t: TaskId)
    requires |s.history| > 0 && Enabled(s, Do(t, LookupStore))
    ensures
      var x := s.tasks[t];
      Act(c, s, t, LookupStore)
      == With(s, t, x.(pc := Looked, version := x.pc.seen, lookedAt := s.now, versionAt := x.pc.readAt))
           .(local := s.local[x.proc := LocalVersion(s.now + LOCAL_WINDOW, x.pc.seen, x.pc.readAt)])
  {
  }

  lemma FirstMissIs(c: Config, s: State, t: TaskId)
    requires |s.history| > 0 && Enabled(s, Do(t, Get1(Ok))) && s.tasks[t].K() !in s.entries
    ensures Act(c, s, t, Get1(Ok)) == With(s, t, s.tasks[t].(pc := Missed1))
  {
  }

  lemma TakeRefIs(c: Config, s: State, t: TaskId)
    requires |s.history| > 0 && Enabled(s, Do(t, TakeRef)) && s.tasks[t].At() !in s.table
    ensures
      var x := s.tasks[t];
      Act(c, s, t, TakeRef)
      == With(s, t, x.(pc := Waiting, lock := s.nextLock))
           .(table := s.table[x.At() := s.nextLock], nextLock := s.nextLock + 1)
  {
  }

  lemma AcquireIs(c: Config, s: State, t: TaskId)
    requires |s.history| > 0 && Enabled(s, Do(t, Acquire))
    ensures
      var x := s.tasks[t];
      Act(c, s, t, Acquire) == With(s, t, x.(pc := Holding)).(owner := s.owner[x.lock := t])
  {
  }

  lemma SecondMissIs(c: Config, s: State, t: TaskId)
    requires |s.history| > 0 && Enabled(s, Do(t, Get2(Ok))) && s.tasks[t].K() !in s.entries
    ensures Act(c, s, t, Get2(Ok)) == With(s, t, s.tasks[t].(pc := Missed2, lastMiss := s.now))
  {
  }

  lemma GoLookup(c: Config, b: Bounds, k: Key, s: State, r: Trace, t: TaskId) returns (r': Trace)
    requires IsTrace(c, b, k, s, r) && |Last(r).history| > 0 && t in Last(r).tasks
    requires Last(r).tasks[t].pc.New? && Last(r).tasks[t].proc !in Last(r).local
    ensures IsTrace(c, b, k, s, r')
    ensures
      var l := Last(r);
      var x := l.tasks[t];
      Last(r')
      == With(l, t, x.(pc := Looked, version := |l.history|, lookedAt := l.now, versionAt := l.now))
           .(local := l.local[x.proc := LocalVersion(l.now + LOCAL_WINDOW, |l.history|, l.now)])
  {
    LookupDbIs(c, Last(r), t);
    r' := Go(c, b, k, s, r, t, LookupDb);
    LookupStoreIs(c, Last(r'), t);
    r' := Go(c, b, k, s, r', t, LookupStore);
    assert Last(r').tasks == Last(r).tasks[t := Last(r').tasks[t]];
  }

  lemma GoFirstMiss(c: Config, b: Bounds, k: Key, s: State, r: Trace, t: TaskId) returns (r': Trace)
    requires IsTrace(c, b, k, s, r) && |Last(r).history| > 0 && t in Last(r).tasks
    requires Last(r).tasks[t].pc.Looked? && Last(r).tasks[t].variant.Json? && Last(r).tasks[t].K() == k
    requires k !in Last(r).entries && Last(r).tasks[t].At() !in Last(r).table
    ensures IsTrace(c, b, k, s, r')
    ensures
      var l := Last(r);
      var x := l.tasks[t];
      Last(r')
      == With(l, t, x.(pc := Waiting, lock := l.nextLock))
           .(table := l.table[x.At() := l.nextLock], nextLock := l.nextLock + 1)
  {
    FirstMissIs(c, Last(r), t);
    r' := Go(c, b, k, s, r, t, Get1(Ok));
    TakeRefIs(c, Last(r'), t);
    r' := Go(c, b, k, s, r', t, TakeRef);
    assert Last(r').tasks == Last(r).tasks[t := Last(r').tasks[t]];
  }

  lemma GoSecondMiss(c: Config, b: Bounds, k: Key, s: State, r: Trace, t: TaskId) returns (r': Trace)
    requires IsTrace(c, b, k, s, r) && |Last(r).history| > 0 && t in Last(r).tasks
    requires Last(r).tasks[t].pc.Waiting? && Last(r).tasks[t].variant.Json? && Last(r).tasks[t].K() == k
    requires k !in Last(r).entries && Last(r).tasks[t].lock !in Last(r).owner
    ensures IsTrace(c, b, k, s, r')
    ensures
      var l := Last(r);
      Last(r')
      == With(l, t, l.tasks[t].(pc := Missed2, lastMiss := l.now)).(owner := l.owner[l.tasks[t].lock := t])
  {
    AcquireIs(c, Last(r), t);
    r' := Go(c, b, k, s, r, t, Acquire);
    SecondMissIs(c, Last(r'), t);
    r' := Go(c, b, k, s, r', t, Get2(Ok));
    assert Last(r').tasks == Last(r).tasks[t := Last(r').tasks[t]];
  }

  /** Lock, compute, store and release. */
  lemma GoFill(c: Config, b: Bounds, k: Key, s: State, r: Trace, t: TaskId) returns (r': Trace)
    requires IsTrace(c, b, k, s, r) && |Last(r).history| > 0 && t in Last(r).tasks && c.lockTtl > 0.0
    requires Last(r).tasks[t].pc.Missed2? && Last(r).tasks[t].variant.Json?
    requires Last(r).tasks[t].K() == k && k !in Last(r).locks
    ensures IsTrace(c, b, k, s, r')
    ensures |Last(r').history| > 0 && k !in Last(r').locks && Last(r').computes[k] == Last(r).computes[k] + 1
    ensures Last(r').tasks.Keys == Last(r).tasks.Keys
    ensures forall u | u in Last(r).tasks && u != t :: Last(r').tasks[u] == Last(r).tasks[u]
  {
    r' := Go(c, b, k, s, r, t, SetNx(Ok));
    assert Last(r').tasks[t].pc.Ready? && Last(r').tasks[t].acquired && RedisLockHeld(Last(r'), k);
    r' := GoCompute(c, b, k, s, r', t);
    r' := Go(c, b, k, s, r', t, Release(Ok));
  }

  /** The value is read and stored. */
  lemma GoStore(c: Config, b: Bounds, k: Key, s: State, r: Trace, t: TaskId) returns (r': Trace)
    requires IsTrace(c, b, k, s, r) && |Last(r).history| > 0 && t in Last(r).tasks
    requires Last(r).tasks[t].pc.Computing? && Last(r).tasks[t].variant.Json? && Last(r).tasks[t].K() == k
    ensures IsTrace(c, b, k, s, r')
    ensures Last(r').now == Last(r).now && Last(r').history == Last(r).history && Last(r').locks == Last(r).locks
    ensures Last(r').computes == Last(r).computes && t in Last(r').tasks && Last(r').tasks[t].pc.Stored?
    ensures Last(r').tasks == Last(r).tasks[t := Last(r).tasks[t].(pc := Last(r').tasks[t].pc)]
  {
    r' := Go(c, b, k, s, r, t, ReadDb);
    r' := Go(c, b, k, s, r', t, Store(Ok));
    assert Last(r').tasks == Last(r).tasks[t := Last(r').tasks[t]];
  }

  lemma GoCompute(c: Config, b: Bounds, k: Key, s: State, r: Trace, t: TaskId) returns (r': Trace)
    requires IsTrace(c, b, k, s, r) && |Last(r).history| > 0 && t in Last(r).tasks
    requires Last(r).tasks[t].pc.Ready? && Last(r).tasks[t].variant.Json? && Last(r).tasks[t].K() == k
    ensures IsTrace(c, b, k, s, r')
    ensures Last(r').now == Last(r).now && Last(r').history == Last(r).history && Last(r').locks == Last(r).locks
    ensures Last(r').computes[k] == Last(r).computes[k] + 1 && t in Last(r').tasks && Last(r').tasks[t].pc.Stored?
    ensures Last(r').tasks == Last(r).tasks[t := Last(r).tasks[t].(pc := Last(r').tasks[t].pc)]
  {
    r' := Go(c, b, k, s, r, t, StartCompute);
    r' := GoStore(c, b, k, s, r', t);
    assert Last(r').tasks == Last(r).tasks[t := Last(r').tasks[t]];
  }

  /** Two calls in two processes. */
  function TwoCalls(): State {
    var x := Task(0, Json, "scope=public", New, 0, 0.0, 0.0, 0, false, 0, 0.0, 0.0, 0.0);
    State(0.0, [map[]], [0.0], map[], map[], map[], map[], map[], 0, 0, map[],
          map[0 := x, 1 := x.(proc := 1)], multiset{}, multiset{}, multiset{}, {})
  }

  /** Both calls are past their second miss before either fills. */
  lemma BothMissTwice(c: Config, b: Bounds, k: Key) returns (r: Trace)
    requires k == Key("scope=public", 1)
    ensures IsTrace(c, b, k, TwoCalls(), r)
    ensures |Last(r).history| > 0 && Last(r).locks == map[]
    ensures Last(r).computes == multiset{} && Last(r).tasks.Keys == {0, 1}
    ensures forall t | t in Last(r).tasks ::
      Last(r).tasks[t].pc.Missed2? && Last(r).tasks[t].variant.Json? && Last(r).tasks[t].K() == k
  {
    var s := TwoCalls();
    r := GoLookup(c, b, k, s, Trace([s], []), 0);
    r := GoLookup(c, b, k, s, r, 1);
    r := GoFirstMiss(c, b, k, s, r, 0);
    r := GoFirstMiss(c, b, k, s, r, 1);
    r := GoSecondMiss(c, b, k, s, r, 0);
    r := GoSecondMiss(c, b, k, s, r, 1);
  }

  /** At most once across processes is false: one key is computed twice in a run in which
      Redis works, nothing expires and no time passes. */
  lemma ComputedTwice(c: Config, b: Bounds)
    requires Sane(c, b)
    ensures Init(c, TwoCalls())
    ensures exists steps, end ::
      && Run(c, Lasting(c, b, Key("scope=public", 1)), TwoCalls(), steps, end)
      && end.computes[Key("scope=public", 1)] == 2
  {
    var k := Key("scope=public", 1);
    var r := BothMissTwice(c, b, k);
    r := GoFill(c, b, k, TwoCalls(), r, 0);
    r := GoFill(c, b, k, TwoCalls(), r, 1);
    TraceRuns(c, b, k, TwoCalls(), r, 0);
    assert r.steps[0..] == r.steps;
  }
}
