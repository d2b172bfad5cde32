/** No task is ever served data older than the version it looked up, and the version it
    looked up was the committed one a bounded time ago. */
module CacheFreshness {
  import opened CacheModel

  /** `p` is the query answer on the database content of committed version `w`. */
  predicate ComputedFrom(c: Config, s: State, params: string, w: nat, p: Payload) {
    1 <= w <= |s.history| && p == c.compute(params, s.history[w - 1])
  }

  /** `p` was computed from a database state of version at least `v`. */
  ghost predicate AtLeast(c: Config, s: State, params: string, v: nat, p: Payload) {
    exists w :: v <= w && ComputedFrom(c, s, params, w, p)
  }

  /** Version `v` was the committed version at moment `at`. */
  predicate WasCurrent(s: State, v: nat, at: Time)
    requires |s.commitAt| == |s.history|
  {
    1 <= v <= |s.history| && s.commitAt[v - 1] <= at && (v < |s.history| ==> at <= s.commitAt[v])
  }

  ghost predicate Clock(s: State) {
    && |s.history| > 0
    && |s.commitAt| == |s.history|
    && (forall i :: 0 <= i < |s.commitAt| ==> s.commitAt[i] <= s.now)
    && (forall i, j :: 0 <= i < j < |s.commitAt| ==> s.commitAt[i] <= s.commitAt[j])
  }

  /** Time passes and commits are appended, none earlier than the previous moment. */
  ghost predicate Grows(s: State, s': State) {
    && Clock(s) && Clock(s')
    && s.now <= s'.now && s.history <= s'.history && s.commitAt <= s'.commitAt
    && (forall i :: |s.commitAt| <= i < |s'.commitAt| ==> s.now <= s'.commitAt[i])
  }

  ghost predicate TaskFresh(c: Config, s: State, x: Task) {
    match x.pc
    case New => true
    case Failed => true
    case VersionRead(seen, _) => seen <= |s.history|
    case Computed(p) => x.version <= |s.history| && AtLeast(c, s, x.params, x.version, p)
    case Stored(p) => x.version <= |s.history| && AtLeast(c, s, x.params, x.version, p)
    case Released(p) => x.version <= |s.history| && AtLeast(c, s, x.params, x.version, p)
    case Done(p, _) => x.version <= |s.history| && AtLeast(c, s, x.params, x.version, p)
    case _ => x.version <= |s.history|
  }

  ghost predicate EntriesFresh(c: Config, s: State) {
    forall k :: k in s.entries ==> AtLeast(c, s, k.params, k.version, s.entries[k].payload)
  }

  ghost predicate Fresh(c: Config, s: State) {
    && |s.history| > 0
    && EntriesFresh(c, s)
    && (forall p :: p in s.local ==> s.local[p].version <= |s.history|)
    && (forall t :: t in s.tasks ==> TaskFresh(c, s, s.tasks[t]))
  }

  lemma AtLeastGrows(c: Config, s: State, s': State, params: string, v: nat, p: Payload)
    requires s.history <= s'.history && AtLeast(c, s, params, v, p)
    ensures AtLeast(c, s', params, v, p)
  {
    var w :| v <= w && ComputedFrom(c, s, params, w, p);
    assert ComputedFrom(c, s', params, w, p);
  }

  lemma TaskFreshGrows(c: Config, s: State, s': State, x: Task)
    requires s.history <= s'.history && TaskFresh(c, s, x)
    ensures TaskFresh(c, s', x)
  {
    if x.pc.Computed? || x.pc.Stored? || x.pc.Released? {
      AtLeastGrows(c, s, s', x.params, x.version, x.pc.value);
    } else if x.pc.Done? {
      AtLeastGrows(c, s, s', x.params, x.version, x.pc.result);
    }
  }

  /** A compute reads the current version, which is at least the version in the key. */
  lemma ReadsCurrent(c: Config, s: State, x: Task)
    requires |s.history| > 0 && x.version <= |s.history|
    ensures AtLeast(c, s, x.params, x.version, c.compute(x.params, s.history[|s.history| - 1]))
  {
    assert ComputedFrom(c, s, x.params, |s.history|, c.compute(x.params, s.history[|s.history| - 1]));
  }

  lemma ActedTaskFresh(c: Config, s: State, x: Task, a: Action)
    requires Fresh(c, s) && TaskFresh(c, s, x) && TaskEnabled(s, x, a)
    ensures TaskFresh(c, s, NextTask(c, s, x, a))
  {
    if a.ReadDb? {
      ReadsCurrent(c, s, x);
    }
  }

  lemma ActFresh(c: Config, s: State, t: TaskId, a: Action)
    requires Fresh(c, s) && t in s.tasks && TaskEnabled(s, s.tasks[t], a)
    ensures Fresh(c, Act(c, s, t, a))
  {
    var s' := Act(c, s, t, a);
    ActedTaskFresh(c, s, s.tasks[t], a);
    forall u | u in s'.tasks ensures TaskFresh(c, s', s'.tasks[u]) {
      TaskFreshGrows(c, s, s', s'.tasks[u]);
    }
    forall k | k in s'.entries ensures AtLeast(c, s', k.params, k.version, s'.entries[k].payload) {
      if a.Store? && k == s.tasks[t].K() && !a.o.Down? {
        assert TaskFresh(c, s, s.tasks[t]);
      }
      AtLeastGrows(c, s, s', k.params, k.version, s'.entries[k].payload);
    }
  }

  lemma NextFresh(c: Config, s: State, step: Step)
    requires Fresh(c, s) && Enabled(s, step)
    ensures Fresh(c, Next(c, s, step))
  {
    var s' := Next(c, s, step);
    if step.Do? {
      ActFresh(c, s, step.t, step.a);
    } else {
      forall u | u in s'.tasks ensures TaskFresh(c, s', s'.tasks[u]) {
        TaskFreshGrows(c, s, s', s.tasks[u]);
      }
      forall k | k in s'.entries ensures AtLeast(c, s', k.params, k.version, s'.entries[k].payload) {
        AtLeastGrows(c, s, s', k.params, k.version, s.entries[k].payload);
      }
    }
  }

  lemma {:induction false} RunFresh(c: Config, ok: (State, Step) -> bool, s: State, steps: seq<Step>, end: State)
    requires Fresh(c, s) && Run(c, ok, s, steps, end)
    ensures Fresh(c, end)
    decreases |steps|
  {
    if steps == [] {
    } else {
      NextFresh(c, s, steps[0]);
      RunFresh(c, ok, Next(c, s, steps[0]), steps[1..], end);
    }
  }

  /** Main result: in every run, whatever fails, expires or is evicted, each entry stored
      under version v and each answer given to a task holding v was computed from a
      database state of version v or later. */
  lemma NeverOlderThanKey(c: Config, ok: (State, Step) -> bool, s: State, steps: seq<Step>, end: State)
    requires Init(c, s) && Run(c, ok, s, steps, end)
    ensures forall k :: k in end.entries ==> AtLeast(c, end, k.params, k.version, end.entries[k].payload)
    ensures forall t :: t in end.tasks && end.tasks[t].pc.Done? ==>
      AtLeast(c, end, end.tasks[t].params, end.tasks[t].version, end.tasks[t].pc.result)
  {
    RunFresh(c, ok, s, steps, end);
    forall t | t in end.tasks && end.tasks[t].pc.Done?
      ensures AtLeast(c, end, end.tasks[t].params, end.tasks[t].version, end.tasks[t].pc.result)
    {
      assert TaskFresh(c, end, end.tasks[t]);
    }
  }

  // ----- the age of a looked-up version -----

  /** Runs with a Redis client in which no version read takes longer than `d` from the
      database to the local copy (`d == 0.0`: read and local store are one step). */
  ghost function Timely(d: Time): (State, Step) -> bool {
    (s: State, step: Step) =>
      step.Do? && step.t in s.tasks ==>
        && !step.a.LookupNoRedis?
        && (step.a.LookupStore? && s.tasks[step.t].pc.VersionRead? ==> s.now <= s.tasks[step.t].pc.readAt + d)
  }

  ghost predicate TaskRecent(s: State, d: Time, x: Task)
    requires |s.commitAt| == |s.history|
  {
    match x.pc
    case New => true
    case VersionRead(seen, at) => WasCurrent(s, seen, at) && at <= s.now
    case _ =>
      || x.pc.Failed?
      || (WasCurrent(s, x.version, x.versionAt)
          && x.versionAt <= x.lookedAt <= s.now && x.lookedAt < x.versionAt + LOCAL_WINDOW + d)
  }

  ghost predicate LocalRecent(s: State, d: Time, l: LocalVersion)
    requires |s.commitAt| == |s.history|
  {
    WasCurrent(s, l.version, l.readAt) && l.readAt <= s.now && l.expires <= l.readAt + LOCAL_WINDOW + d
  }

  ghost predicate Recent(s: State, d: Time) {
    && Clock(s)
    && (forall p :: p in s.local ==> LocalRecent(s, d, s.local[p]))
    && (forall t :: t in s.tasks ==> TaskRecent(s, d, s.tasks[t]))
  }

  lemma ActedTaskRecent(c: Config, d: Time, s: State, x: Task, a: Action)
    requires d >= 0.0 && Recent(s, d) && TaskRecent(s, d, x) && TaskEnabled(s, x, a) && !a.LookupNoRedis?
    requires a.LookupStore? ==> s.now <= x.pc.readAt + d
    ensures TaskRecent(s, d, NextTask(c, s, x, a))
  {
  }

  lemma TaskRecentGrows(d: Time, s: State, s': State, x: Task)
    requires Grows(s, s')
    requires TaskRecent(s, d, x)
    ensures TaskRecent(s', d, x)
  {
  }

  lemma LocalRecentGrows(d: Time, s: State, s': State, l: LocalVersion)
    requires Grows(s, s')
    requires LocalRecent(s, d, l)
    ensures LocalRecent(s', d, l)
  {
  }

  lemma NextGrows(c: Config, s: State, step: Step)
    requires Clock(s) && Enabled(s, step)
    ensures Grows(s, Next(c, s, step))
  {
  }

  lemma NextRecent(c: Config, d: Time, s: State, step: Step)
    requires d >= 0.0 && Recent(s, d) && Enabled(s, step) && Timely(d)(s, step)
    ensures Recent(Next(c, s, step), d)
  {
    var s' := Next(c, s, step);
    NextGrows(c, s, step);
    if step.Do? {
      ActedTaskRecent(c, d, s, s.tasks[step.t], step.a);
    }
    forall u | u in s'.tasks ensures TaskRecent(s', d, s'.tasks[u]) {
      assert TaskRecent(s, d, s'.tasks[u]);
      TaskRecentGrows(d, s, s', s'.tasks[u]);
    }
    forall p | p in s'.local ensures LocalRecent(s', d, s'.local[p]) {
      LocalRecentGrows(d, s, s', s'.local[p]);
    }
  }

  lemma {:induction false} RunRecent(c: Config, d: Time, s: State, steps: seq<Step>, end: State)
    requires d >= 0.0 && Recent(s, d) && Run(c, Timely(d), s, steps, end)
    ensures Recent(end, d)
    decreases |steps|
  {
    if steps == [] {
    } else {
      NextRecent(c, d, s, steps[0]);
      RunRecent(c, d, Next(c, s, steps[0]), steps[1..], end);
    }
  }

  /** The version a task holds was the committed one at some moment less than
      5 s (plus the read latency `d`) before the lookup returned. */
  lemma LookupWindow(c: Config, d: Time, s: State, steps: seq<Step>, end: State, t: TaskId)
    requires d >= 0.0 && Init(c, s) && Run(c, Timely(d), s, steps, end)
    requires t in end.tasks && !end.tasks[t].pc.New? && !end.tasks[t].pc.VersionRead? && !end.tasks[t].pc.Failed?
    ensures |end.commitAt| == |end.history|
    ensures exists at ::
      && end.tasks[t].lookedAt - 5.0 - d < at <= end.tasks[t].lookedAt
      && WasCurrent(end, end.tasks[t].version, at)
  {
    RunRecent(c, d, s, steps, end);
    assert TaskRecent(end, d, end.tasks[t]);
    assert WasCurrent(end, end.tasks[t].version, end.tasks[t].versionAt);
  }

  /** End to end: an answer reflects every commit made at least 5 s (plus `d`) before its
      version lookup returned. */
  lemma AnswerReflectsOldCommits(c: Config, d: Time, s: State, steps: seq<Step>, end: State, t: TaskId, i: nat)
    requires d >= 0.0 && Init(c, s) && Run(c, Timely(d), s, steps, end)
    requires t in end.tasks && end.tasks[t].pc.Done?
    requires i < |end.commitAt| && end.commitAt[i] <= end.tasks[t].lookedAt - 5.0 - d
    ensures exists w :: i + 1 <= w && ComputedFrom(c, end, end.tasks[t].params, w, end.tasks[t].pc.result)
  {
    NeverOlderThanKey(c, Timely(d), s, steps, end);
    RunRecent(c, d, s, steps, end);
    var x := end.tasks[t];
    assert TaskRecent(end, d, x);
    var w :| x.version <= w && ComputedFrom(c, end, x.params, w, x.pc.result);
    assert i + 1 <= x.version;
  }
}
