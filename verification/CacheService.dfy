/** The service methods as they are written, between the steps of all other tasks.

    `Service` is the shared state seen from one process; every await first lets the others
    run, and every access is one action of the transition system, so a call of
    `GetOrCompute` is a part of a run of that system. */
module CacheService {
  import opened CacheModel
  import opened CacheFreshness

  /** What the surroundings do at the i-th access of this call: the steps of the others before
      it, how a request to Redis ends, whether there is a client, whether the call is cancelled.
      `patience` bounds how long the model watches it wait for the local lock and for the
      lock holder. */
  datatype Surroundings = Surroundings(
    others: nat -> seq<Step>,
    outcome: nat -> Outcome,
    client: bool,
    cancelled: nat -> bool,
    patience: nat)

  datatype Reply = Continue | Reply(value: Payload, hit: bool) | Raised | StillWaiting

  /** The parts of a task that a call never changes after its version lookup. */
  predicate SameCall(x: Task, y: Task) {
    x.proc == y.proc && x.variant == y.variant && x.params == y.params && x.version == y.version
  }

  class Service {
    const c: Config
    const t: TaskId
    const env: Surroundings
    var s: State
    var clock: nat    // accesses of this call so far

    constructor (c: Config, t: TaskId, env: Surroundings, s: State)
      requires Fresh(c, s) && t in s.tasks
      ensures this.c == c && this.t == t && this.env == env && this.s == s && clock == 0
    {
      this.c, this.t, this.env, this.s, clock := c, t, env, s, 0;
    }

    ghost predicate Valid()
      reads this
    {
      Fresh(c, s) && t in s.tasks
    }

    /** It waits for the local lock, which someone owns, or between two polls. */
    ghost predicate Waits()
      reads this
    {
      && t in s.tasks
      && (s.tasks[t].pc.Sleeping? || (s.tasks[t].pc.Waiting? && s.tasks[t].lock in s.owner))
    }

    /** The reply says where the task stands, and a hit of a JSON call is no null.  It fails only
        when it is cancelled, and without a reply it still waits. */
    ghost predicate Answers(r: Reply, x: Task)
      reads this
    {
      && t in s.tasks && SameCall(x, s.tasks[t])
      && (r.Reply? ==> s.tasks[t].pc == Done(r.value, r.hit))
      && (r.Reply? && r.hit && x.variant.Json? ==> r.value != "null")
      && (r.Raised? ==> s.tasks[t].pc == Failed && exists n :: env.cancelled(n))
      && (r.StillWaiting? ==> Waits())
    }

    /** The others run; this task stays where it is. */
    method Await()
      requires Valid()
      modifies this
      ensures Valid() && s.tasks[t] == old(s.tasks[t]) && clock == old(clock) + 1
    {
      var steps := env.others(clock);
      clock := clock + 1;
      for i := 0 to |steps|
        invariant Valid() && s.tasks[t] == old(s.tasks[t]) && clock == old(clock) + 1
      {
        var step := steps[i];
        if Enabled(s, step) && !(step.Do? && step.t == t) {
          NextFresh(c, s, step);
          s := Next(c, s, step);
        }
      }
    }

    /** One action of this task. */
    method Take(a: Action)
      requires Valid() && TaskEnabled(s, s.tasks[t], a)
      modifies this`s
      ensures Valid() && s.tasks[t] == NextTask(c, old(s), old(s.tasks[t]), a)
      ensures s.now == old(s.now)
    {
      ActFresh(c, s, t, a);
      s := Act(c, s, t, a);
    }

    /** The get before the local lock, and `setdefault` on the table of lock objects. */
    method LookFirst() returns (r: Reply)
      requires Valid() && s.tasks[t].pc.Looked?
      modifies this
      ensures Valid() && Answers(r, old(s.tasks[t]))
      ensures r.Continue? ==> s.tasks[t].pc.Waiting?
    {
      Await();
      Take(Get1(env.outcome(clock)));
      if s.tasks[t].pc.Done? {
        return Reply(s.tasks[t].pc.result, true);
      }
      Take(TakeRef);
      return Continue;
    }

    /** `async with local_lock`. */
    method TakeLock() returns (r: Reply)
      requires Valid() && s.tasks[t].pc.Waiting?
      modifies this
      ensures Valid() && Answers(r, old(s.tasks[t]))
      ensures !r.Reply? && (r.Continue? ==> s.tasks[t].pc.Holding?)
    {
      Await();
      var waited := 0;
      while s.tasks[t].lock in s.owner && waited < env.patience
        invariant Valid() && s.tasks[t] == old(s.tasks[t])
      {
        Await();
        waited := waited + 1;
        if env.cancelled(clock) {
          Take(Abort);
          return Raised;
        }
      }
      if s.tasks[t].lock in s.owner {
        return StillWaiting;
      }
      Take(Acquire);
      return Continue;
    }

    /** The get inside the local lock. */
    method LookAgain() returns (r: Reply)
      requires Valid() && s.tasks[t].pc.Holding?
      modifies this
      ensures Valid() && Answers(r, old(s.tasks[t]))
      ensures r.Reply? || (r.Continue? && s.tasks[t].pc.Missed2?)
    {
      Await();
      Take(Get2(env.outcome(clock)));
      return if s.tasks[t].pc.Done? then Reply(s.tasks[t].pc.result, true) else Continue;
    }

    /** `SET NX` by a task that has a client; without one it is bound to compute and asks nobody. */
    method TryLock() returns (r: Reply)
      requires Valid() && s.tasks[t].pc.Missed2?
      modifies this
      ensures Valid() && Answers(r, old(s.tasks[t]))
      ensures r.Continue? && (s.tasks[t].pc.Ready? || s.tasks[t].pc.Sleeping?)
      ensures !env.client ==> s.tasks[t].pc.Ready? && clock == old(clock)
      ensures env.client ==> clock == old(clock) + 1 && s.tasks[t].nxAt == s.now
    {
      if !env.client {
        Take(NoClient);
        return Continue;
      }
      Await();
      Take(SetNx(env.outcome(clock)));
      if s.tasks[t].pc.NxFailed? {
        Take(BeginWait);
      }
      return Continue;
    }

    /** The polling of a task that did not get the lock. */
    method Poll() returns (r: Reply)
      requires Valid() && (s.tasks[t].pc.Ready? || s.tasks[t].pc.Sleeping?)
      modifies this
      ensures Valid() && Answers(r, old(s.tasks[t]))
      ensures r.Continue? ==> s.tasks[t].pc.Ready?
    {
      var waited := 0;
      while s.tasks[t].pc.Sleeping? && waited < env.patience
        invariant Valid() && SameCall(old(s.tasks[t]), s.tasks[t])
        invariant s.tasks[t].pc.Sleeping? || s.tasks[t].pc.Ready?
      {
        Await();
        waited := waited + 1;
        if env.cancelled(clock) {
          Take(Abort);
          return Raised;
        }
        if s.tasks[t].pc.since + Pause(s.tasks[t]) <= s.now {
          Take(PollGet(env.outcome(clock)));
          if s.tasks[t].pc.Done? {
            return Reply(s.tasks[t].pc.result, true);
          }
          Await();
          Take(PollCheck);
        }
      }
      return if s.tasks[t].pc.Sleeping? then StillWaiting else Continue;
    }

    method Compute() returns (r: Reply)
      requires Valid() && s.tasks[t].pc.Ready?
      modifies this
      ensures Valid() && Answers(r, old(s.tasks[t]))
      ensures r.Continue? ==> s.tasks[t].pc.Computed?
    {
      Take(StartCompute);
      Await();
      if env.cancelled(clock) {
        Take(Abort);
        return Raised;
      }
      Take(ReadDb);
      return Continue;
    }

    /** Store the value, release the Redis lock, pop the lock object and leave. */
    method Publish() returns (r: Reply)
      requires Valid() && s.tasks[t].pc.Computed?
      modifies this
      ensures Valid() && Answers(r, old(s.tasks[t]))
      ensures r == Reply(old(s.tasks[t].pc.value), false)
    {
      Await();
      Take(Store(env.outcome(clock)));
      Await();
      Take(Release(env.outcome(clock)));
      Take(Finish);
      return Reply(s.tasks[t].pc.result, false);
    }

    /** Both gets, the second under the local lock. */
    method Look() returns (r: Reply)
      requires Valid() && s.tasks[t].pc.Looked?
      modifies this
      ensures Valid() && Answers(r, old(s.tasks[t]))
      ensures r.Continue? ==> s.tasks[t].pc.Missed2?
    {
      r := LookFirst();
      if r.Continue? {
        r := TakeLock();
        if r.Continue? {
          r := LookAgain();
        }
      }
    }

    /** What follows two misses: the Redis lock, the query, the store and the release. */
    method Fill() returns (r: Reply)
      requires Valid() && s.tasks[t].pc.Missed2?
      modifies this
      ensures Valid() && Answers(r, old(s.tasks[t])) && !r.Continue?
    {
      r := TryLock();
      r := Poll();
      if r.Continue? {
        r := Compute();
        if r.Continue? {
          r := Publish();
        }
      }
    }

    /** A call after its version lookup, of either variant, whatever the others do and
        whichever requests fail: what it returns was computed from a database state at
        least as new as the version it holds, and a stored null is no hit for JSON.  It fails
        only when it is cancelled, and a call that has not answered is waiting for a lock. */
    method GetOrCompute() returns (r: Reply)
      requires Valid() && s.tasks[t].pc.Looked?
      modifies this
      ensures Valid() && Answers(r, old(s.tasks[t])) && !r.Continue?
      ensures r.Reply? ==> AtLeast(c, s, old(s.tasks[t].params), old(s.tasks[t].version), r.value)
      ensures r.Reply? && r.hit && old(s.tasks[t].variant.Json?) ==> r.value != "null"
    {
      r := Look();
      if r.Continue? {
        r := Fill();
      }
      assert TaskFresh(c, s, s.tasks[t]);
    }
  }
}
