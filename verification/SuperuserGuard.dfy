/** The last active superuser: self-service transactions that lock rows one by one, and
    administrators who count first and write later.

    A transaction runs under READ COMMITTED: `FOR UPDATE` waits for a row held by another
    transaction and then judges the row as it is committed by now. */
module SuperuserGuard {
  import opened Sets

  type UserId = nat
  type TxId = nat

  datatype User = User(superuser: bool, active: bool)
  datatype Kind = Deactivate | Delete

  datatype Outcome = Committed | AuthRequired | LastSuperuserRequired | Unchanged | RolledBack

  datatype Pc =
    | Start
    | OwnLocked                                   // own row locked, it is a superuser
    | Locking(todo: set<UserId>, got: set<UserId>) // inside the ordered FOR UPDATE
    | Ready(counted: set<UserId>)                 // passed the guard
    | Finished(outcome: Outcome)

  datatype Tx = Tx(kind: Kind, uid: UserId, pc: Pc)

  datatype State = State(
    users: map<UserId, User>,     // committed rows
    locks: map<UserId, TxId>,     // row locks
    txs: map<TxId, Tx>,
    pending: map<TxId, UserId>)   // administrators who have counted, with their target

  datatype Step =
    | LockOwn(t: TxId)
    | Snapshot(t: TxId)
    | LockNext(t: TxId, id: UserId)
    | Count(t: TxId)
    | Commit(t: TxId)
    | Rollback(t: TxId)             // wrong password, stale login, error
    | AdminCount(a: TxId, actor: UserId, target: UserId)
    | AdminWrite(a: TxId)
    | AdminActivate(target: UserId)
    | Register(id: UserId, user: User)

  predicate IsActiveSuperuser(s: State, id: UserId) {
    id in s.users && s.users[id].superuser && s.users[id].active
  }

  function ActiveSuperusers(s: State): set<UserId> {
    set id | id in s.users && s.users[id].superuser && s.users[id].active
  }

  /** The row is missing, unlocked, or locked by `t` itself. */
  predicate MayLock(s: State, t: TxId, id: UserId) {
    id in s.users && id in s.locks ==> s.locks[id] == t
  }

  predicate Unlocked(s: State, id: UserId) { id !in s.locks }

  predicate Enabled(s: State, step: Step) {
    match step
    case LockOwn(t) => t in s.txs && s.txs[t].pc.Start? && MayLock(s, t, s.txs[t].uid)
    case Snapshot(t) => t in s.txs && s.txs[t].pc.OwnLocked?
    case LockNext(t, id) =>
      && t in s.txs && s.txs[t].pc.Locking? && id in s.txs[t].pc.todo
      && (forall j | j in s.txs[t].pc.todo :: id <= j)
      && MayLock(s, t, id)
    case Count(t) => t in s.txs && s.txs[t].pc.Locking? && s.txs[t].pc.todo == {}
    case Commit(t) => t in s.txs && s.txs[t].pc.Ready?
    case Rollback(t) => t in s.txs && !s.txs[t].pc.Finished?
    case AdminCount(a, _, target) => a !in s.pending && target in s.users
    case AdminWrite(a) => a in s.pending && Unlocked(s, s.pending[a])
    case AdminActivate(target) => target in s.users && Unlocked(s, target)
    case Register(id, _) => id !in s.users && Unlocked(s, id)
  }

  function Release(s: State, t: TxId): map<UserId, TxId> {
    map id | id in s.locks && s.locks[id] != t :: s.locks[id]
  }

  function Finish(s: State, t: TxId, o: Outcome): State
    requires t in s.txs
  {
    s.(locks := Release(s, t), txs := s.txs[t := s.txs[t].(pc := Finished(o))])
  }

  function To(s: State, t: TxId, pc: Pc): State
    requires t in s.txs
  {
    s.(txs := s.txs[t := s.txs[t].(pc := pc)])
  }

  function Lock(s: State, t: TxId, id: UserId): State { s.(locks := s.locks[id := t]) }

  /** What the administrator's request does when it counts: refuse, do nothing, or go on. */
  predicate AdminGoesOn(s: State, actor: UserId, target: UserId)
    requires target in s.users
  {
    && actor != target
    && s.users[target].active
    && (s.users[target].superuser ==> |ActiveSuperusers(s)| > 1)
  }

  function Next(s: State, step: Step): State
    requires Enabled(s, step)
  {
    match step
    case LockOwn(t) =>
      var uid := s.txs[t].uid;
      if uid !in s.users then Finish(s, t, AuthRequired)
      else To(Lock(s, t, uid), t, if s.users[uid].superuser then OwnLocked else Ready({}))
    case Snapshot(t) => To(s, t, Locking(ActiveSuperusers(s), {}))
    case LockNext(t, id) =>
      var pc := s.txs[t].pc;
      if id !in s.users then To(s, t, Locking(pc.todo - {id}, pc.got))
      else To(Lock(s, t, id), t,
              Locking(pc.todo - {id}, if IsActiveSuperuser(s, id) then pc.got + {id} else pc.got))
    case Count(t) =>
      if |s.txs[t].pc.got| <= 1 then Finish(s, t, LastSuperuserRequired) else To(s, t, Ready(s.txs[t].pc.got))
    case Commit(t) =>
      var x := s.txs[t];
      if x.uid !in s.users then Finish(s, t, RolledBack)
      else if x.kind.Delete? then Finish(s.(users := s.users - {x.uid}), t, Committed)
      else if !s.users[x.uid].active then Finish(s, t, Unchanged)
      else Finish(s.(users := s.users[x.uid := s.users[x.uid].(active := false)]), t, Committed)
    case Rollback(t) => Finish(s, t, RolledBack)
    case AdminCount(a, actor, target) =>
      if AdminGoesOn(s, actor, target) then s.(pending := s.pending[a := target]) else s
    case AdminWrite(a) =>
      var target := s.pending[a];
      var s1 := s.(pending := s.pending - {a});
      if target in s.users then s1.(users := s.users[target := s.users[target].(active := false)]) else s1
    case AdminActivate(target) => s.(users := s.users[target := s.users[target].(active := true)])
    case Register(id, user) => s.(users := s.users[id := user])
  }

  /** The administrator's guard, judged again at the moment of the write, would refuse. */
  predicate Stale(s: State, step: Step) {
    && step.AdminWrite? && step.a in s.pending
    && IsActiveSuperuser(s, s.pending[step.a])
    && |ActiveSuperusers(s)| <= 1
  }

  ghost predicate Init(s: State) {
    s.locks == map[] && s.pending == map[] && forall t | t in s.txs :: s.txs[t].pc.Start?
  }

  ghost predicate Run(s: State, steps: seq<Step>, end: State)
    decreases |steps|
  {
    if steps == [] then s == end
    else Enabled(s, steps[0]) && Run(Next(s, steps[0]), steps[1..], end)
  }

  // ----- what a transaction knows about the rows it holds -----

  predicate Owns(s: State, t: TxId, id: UserId) { id in s.users && id in s.locks && s.locks[id] == t }

  ghost predicate HoldsAll(s: State, t: TxId, ids: set<UserId>) {
    forall id | id in ids :: Owns(s, t, id) && IsActiveSuperuser(s, id)
  }

  ghost predicate TxInv(s: State, t: TxId, x: Tx) {
    match x.pc
    case Start => true
    case OwnLocked => Owns(s, t, x.uid)
    case Locking(_, got) => Owns(s, t, x.uid) && HoldsAll(s, t, got)
    case Ready(counted) =>
      && Owns(s, t, x.uid) && HoldsAll(s, t, counted)
      && (if counted == {} then !s.users[x.uid].superuser else |counted| >= 2)
    case Finished(_) => true
  }

  ghost predicate Inv(s: State) {
    forall t | t in s.txs :: TxInv(s, t, s.txs[t])
  }

  /** A row held by a transaction stays as it is while others act. */
  lemma HeldRowKept(s: State, step: Step, u: TxId, id: UserId)
    requires Inv(s) && Enabled(s, step) && u in s.txs && Next(s, step).txs[u] == s.txs[u]
    requires !s.txs[u].pc.Finished? && Owns(s, u, id)
    ensures Owns(Next(s, step), u, id) && Next(s, step).users[id] == s.users[id]
  {
    if step.Commit? {
      assert TxInv(s, step.t, s.txs[step.t]);
    }
  }

  /** What a transaction knows about the rows it holds survives the steps of others. */
  lemma OthersKept(s: State, step: Step, u: TxId)
    requires Inv(s) && Enabled(s, step) && u in s.txs && Next(s, step).txs[u] == s.txs[u]
    ensures TxInv(Next(s, step), u, s.txs[u])
  {
    assert TxInv(s, u, s.txs[u]);
    forall id | !s.txs[u].pc.Finished? && Owns(s, u, id)
      ensures Owns(Next(s, step), u, id) && Next(s, step).users[id] == s.users[id]
    {
      HeldRowKept(s, step, u, id);
    }
  }

  lemma NextKeeps(s: State, step: Step)
    requires Inv(s) && Enabled(s, step)
    ensures Inv(Next(s, step))
  {
    var s' := Next(s, step);
    forall u | u in s'.txs ensures TxInv(s', u, s'.txs[u]) {
      assert TxInv(s, u, s.txs[u]);
      if s'.txs[u] == s.txs[u] {
        OthersKept(s, step, u);
      }
    }
  }

  /** A set with two members has one besides `gone`. */
  lemma AnotherMember(ids: set<UserId>, gone: UserId) returns (id: UserId)
    requires |ids| >= 2
    ensures id in ids && id != gone
  {
    assert |ids - {gone}| >= 1;
    id :| id in ids - {gone};
  }

  /** Which active superusers a step takes away. */
  function Removed(s: State, step: Step): set<UserId> {
    if step.Commit? && step.t in s.txs && IsActiveSuperuser(s, s.txs[step.t].uid) then {s.txs[step.t].uid}
    else if step.AdminWrite? && step.a in s.pending && IsActiveSuperuser(s, s.pending[step.a]) then {s.pending[step.a]}
    else {}
  }

  lemma OnlyRemoved(s: State, step: Step)
    requires Enabled(s, step)
    ensures ActiveSuperusers(s) - Removed(s, step) <= ActiveSuperusers(Next(s, step))
    ensures step.AdminWrite? ==> ActiveSuperusers(Next(s, step)) == ActiveSuperusers(s) - Removed(s, step)
  {
  }

  /** The only step that can take the last active superuser away is an administrator's
      write whose guard no longer holds. */
  lemma StepEmptiesIff(s: State, step: Step)
    requires Inv(s) && Enabled(s, step) && ActiveSuperusers(s) != {}
    ensures ActiveSuperusers(Next(s, step)) == {} <==> Stale(s, step)
  {
    OnlyRemoved(s, step);
    var active := ActiveSuperusers(s);
    if Removed(s, step) == {} {
    } else if step.Commit? {
      assert TxInv(s, step.t, s.txs[step.t]);
      var id := AnotherMember(s.txs[step.t].pc.counted, s.txs[step.t].uid);
      assert id in ActiveSuperusers(Next(s, step));
    } else if |active| >= 2 {
      var id := AnotherMember(active, s.pending[step.a]);
      assert id in active - Removed(s, step);
    } else {
      assert |active - Removed(s, step)| == |active| - 1;
    }
  }

  ghost predicate NeverEmpty(s: State, steps: seq<Step>)
    decreases |steps|
  {
    && ActiveSuperusers(s) != {}
    && (steps != [] && Enabled(s, steps[0]) ==> NeverEmpty(Next(s, steps[0]), steps[1..]))
  }

  ghost predicate NoStaleWrite(s: State, steps: seq<Step>)
    decreases |steps|
  {
    steps != [] && Enabled(s, steps[0]) ==>
      !Stale(s, steps[0]) && NoStaleWrite(Next(s, steps[0]), steps[1..])
  }

  /** Main result: a run keeps an active superuser throughout exactly when no administrator
      writes on a count that has become stale.  Self-service never needs that condition. */
  lemma {:induction false} KeepsASuperuserIff(s: State, steps: seq<Step>, end: State)
    requires Inv(s) && ActiveSuperusers(s) != {} && Run(s, steps, end)
    ensures NeverEmpty(s, steps) <==> NoStaleWrite(s, steps)
    decreases |steps|
  {
    if steps == [] {
    } else {
      StepEmptiesIff(s, steps[0]);
      NextKeeps(s, steps[0]);
      if ActiveSuperusers(Next(s, steps[0])) != {} {
        KeepsASuperuserIff(Next(s, steps[0]), steps[1..], end);
      }
    }
  }

  // ----- what each step does to the users -----

  /** Every row but `id` is as it was. */
  predicate SameBut(before: map<UserId, User>, after: map<UserId, User>, id: UserId) {
    forall j | j in before.Keys + after.Keys && j != id :: j in before && j in after && before[j] == after[j]
  }

  /** A success is real: the transaction ends as committed only by removing its user, or by making
      it inactive, and touches no other row. */
  lemma CommittedEffect(s: State, step: Step, t: TxId)
    requires Enabled(s, step) && t in s.txs && !s.txs[t].pc.Finished?
    requires Next(s, step).txs[t].pc == Finished(Committed)
    ensures
      var x, s' := s.txs[t], Next(s, step);
      && s.txs[t].pc.Ready? && x.uid in s.users && SameBut(s.users, s'.users, x.uid)
      && (x.kind.Delete? ==> x.uid !in s'.users)
      && (x.kind.Deactivate? ==>
            && s.users[x.uid].active && x.uid in s'.users
            && !s'.users[x.uid].active && s'.users[x.uid].superuser == s.users[x.uid].superuser)
  {
  }

  /** Every other step of a transaction leaves all users as they are. */
  lemma TransactionsTouchNothingElse(s: State, step: Step)
    requires Enabled(s, step) && !step.AdminWrite? && !step.AdminActivate? && !step.Register?
    ensures
      var s' := Next(s, step);
      s'.users == s.users || (step.Commit? && s.txs[step.t].pc.Ready? && s'.txs[step.t].pc == Finished(Committed))
  {
  }

  /** An administrator's write makes its target inactive, an activation makes it active, a
      registration adds a row; no other row changes. */
  lemma AdminEffect(s: State, step: Step)
    requires Enabled(s, step)
    ensures
      var after := Next(s, step).users;
      match step
      case AdminWrite(a) =>
        && SameBut(s.users, after, s.pending[a])
        && (s.pending[a] in s.users <==> s.pending[a] in after)
        && (s.pending[a] in s.users ==> after[s.pending[a]] == User(s.users[s.pending[a]].superuser, false))
      case AdminActivate(id) =>
        SameBut(s.users, after, id) && id in after && after[id] == User(s.users[id].superuser, true)
      case Register(id, user) => SameBut(s.users, after, id) && id in after && after[id] == user
      case _ => true
  {
  }

  /** An administrator's request is remembered exactly when it is not about the administrator,
      the target is active, and it is no superuser or one of several active ones. */
  lemma AdminCountIff(s: State, a: TxId, actor: UserId, target: UserId)
    requires Enabled(s, AdminCount(a, actor, target))
    ensures
      var s' := Next(s, AdminCount(a, actor, target));
      && s'.users == s.users && s'.locks == s.locks && s'.txs == s.txs
      && (a in s'.pending <==> actor != target && s.users[target].active
                               && (s.users[target].superuser ==> |ActiveSuperusers(s)| >= 2))
      && (a in s'.pending ==> s'.pending[a] == target)
  {
  }

  /** The rows are locked in the order of their ids, each looked at once: it counts if it is still an active
      superuser, and is left out if it has gone, so the locking comes to an end. */
  lemma LockNextEffect(s: State, t: TxId, id: UserId)
    requires Enabled(s, LockNext(t, id))
    ensures
      var pc, after := s.txs[t].pc, Next(s, LockNext(t, id)).txs[t].pc;
      && id in pc.todo && (forall j | j in pc.todo :: id <= j)
      && after.Locking? && after.todo == pc.todo - {id} && |after.todo| < |pc.todo|
      && after.got == (if id in s.users && s.users[id].superuser && s.users[id].active then pc.got + {id} else pc.got)
      && Next(s, LockNext(t, id)).locks == (if id in s.users then s.locks[id := t] else s.locks)
  {
  }

  /** The call first locks its own row; without one it ends, and only a superuser goes on to look at
      the others. */
  lemma LockOwnEffect(s: State, t: TxId)
    requires Enabled(s, LockOwn(t)) && forall id | id in s.locks :: s.locks[id] != t
    ensures
      var uid, s' := s.txs[t].uid, Next(s, LockOwn(t));
      && (uid !in s.users ==> s'.txs[t].pc == Finished(AuthRequired) && s'.locks == s.locks)
      && (uid in s.users ==> s'.locks == s.locks[uid := t])
      && (uid in s.users ==> s'.txs[t].pc == if s.users[uid].superuser then OwnLocked else Ready({}))
  {
  }

  /** The rows looked at are those that were active superusers when the query began, and they are
      counted only when all have been looked at: with one or none the call is refused. */
  lemma GuardEffect(s: State, t: TxId)
    ensures Enabled(s, Snapshot(t)) ==>
      forall id :: id in Next(s, Snapshot(t)).txs[t].pc.todo <==>
        id in s.users && s.users[id].superuser && s.users[id].active
    ensures Enabled(s, Count(t)) ==>
      && s.txs[t].pc.todo == {}
      && Next(s, Count(t)).txs[t].pc == if |s.txs[t].pc.got| >= 2 then Ready(s.txs[t].pc.got)
                                        else Finished(LastSuperuserRequired)
  {
  }

  /** A finished transaction never moves again. */
  lemma FinishedStays(s: State, step: Step, t: TxId)
    requires Enabled(s, step) && t in s.txs && s.txs[t].pc.Finished?
    ensures t in Next(s, step).txs && Next(s, step).txs[t] == s.txs[t]
  {
  }

  /** A transaction that ends gives up all its locks, and nobody else's. */
  lemma EndReleases(s: State, step: Step, t: TxId)
    requires Enabled(s, step) && t in s.txs && !s.txs[t].pc.Finished? && Next(s, step).txs[t].pc.Finished?
    ensures
      var locks := Next(s, step).locks;
      && (forall id :: id in locks <==> id in s.locks && s.locks[id] != t)
      && (forall id | id in locks :: locks[id] == s.locks[id])
  {
  }

  /** Every lock belongs to a transaction that is still under way. */
  predicate NoLeftLocks(s: State) {
    forall id | id in s.locks :: s.locks[id] in s.txs && !s.txs[s.locks[id]].pc.Finished?
  }

  lemma NextLeavesNoLocks(s: State, step: Step)
    requires Enabled(s, step) && NoLeftLocks(s)
    ensures NoLeftLocks(Next(s, step))
  {
  }

  /** Over every run nobody waits for a transaction that has ended. */
  lemma {:induction false} LocksAreGivenUp(s: State, steps: seq<Step>, end: State)
    requires Run(s, steps, end) && NoLeftLocks(s)
    ensures forall id | id in end.locks :: end.locks[id] in end.txs && !end.txs[end.locks[id]].pc.Finished?
    decreases |steps|
  {
    if steps == [] {
    } else {
      NextLeavesNoLocks(s, steps[0]);
      LocksAreGivenUp(Next(s, steps[0]), steps[1..], end);
    }
  }

  /** The user of a committed deletion is gone; that of a committed deactivation is inactive, or
      has been deleted since. */
  predicate Settled(s: State, t: TxId)
    requires t in s.txs
  {
    var x := s.txs[t];
    x.pc == Finished(Committed) ==>
      x.uid !in s.users || (x.kind.Deactivate? && !s.users[x.uid].active)
  }

  /** Someone brings the user back. */
  predicate Revives(step: Step, id: UserId) {
    (step.Register? && step.id == id) || (step.AdminActivate? && step.target == id)
  }

  lemma SettledKept(s: State, step: Step, t: TxId)
    requires Enabled(s, step) && t in s.txs && Settled(s, t) && !Revives(step, s.txs[t].uid)
    ensures t in Next(s, step).txs && Next(s, step).txs[t].uid == s.txs[t].uid && Settled(Next(s, step), t)
  {
    if s.txs[t].pc.Finished? {
      FinishedStays(s, step, t);
    } else if Next(s, step).txs[t].pc == Finished(Committed) {
      CommittedEffect(s, step, t);
    }
  }

  /** Over every run: once a self-service call has reported success, its user is gone or inactive
      until someone registers or activates that id again. */
  lemma {:induction false} SuccessLasts(s: State, steps: seq<Step>, end: State, t: TxId)
    requires Run(s, steps, end) && t in s.txs && Settled(s, t)
    requires forall step | step in steps :: !Revives(step, s.txs[t].uid)
    ensures t in end.txs && Settled(end, t)
    decreases |steps|
  {
    if steps == [] {
    } else {
      assert steps[0] in steps;
      SettledKept(s, steps[0], t);
      SuccessLasts(Next(s, steps[0]), steps[1..], end, t);
    }
  }

  // ----- one transaction alone -----

  lemma {:induction false} Least(ids: set<UserId>) returns (least: UserId)
    requires ids != {}
    ensures least in ids && forall j | j in ids :: least <= j
    decreases |ids|
  {
    var x := Choose(ids);
    if ids == {x} {
      least := x;
    } else {
      var rest := Least(ids - {x});
      least := if x <= rest then x else rest;
      forall j | j in ids ensures least <= j {
        assert j == x || j in ids - {x};
      }
    }
  }

  /** What a transaction ends with when nobody interferes. */
  function Expected(s: State, x: Tx): Outcome {
    if x.uid !in s.users then AuthRequired
    else if s.users[x.uid].superuser && |ActiveSuperusers(s)| <= 1 then LastSuperuserRequired
    else if x.kind.Deactivate? && !s.users[x.uid].active then Unchanged
    else Committed
  }

  predicate OnlyLocks(s: State, t: TxId) { forall id | id in s.locks :: s.locks[id] == t }

  /** From a state in which it holds all locks, `t` locks the rows it has found one by one. */
  lemma {:induction false} LockAll(s: State, t: TxId) returns (steps: seq<Step>, end: State)
    requires t in s.txs && s.txs[t].pc.Locking? && OnlyLocks(s, t)
    requires s.txs[t].pc.todo <= ActiveSuperusers(s) && s.txs[t].pc.todo !! s.txs[t].pc.got
    ensures Run(s, steps, end) && end.users == s.users && OnlyLocks(end, t)
    ensures end.txs == s.txs[t := s.txs[t].(pc := Locking({}, s.txs[t].pc.got + s.txs[t].pc.todo))]
    decreases |s.txs[t].pc.todo|
  {
    var pc := s.txs[t].pc;
    if pc.todo == {} {
      assert pc.got + pc.todo == pc.got;
      assert s.txs[t := s.txs[t].(pc := Locking({}, pc.got))] == s.txs;
      return [], s;
    }
    var id := Least(pc.todo);
    var s1 := Next(s, LockNext(t, id));
    assert id in ActiveSuperusers(s);
    assert s1.txs[t].pc == Locking(pc.todo - {id}, pc.got + {id});
    assert ActiveSuperusers(s1) == ActiveSuperusers(s);
    var rest, last := LockAll(s1, t);
    assert (pc.got + {id}) + (pc.todo - {id}) == pc.got + pc.todo;
    RunCons(s, LockNext(t, id), rest, last);
    steps, end := [LockNext(t, id)] + rest, last;
    assert end.txs == s.txs[t := s.txs[t].(pc := Locking({}, pc.got + pc.todo))];
  }

  lemma RunCons(s: State, step: Step, rest: seq<Step>, end: State)
    requires Enabled(s, step) && Run(Next(s, step), rest, end)
    ensures Run(s, [step] + rest, end)
  {
    assert ([step] + rest)[1..] == rest;
  }

  lemma RunOne(s: State, step: Step)
    requires Enabled(s, step)
    ensures Run(s, [step], Next(s, step))
  {
    assert [step][1..] == [];
  }

  /** The end of a transaction that has passed or failed the guard. */
  lemma GuardAlone(s: State, t: TxId) returns (steps: seq<Step>, end: State)
    requires t in s.txs && s.txs[t].pc.OwnLocked? && OnlyLocks(s, t)
    ensures Run(s, steps, end) && end.users == s.users && t in end.txs && OnlyLocks(end, t)
    ensures end.txs[t].uid == s.txs[t].uid && end.txs[t].kind == s.txs[t].kind
    ensures if |ActiveSuperusers(s)| <= 1 then end.txs[t].pc == Finished(LastSuperuserRequired)
            else end.txs[t].pc.Ready?
  {
    var s1 := Next(s, Snapshot(t));
    assert ActiveSuperusers(s1) == ActiveSuperusers(s);
    var locking, s2 := LockAll(s1, t);
    assert {} + ActiveSuperusers(s) == ActiveSuperusers(s);
    var s3 := Next(s2, Count(t));
    RunOne(s2, Count(t));
    RunAppend(s1, locking, s2, [Count(t)], s3);
    RunCons(s, Snapshot(t), locking + [Count(t)], s3);
    steps, end := [Snapshot(t)] + (locking + [Count(t)]), s3;
  }

  lemma CommitAlone(s: State, t: TxId)
    requires t in s.txs && s.txs[t].pc.Ready? && s.txs[t].uid in s.users
    ensures
      var x, end := s.txs[t], Next(s, Commit(t));
      && end.txs[t].pc
         == Finished(if x.kind.Deactivate? && !s.users[x.uid].active then Unchanged else Committed)
      && end.users
         == (if x.kind.Delete? then s.users - {x.uid}
             else s.users[x.uid := User(s.users[x.uid].superuser, false)])
  {
    var x := s.txs[t];
    if x.kind.Deactivate? && !s.users[x.uid].active {
      assert s.users[x.uid := User(s.users[x.uid].superuser, false)] == s.users;
    }
  }

  /** Alone, a self-service call ends as the rule says: the last active superuser is refused,
      everybody else is deactivated or deleted. */
  lemma AloneOutcome(s: State, t: TxId)
    requires s.locks == map[] && t in s.txs && s.txs[t].pc.Start?
    ensures exists steps, end ::
      && Run(s, steps, end) && t in end.txs && end.txs[t].pc == Finished(Expected(s, s.txs[t]))
      && end.users
         == (var x := s.txs[t];
             if Expected(s, x) != Committed then s.users
             else if x.kind.Delete? then s.users - {x.uid}
             else s.users[x.uid := User(s.users[x.uid].superuser, false)])
  {
    var x := s.txs[t];
    var s1 := Next(s, LockOwn(t));
    if x.uid !in s.users {
      RunOne(s, LockOwn(t));
    } else {
      assert OnlyLocks(s1, t) && ActiveSuperusers(s1) == ActiveSuperusers(s);
      var guard, s2 := [], s1;
      if s.users[x.uid].superuser {
        guard, s2 := GuardAlone(s1, t);
      } else {
        assert Run(s1, [], s1);
      }
      if s.users[x.uid].superuser && |ActiveSuperusers(s)| <= 1 {
        RunCons(s, LockOwn(t), guard, s2);
      } else {
        CommitAlone(s2, t);
        RunOne(s2, Commit(t));
        RunAppend(s1, guard, s2, [Commit(t)], Next(s2, Commit(t)));
        RunCons(s, LockOwn(t), guard + [Commit(t)], Next(s2, Commit(t)));
        if Expected(s, x) == Unchanged {
          assert s.users[x.uid := User(s.users[x.uid].superuser, false)] == s.users;
        }
      }
    }
  }

  // ----- administrators whose count and write are one step -----

  /** Every administrator who goes on after counting writes with nothing in between. */
  ghost predicate AtomicAdmins(s: State, steps: seq<Step>)
    decreases |steps|
  {
    steps != [] && Enabled(s, steps[0]) ==>
      && !steps[0].AdminWrite?
      && var s1 := Next(s, steps[0]);
         if s1.pending == s.pending || |steps| == 1 then AtomicAdmins(s1, steps[1..])
         else
           && steps[1] == AdminWrite(steps[0].a)
           && (Enabled(s1, steps[1]) ==> AtomicAdmins(Next(s1, steps[1]), steps[2..]))
  }

  lemma AtomicIsFresh(s: State, count: Step, write: Step)
    requires s.pending == map[] && Enabled(s, count) && count.AdminCount?
    requires Enabled(Next(s, count), write) && write.AdminWrite?
    ensures !Stale(Next(s, count), write) && Next(Next(s, count), write).pending == map[]
  {
    assert ActiveSuperusers(Next(s, count)) == ActiveSuperusers(s);
  }

  lemma {:induction false} AtomicHasNoStale(s: State, steps: seq<Step>, end: State)
    requires s.pending == map[] && Run(s, steps, end) && AtomicAdmins(s, steps)
    ensures NoStaleWrite(s, steps)
    decreases |steps|
  {
    if steps == [] {
    } else {
      var s1 := Next(s, steps[0]);
      if s1.pending == map[] {
        AtomicHasNoStale(s1, steps[1..], end);
      } else if |steps| == 1 {
      } else {
        assert steps[1..][0] == steps[1] && steps[1..][1..] == steps[2..];
        AtomicIsFresh(s, steps[0], steps[1]);
        AtomicHasNoStale(Next(s1, steps[1]), steps[2..], end);
      }
    }
  }

  /** Any number of concurrent self-deactivations and self-deletions, together with atomic
      administrators, never take the number of active superusers from positive to zero. */
  lemma SelfServiceKeepsASuperuser(s: State, steps: seq<Step>, end: State)
    requires Init(s) && ActiveSuperusers(s) != {} && Run(s, steps, end) && AtomicAdmins(s, steps)
    ensures NeverEmpty(s, steps)
  {
    AtomicHasNoStale(s, steps, end);
    KeepsASuperuserIff(s, steps, end);
  }

  // ----- administrators whose count and write are two steps -----

  lemma RunOfTwo(s: State, a: Step, b: Step)
    requires Enabled(s, a) && Enabled(Next(s, a), b)
    ensures Run(s, [a, b], Next(Next(s, a), b))
  {
    assert [a, b][1..] == [b] && [b][1..] == [];
    assert Run(Next(s, a), [b], Next(Next(s, a), b));
  }

  lemma {:induction false} RunAppend(s: State, steps: seq<Step>, middle: State, more: seq<Step>, end: State)
    requires Run(s, steps, middle) && Run(middle, more, end)
    ensures Run(s, steps + more, end)
    decreases |steps|
  {
    if steps == [] {
      assert steps + more == more;
    } else {
      RunAppend(Next(s, steps[0]), steps[1..], middle, more, end);
      assert (steps + more)[1..] == steps[1..] + more;
    }
  }

  /** Two superusers and nobody at work. */
  function TwoAdmins(): State { State(map[1 := User(true, true), 2 := User(true, true)], map[], map[], map[]) }

  /** Each has counted two and is about to deactivate the other. */
  function BothCounted(): State { TwoAdmins().(pending := map[10 := 2, 11 := 1]) }

  lemma BothCount()
    ensures |ActiveSuperusers(TwoAdmins())| == 2
    ensures Run(TwoAdmins(), [AdminCount(10, 1, 2), AdminCount(11, 2, 1)], BothCounted())
  {
    var s := TwoAdmins();
    assert ActiveSuperusers(s) == {1, 2};
    var s1 := Next(s, AdminCount(10, 1, 2));
    assert ActiveSuperusers(s1) == ActiveSuperusers(s);
    assert Next(s1, AdminCount(11, 2, 1)) == BothCounted();
    RunOfTwo(s, AdminCount(10, 1, 2), AdminCount(11, 2, 1));
  }

  lemma BothWrite() returns (end: State)
    ensures Run(BothCounted(), [AdminWrite(10), AdminWrite(11)], end) && ActiveSuperusers(end) == {}
  {
    RunOfTwo(BothCounted(), AdminWrite(10), AdminWrite(11));
    end := Next(Next(BothCounted(), AdminWrite(10)), AdminWrite(11));
    assert ActiveSuperusers(end) == {};
  }

  /** Without atomicity it fails: two superusers deactivate each other after both counted two. */
  lemma TwoAdminsCanEmpty()
    ensures exists s, steps, end ::
      Init(s) && |ActiveSuperusers(s)| == 2 && Run(s, steps, end) && ActiveSuperusers(end) == {}
  {
    BothCount();
    var end := BothWrite();
    var counts, writes := [AdminCount(10, 1, 2), AdminCount(11, 2, 1)], [AdminWrite(10), AdminWrite(11)];
    RunAppend(TwoAdmins(), counts, BothCounted(), writes, end);
    assert Init(TwoAdmins());
  }
}
