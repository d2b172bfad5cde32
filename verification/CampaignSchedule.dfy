/** No mail of a campaign is taken up before its time. */
module CampaignSchedule {
  import opened Options
  import opened Permutations
  import opened EmailCampaigns

  /** A row that no worker has taken is due when its delivery is, and waits. */
  predicate Untouched(d: Delivery, o: OutboxRow) {
    o.attempts == 0 ==> o.scheduledAt == d.scheduledAt && (o.status.Pending? || o.status.CancelledRow?)
  }

  /** A delivery is due at the scheduled time of its campaign, which is no draft any more. */
  predicate OnTime(s: State, d: Delivery) {
    && d.campaign in s.campaigns && !s.campaigns[d.campaign].status.Draft?
    && (s.campaigns[d.campaign].content.scheduledAt.Some? ==>
          d.scheduledAt == s.campaigns[d.campaign].content.scheduledAt.value)
  }

  predicate DueInv(s: State) {
    && |s.outbox| == |s.deliveries|
    && (forall i | 0 <= i < |s.deliveries| :: Untouched(s.deliveries[i], s.outbox[i]) && OnTime(s, s.deliveries[i]))
  }

  lemma StartDue(s: State, id: int, confirmed: bool, clock: Time, now: Time)
    requires DueInv(s)
    ensures DueInv(AfterStart(s, id, confirmed, clock, now))
  {
    if StartReply(s, id, confirmed) == Done {
      StartHasEffect(s, id, confirmed, clock, now);
      var s' := AfterStart(s, id, confirmed, clock, now);
      var n := |s.deliveries|;
      forall i | 0 <= i < |s'.deliveries|
        ensures Untouched(s'.deliveries[i], s'.outbox[i]) && OnTime(s', s'.deliveries[i])
      {
        if i < n {
          assert s'.deliveries[i] == s.deliveries[i] && s'.outbox[i] == s.outbox[i];
        } else {
          assert s'.deliveries[n + (i - n)] == s'.deliveries[i] && s'.outbox[n + (i - n)] == s'.outbox[i];
        }
      }
    }
  }

  lemma CancelDue(s: State, id: int, now: Time)
    requires DueInv(s)
    ensures DueInv(AfterCancel(s, id, now))
  {
    if CancelReply(s, id) == Done {
      CancelHasEffect(s, id, now);
    }
  }

  lemma WorkDue(s: State, i: nat, w: Work, now: Time)
    requires DueInv(s) && OneToOne(s)
    ensures DueInv(AfterWork(s, i, w, now))
  {
    if WorkEnabled(s, i, w, now) {
      var s' := AfterWork(s, i, w, now);
      WorkEffect(s, i, w, now);
      assert Untouched(s.deliveries[i], s.outbox[i]) && OnTime(s, s.deliveries[i]);
      assert Matches(s.deliveries[i], s.outbox[i]);
      forall j | 0 <= j < |s'.deliveries|
        ensures Untouched(s'.deliveries[j], s'.outbox[j]) && OnTime(s', s'.deliveries[j])
      {
        assert OnTime(s, s.deliveries[j]);
      }
    }
  }

  lemma CallDue(s: State, call: Call)
    requires DueInv(s) && Inv(s)
    ensures DueInv(After(s, call))
  {
    match call
    case Create(id, cleaned) =>
    case Update(id, expected, cleaned) =>
    case UsersChange(users, newsletter) =>
    case Start(id, confirmed, clock, now) => StartDue(s, id, confirmed, clock, now);
    case Cancel(id, now) => CancelDue(s, id, now);
    case Worker(i, w, now) => WorkDue(s, i, w, now);
  }

  lemma {:induction false} RunDue(s: State, calls: seq<Call>)
    requires DueInv(s) && Inv(s)
    ensures DueInv(Run(s, calls))
    decreases |calls|
  {
    if calls == [] {
    } else {
      CallDue(s, calls[0]);
      CallKeeps(s, calls[0]);
      RunDue(After(s, calls[0]), calls[1..]);
    }
  }

  /** Over every run: a worker that takes a row for the first time does so when the row is due, and
      not before the time its campaign is scheduled for. */
  lemma NotBeforeItsTime(users: seq<User>, newsletter: set<int>, calls: seq<Call>, i: nat, now: Time)
    ensures
      var s := Run(Empty(users, newsletter), calls);
      WorkEnabled(s, i, Claim, now) && s.outbox[i].attempts == 0 ==>
        && s.outbox[i].campaign in s.campaigns
        && s.deliveries[i].scheduledAt <= now
        && (s.campaigns[s.outbox[i].campaign].content.scheduledAt.Some? ==>
              s.campaigns[s.outbox[i].campaign].content.scheduledAt.value <= now)
  {
    RunDue(Empty(users, newsletter), calls);
    RunKeepsInv(Empty(users, newsletter), calls);
    var s := Run(Empty(users, newsletter), calls);
    if WorkEnabled(s, i, Claim, now) {
      assert Untouched(s.deliveries[i], s.outbox[i]) && OnTime(s, s.deliveries[i]);
      assert Matches(s.deliveries[i], s.outbox[i]);
    }
  }

  /** A row that is in work, sent or failed has been taken at least once. */
  lemma SentWasTaken(users: seq<User>, newsletter: set<int>, calls: seq<Call>, i: nat)
    ensures
      var s := Run(Empty(users, newsletter), calls);
      i < |s.outbox| && (s.outbox[i].status.InWork? || s.outbox[i].status.Sent? || s.outbox[i].status.Failed?) ==>
        s.outbox[i].attempts >= 1
  {
    RunDue(Empty(users, newsletter), calls);
    var s := Run(Empty(users, newsletter), calls);
    if i < |s.outbox| {
      assert Untouched(s.deliveries[i], s.outbox[i]);
    }
  }

  /** After any run: a waiting row can be taken from its time on; a row in work can be skipped, given
      up or put back, and sent or retried unless its delivery is cancelled. */
  lemma WorkIsPossible(users: seq<User>, newsletter: set<int>, calls: seq<Call>, i: nat, now: Time)
    ensures
      var s := Run(Empty(users, newsletter), calls);
      i < |s.outbox| ==>
        && i < |s.deliveries|
        && (WorkEnabled(s, i, Claim, now) <==> s.outbox[i].status.Pending? && s.outbox[i].scheduledAt <= now)
        && (s.outbox[i].status.InWork? ==>
              && WorkEnabled(s, i, Skip, now) && WorkEnabled(s, i, GiveUp, now) && WorkEnabled(s, i, Recover, now))
        && (s.outbox[i].status.InWork? && !s.deliveries[i].status.CancelledRow? ==>
              WorkEnabled(s, i, Deliver, now) && forall at :: WorkEnabled(s, i, Retry(at), now))
  {
    RunDue(Empty(users, newsletter), calls);
    RunKeepsInv(Empty(users, newsletter), calls);
    var s := Run(Empty(users, newsletter), calls);
    if i < |s.outbox| {
      assert Matches(s.deliveries[i], s.outbox[i]) && OnTime(s, s.deliveries[i]);
    }
  }
}
