/** Bulk mail campaigns: drafting, starting once, cancelling, and the workers that send.
    Every call locks its campaign row and commits at the end, so calls on one campaign follow
    one another; the workers take single rows in between. */
module EmailCampaigns {
  import opened Options
  import opened Permutations

  type Time = real

  datatype Status = Draft | Scheduled | Processing | Completed | Cancelled
  datatype Kind = Legal | Service | Newsletter | System
  datatype Scope = AllActiveUsers | VerifiedUsers | Superusers
  datatype RowStatus = Pending | InWork | Sent | Failed | Skipped | CancelledRow

  datatype User = User(id: int, email: string, active: bool, emailPending: bool, verified: bool, superuser: bool)

  /** What an author edits. */
  datatype Content = Content(text: string, kind: Kind, scope: Scope, scheduledAt: Option<Time>)

  datatype Campaign = Campaign(
    content: Content, version: nat, status: Status, recipientCount: nat,
    startedAt: Option<Time>, completedAt: Option<Time>)

  datatype Delivery = Delivery(id: nat, campaign: int, user: int, email: string, status: RowStatus, scheduledAt: Time)
  datatype OutboxRow = OutboxRow(
    delivery: nat, campaign: int, user: int, status: RowStatus, scheduledAt: Time, attempts: nat)

  datatype State = State(
    users: seq<User>,            // in id order
    newsletter: set<int>,        // users who enabled the newsletter
    campaigns: map<int, Campaign>,
    deliveries: seq<Delivery>,
    outbox: seq<OutboxRow>,
    nextDelivery: nat)

  datatype Reply = Done | NotFound | Conflict | Invalid | AlreadyStarted

  // ----- recipients -----

  function Addressed(scope: Scope): User -> bool {
    (u: User) =>
      && u.active && !u.emailPending
      && (scope.VerifiedUsers? ==> u.verified)
      && (scope.Superusers? ==> u.superuser && u.verified)
  }

  function IdIn(ids: set<int>): User -> bool { (u: User) => u.id in ids }

  /** The preference rows of the addressed users. */
  function Enabled(newsletter: set<int>, users: seq<User>): set<int> {
    set u | u in users && u.id in newsletter :: u.id
  }

  /** The users a start writes deliveries for. */
  function Recipients(s: State, c: Content): seq<User> {
    var users := Filter(Addressed(c.scope), s.users);
    if c.kind.Newsletter? then Filter(IdIn(Enabled(s.newsletter, users)), users) else users
  }

  /** The number shown before the start. */
  function RecipientCount(s: State, c: Content): nat {
    var users := Filter(Addressed(c.scope), s.users);
    if !c.kind.Newsletter? then |users| else Count(IdIn(Enabled(s.newsletter, users)), users)
  }

  // ----- the calls -----

  function Started(c: Campaign, recipients: nat, now: Time): Campaign {
    var scheduled := recipients > 0 && c.content.scheduledAt.Some? && c.content.scheduledAt.value > now;
    c.(status := if scheduled then Scheduled else if recipients > 0 then Processing else Completed,
       startedAt := if scheduled then None else Some(now),
       completedAt := if recipients > 0 then None else Some(now),
       recipientCount := recipients)
  }

  function Deliveries(first: nat, campaign: int, users: seq<User>, due: Time): seq<Delivery> {
    seq(|users|, i requires 0 <= i < |users| =>
      Delivery(first + i, campaign, users[i].id, users[i].email, Pending, due))
  }

  function Outbox(first: nat, campaign: int, users: seq<User>, due: Time): seq<OutboxRow> {
    seq(|users|, i requires 0 <= i < |users| => OutboxRow(first + i, campaign, users[i].id, Pending, due, 0))
  }

  function StartReply(s: State, id: int, confirmed: bool): Reply {
    if id !in s.campaigns then NotFound
    else
      var c := s.campaigns[id];
      if c.status in {Scheduled, Processing, Completed} then AlreadyStarted
      else if !c.status.Draft? then Conflict
      else if c.content.kind.Legal? && !confirmed then Conflict
      else Done
  }

  /** `clock` is read for the due time, `now` when the rows have been added. */
  function AfterStart(s: State, id: int, confirmed: bool, clock: Time, now: Time): State {
    if StartReply(s, id, confirmed) != Done then s
    else
      var c := s.campaigns[id];
      var users := Recipients(s, c.content);
      var due := if c.content.scheduledAt.Some? then c.content.scheduledAt.value else clock;
      s.(campaigns := s.campaigns[id := Started(c, |users|, now)],
         deliveries := s.deliveries + Deliveries(s.nextDelivery, id, users, due),
         outbox := s.outbox + Outbox(s.nextDelivery, id, users, due),
         nextDelivery := s.nextDelivery + |users|)
  }

  /** An edit: the version the author had read and the cleaned content, if it is valid. */
  function UpdateReply(s: State, id: int, expected: int, cleaned: Option<Content>): Reply {
    if id !in s.campaigns then NotFound
    else if !s.campaigns[id].status.Draft? || expected != s.campaigns[id].version then Conflict
    else if cleaned.None? then Invalid
    else Done
  }

  function AfterUpdate(s: State, id: int, expected: int, cleaned: Option<Content>): State {
    if UpdateReply(s, id, expected, cleaned) != Done then s
    else
      var c := s.campaigns[id];
      s.(campaigns := s.campaigns[id := c.(content := cleaned.value, version := c.version + 1)])
  }

  function CancelReply(s: State, id: int): Reply {
    if id !in s.campaigns then NotFound
    else if s.campaigns[id].status.Completed? then Conflict else Done
  }

  function CancelDelivery(id: int): Delivery -> Delivery {
    (d: Delivery) => if d.campaign == id && d.status.Pending? then d.(status := CancelledRow) else d
  }

  function CancelOutbox(id: int): OutboxRow -> OutboxRow {
    (o: OutboxRow) => if o.campaign == id && o.status.Pending? then o.(status := CancelledRow) else o
  }

  function AfterCancel(s: State, id: int, now: Time): State {
    if CancelReply(s, id) != Done then s
    else
      s.(campaigns := s.campaigns[id := s.campaigns[id].(status := Cancelled, completedAt := Some(now))],
         deliveries := Map(CancelDelivery(id), s.deliveries),
         outbox := Map(CancelOutbox(id), s.outbox))
  }

  function AfterCreate(s: State, id: int, cleaned: Option<Content>): State {
    if cleaned.None? || id in s.campaigns then s
    else s.(campaigns := s.campaigns[id := Campaign(cleaned.value, 1, Draft, 0, None, None)])
  }

  // ----- the workers -----

  /** What a worker does with an outbox row: take it, find its user gone, fail for now or for
      good, send, or take up a row that was left behind. */
  datatype Work = Claim | Skip | Retry(at: Time) | GiveUp | Deliver | Recover

  /** A row is taken when it is due; only a row in work can be finished, and nothing is sent
      for a cancelled delivery. */
  predicate WorkEnabled(s: State, i: nat, w: Work, now: Time) {
    && i < |s.outbox| && i < |s.deliveries| && s.outbox[i].campaign in s.campaigns
    && match w
       case Claim => s.outbox[i].status.Pending? && s.outbox[i].scheduledAt <= now
       case Retry(_) => s.outbox[i].status.InWork? && !s.deliveries[i].status.CancelledRow?
       case Deliver => s.outbox[i].status.InWork? && !s.deliveries[i].status.CancelledRow?
       case _ => s.outbox[i].status.InWork?
  }

  function OutboxAfter(o: OutboxRow, w: Work, now: Time): OutboxRow {
    match w
    case Claim => o.(status := InWork, attempts := o.attempts + 1)
    case Skip => o.(status := Failed)
    case Retry(at) => o.(status := Pending, scheduledAt := at)
    case GiveUp => o.(status := Failed)
    case Deliver => o.(status := Sent)
    case Recover => o.(status := Pending, scheduledAt := now)
  }

  /** Taking up a row that was left behind does not touch its delivery. */
  function DeliveryAfter(d: Delivery, w: Work): Delivery {
    match w
    case Claim => d.(status := InWork)
    case Skip => d.(status := Skipped)
    case Retry(_) => d.(status := Pending)
    case GiveUp => d.(status := Failed)
    case Deliver => d.(status := Sent)
    case Recover => d
  }

  predicate Open(r: RowStatus) { r.Pending? || r.InWork? }

  predicate HasOpen(rows: seq<Delivery>, id: int) {
    exists d | d in rows :: d.campaign == id && Open(d.status)
  }

  /** A campaign without open deliveries is completed, unless it was cancelled. */
  function Progress(c: Campaign, open: bool, w: Work, now: Time): Campaign {
    if w.Claim? then (if c.status.Scheduled? then c.(status := Processing, startedAt := Some(now)) else c)
    else if w.Recover? || open then c
    else c.(status := if c.status.Cancelled? then Cancelled else Completed,
            completedAt := if c.completedAt.Some? then c.completedAt else Some(now))
  }

  function AfterWork(s: State, i: nat, w: Work, now: Time): State {
    if !WorkEnabled(s, i, w, now) then s
    else
      var id := s.outbox[i].campaign;
      var deliveries := s.deliveries[i := DeliveryAfter(s.deliveries[i], w)];
      s.(outbox := s.outbox[i := OutboxAfter(s.outbox[i], w, now)],
         deliveries := deliveries,
         campaigns := s.campaigns[id := Progress(s.campaigns[id], HasOpen(deliveries, id), w, now)])
  }

  // ----- what the calls promise -----

  /** The recipients of a campaign, from its scope and type. */
  function Gets(s: State, c: Content): User -> bool {
    (u: User) =>
      && u.active && !u.emailPending
      && (match c.scope
          case AllActiveUsers => true
          case VerifiedUsers => u.verified
          case Superusers => u.superuser && u.verified)
      && (c.kind.Newsletter? ==> u.id in s.newsletter)
  }

  /** A start writes to exactly these users, in order, and the number shown is theirs. */
  lemma RecipientsAre(s: State, c: Content)
    ensures Recipients(s, c) == Filter(Gets(s, c), s.users)
    ensures RecipientCount(s, c) == Count(Gets(s, c), s.users)
  {
    var users := Filter(Addressed(c.scope), s.users);
    if c.kind.Newsletter? {
      forall u | u in users ensures IdIn(Enabled(s.newsletter, users))(u) <==> u.id in s.newsletter {
      }
      FilterBy(IdIn(Enabled(s.newsletter, users)), IdIn(s.newsletter), users);
      FilterTwice(Addressed(c.scope), IdIn(s.newsletter), Gets(s, c), s.users);
    } else {
      FilterBy(Addressed(c.scope), Gets(s, c), s.users);
    }
  }

  predicate SameBut(s: State, s': State, id: int) {
    && id in s'.campaigns && s'.campaigns.Keys == s.campaigns.Keys + {id}
    && (forall other | other in s.campaigns && other != id :: s'.campaigns[other] == s.campaigns[other])
  }

  predicate SameRows(s: State, s': State) {
    s'.deliveries == s.deliveries && s'.outbox == s.outbox && s'.nextDelivery == s.nextDelivery
  }

  predicate SameUsers(s: State, s': State) { s'.users == s.users && s'.newsletter == s.newsletter }

  /** Only a draft at the version its author has read takes an edit. */
  predicate MayUpdate(s: State, id: int, expected: int) {
    id in s.campaigns && s.campaigns[id].status.Draft? && s.campaigns[id].version == expected
  }

  predicate UpdateEffect(s: State, s': State, id: int, content: Content)
    requires id in s.campaigns
  {
    && SameBut(s, s', id) && SameRows(s, s') && SameUsers(s, s')
    && s'.campaigns[id].content == content && s'.campaigns[id].version == s.campaigns[id].version + 1
    && s'.campaigns[id].status == s.campaigns[id].status
    && s'.campaigns[id].recipientCount == s.campaigns[id].recipientCount
    && s'.campaigns[id].startedAt == s.campaigns[id].startedAt
    && s'.campaigns[id].completedAt == s.campaigns[id].completedAt
  }

  /** Only a draft can be started, a legal notice only with its confirmation. */
  predicate MayStart(s: State, id: int, confirmed: bool) {
    && id in s.campaigns && s.campaigns[id].status.Draft?
    && (s.campaigns[id].content.kind.Legal? ==> confirmed)
  }

  /** A row of a campaign is due when the campaign is scheduled for, else when it is started. */
  predicate DueAt(c: Content, clock: Time, at: Time) {
    if c.scheduledAt.Some? then at == c.scheduledAt.value else at == clock
  }

  /** One pending delivery for each recipient, due at the scheduled time, with an id not used before. */
  predicate DeliveriesWritten(before: seq<Delivery>, after: seq<Delivery>, first: nat, id: int, users: seq<User>,
                              c: Content, clock: Time)
  {
    && before <= after && |after| == |before| + |users|
    && (forall i | 0 <= i < |users| ::
          var d := after[|before| + i];
          && d.id == first + i && d.campaign == id && d.status.Pending? && DueAt(c, clock, d.scheduledAt)
          && d.user == users[i].id && d.email == users[i].email)
  }

  /** One pending outbox row for each delivery, due with it. */
  predicate OutboxWritten(before: seq<OutboxRow>, after: seq<OutboxRow>, first: nat, id: int, users: seq<User>,
                          c: Content, clock: Time)
  {
    && before <= after && |after| == |before| + |users|
    && (forall i | 0 <= i < |users| ::
          var o := after[|before| + i];
          && o.delivery == first + i && o.campaign == id && o.user == users[i].id && o.status.Pending?
          && DueAt(c, clock, o.scheduledAt) && o.attempts == 0)
  }

  /** The new rows in both tables. */
  predicate RowsWritten(s: State, s': State, id: int, clock: Time)
    requires id in s.campaigns
  {
    var c := s.campaigns[id].content;
    var users := Filter(Gets(s, c), s.users);
    && s'.nextDelivery == s.nextDelivery + |users|
    && DeliveriesWritten(s.deliveries, s'.deliveries, s.nextDelivery, id, users, c, clock)
    && OutboxWritten(s.outbox, s'.outbox, s.nextDelivery, id, users, c, clock)
  }

  /** The campaign after its start: scheduled if its time is still to come, in process if there is
      anyone to write to, else completed. */
  predicate CampaignStarted(c: Campaign, c': Campaign, recipients: nat, now: Time) {
    && c'.content == c.content && c'.version == c.version && c'.recipientCount == recipients
    && (if recipients == 0 then
          c'.status.Completed? && c'.startedAt == Some(now) && c'.completedAt == Some(now)
        else if c.content.scheduledAt.Some? && now < c.content.scheduledAt.value then
          c'.status.Scheduled? && c'.startedAt == None && c'.completedAt == None
        else
          c'.status.Processing? && c'.startedAt == Some(now) && c'.completedAt == None)
  }

  predicate StartEffect(s: State, s': State, id: int, clock: Time, now: Time)
    requires id in s.campaigns
  {
    && SameBut(s, s', id) && SameUsers(s, s') && RowsWritten(s, s', id, clock)
    && CampaignStarted(s.campaigns[id], s'.campaigns[id], |Filter(Gets(s, s.campaigns[id].content), s.users)|, now)
  }

  predicate RowCancelled(before: RowStatus, after: RowStatus, own: bool) {
    after == if own && before.Pending? then CancelledRow else before
  }

  /** Exactly the pending rows of the campaign are cancelled, and nothing else of any row changes. */
  predicate CancelEffect(s: State, s': State, id: int, now: Time)
    requires id in s.campaigns
  {
    var c, c' := s.campaigns[id], if id in s'.campaigns then s'.campaigns[id] else s.campaigns[id];
    && SameBut(s, s', id) && SameUsers(s, s') && s'.nextDelivery == s.nextDelivery
    && c'.status.Cancelled? && c'.completedAt == Some(now) && c'.startedAt == c.startedAt
    && c'.content == c.content && c'.version == c.version && c'.recipientCount == c.recipientCount
    && |s'.deliveries| == |s.deliveries| && |s'.outbox| == |s.outbox|
    && (forall i | 0 <= i < |s.deliveries| ::
          var d, d' := s.deliveries[i], s'.deliveries[i];
          && RowCancelled(d.status, d'.status, d.campaign == id)
          && d'.id == d.id && d'.campaign == d.campaign && d'.user == d.user && d'.email == d.email
          && d'.scheduledAt == d.scheduledAt)
    && (forall i | 0 <= i < |s.outbox| ::
          var o, o' := s.outbox[i], s'.outbox[i];
          && RowCancelled(o.status, o'.status, o.campaign == id)
          && o'.delivery == o.delivery && o'.campaign == o.campaign && o'.user == o.user
          && o'.scheduledAt == o.scheduledAt && o'.attempts == o.attempts)
  }

  /** What a worker step makes of the two rows at its place. */
  predicate RowsWorked(d: Delivery, d': Delivery, o: OutboxRow, o': OutboxRow, w: Work, now: Time) {
    && d'.id == d.id && d'.campaign == d.campaign && d'.user == d.user && d'.email == d.email
    && d'.scheduledAt == d.scheduledAt
    && o'.delivery == o.delivery && o'.campaign == o.campaign && o'.user == o.user
    && match w
       case Claim =>
         && o.status.Pending? && o.scheduledAt <= now
         && o'.status.InWork? && d'.status.InWork? && o'.scheduledAt == o.scheduledAt && o'.attempts == o.attempts + 1
       case Recover =>
         && o.status.InWork?
         && o'.status.Pending? && d'.status == d.status && o'.scheduledAt == now && o'.attempts == o.attempts
       case Retry(at) =>
         && o.status.InWork? && !d.status.CancelledRow?
         && o'.status.Pending? && d'.status.Pending? && o'.scheduledAt == at && o'.attempts == o.attempts
       case Skip =>
         && o.status.InWork?
         && o'.status.Failed? && d'.status.Skipped? && o'.scheduledAt == o.scheduledAt && o'.attempts == o.attempts
       case GiveUp =>
         && o.status.InWork?
         && o'.status.Failed? && d'.status.Failed? && o'.scheduledAt == o.scheduledAt && o'.attempts == o.attempts
       case Deliver =>
         && o.status.InWork? && !d.status.CancelledRow?
         && o'.status.Sent? && d'.status.Sent? && o'.scheduledAt == o.scheduledAt && o'.attempts == o.attempts
  }

  /** A scheduled campaign is in process once a row is taken; when the last open delivery is closed
      it is completed, unless it was cancelled. */
  predicate CampaignWorked(c: Campaign, c': Campaign, open: bool, w: Work, now: Time) {
    && c'.content == c.content && c'.version == c.version && c'.recipientCount == c.recipientCount
    && (if w.Claim? && c.status.Scheduled? then
          c'.status.Processing? && c'.startedAt == Some(now) && c'.completedAt == c.completedAt
        else
          && c'.startedAt == c.startedAt
          && (if w.Claim? || w.Recover? || open then c'.status == c.status && c'.completedAt == c.completedAt
              else
                && (if c.status.Cancelled? then c'.status.Cancelled? else c'.status.Completed?)
                && c'.completedAt == if c.completedAt.Some? then c.completedAt else Some(now)))
  }

  /** A worker step changes its two rows and their campaign, and nothing else. */
  lemma WorkEffect(s: State, i: nat, w: Work, now: Time)
    requires WorkEnabled(s, i, w, now)
    ensures
      var s', id := AfterWork(s, i, w, now), s.outbox[i].campaign;
      && SameBut(s, s', id) && SameUsers(s, s') && s'.nextDelivery == s.nextDelivery
      && |s'.deliveries| == |s.deliveries| && |s'.outbox| == |s.outbox|
      && (forall j | 0 <= j < |s.deliveries| && j != i :: s'.deliveries[j] == s.deliveries[j])
      && (forall j | 0 <= j < |s.outbox| && j != i :: s'.outbox[j] == s.outbox[j])
      && RowsWorked(s.deliveries[i], s'.deliveries[i], s.outbox[i], s'.outbox[i], w, now)
      && CampaignWorked(s.campaigns[id], s'.campaigns[id], StillOpen(s'.deliveries, id), w, now)
  {
  }

  predicate StillOpen(rows: seq<Delivery>, id: int) {
    exists d | d in rows :: d.campaign == id && (d.status.Pending? || d.status.InWork?)
  }

  lemma NewDeliveries(before: seq<Delivery>, first: nat, id: int, users: seq<User>, c: Content, clock: Time, due: Time)
    requires DueAt(c, clock, due)
    ensures DeliveriesWritten(before, before + Deliveries(first, id, users, due), first, id, users, c, clock)
  {
  }

  lemma NewOutbox(before: seq<OutboxRow>, first: nat, id: int, users: seq<User>, c: Content, clock: Time, due: Time)
    requires DueAt(c, clock, due)
    ensures OutboxWritten(before, before + Outbox(first, id, users, due), first, id, users, c, clock)
  {
  }

  lemma StartWritesRows(s: State, id: int, confirmed: bool, clock: Time, now: Time)
    requires StartReply(s, id, confirmed) == Done
    ensures RowsWritten(s, AfterStart(s, id, confirmed, clock, now), id, clock)
  {
    var c := s.campaigns[id].content;
    var users := Recipients(s, c);
    var due := if c.scheduledAt.Some? then c.scheduledAt.value else clock;
    RecipientsAre(s, c);
    NewDeliveries(s.deliveries, s.nextDelivery, id, users, c, clock, due);
    NewOutbox(s.outbox, s.nextDelivery, id, users, c, clock, due);
  }

  lemma StartHasEffect(s: State, id: int, confirmed: bool, clock: Time, now: Time)
    requires StartReply(s, id, confirmed) == Done
    ensures StartEffect(s, AfterStart(s, id, confirmed, clock, now), id, clock, now)
  {
    RecipientsAre(s, s.campaigns[id].content);
    StartWritesRows(s, id, confirmed, clock, now);
  }

  lemma CancelHasEffect(s: State, id: int, now: Time)
    requires CancelReply(s, id) == Done
    ensures CancelEffect(s, AfterCancel(s, id, now), id, now)
  {
  }

  /** The tables, and the calls as they change them. */
  class Store {
    var users: seq<User>
    var newsletter: set<int>
    var campaigns: map<int, Campaign>
    var deliveries: seq<Delivery>
    var outbox: seq<OutboxRow>
    var nextDelivery: nat

    constructor (users: seq<User>, newsletter: set<int>)
      ensures Contents() == State(users, newsletter, map[], [], [], 0)
    {
      this.users, this.newsletter := users, newsletter;
      campaigns, deliveries, outbox, nextDelivery := map[], [], [], 0;
    }

    function Contents(): State
      reads this
    {
      State(users, newsletter, campaigns, deliveries, outbox, nextDelivery)
    }

    method Create(id: int, cleaned: Option<Content>) returns (reply: Reply)
      requires id !in campaigns
      modifies this
      ensures Contents() == AfterCreate(old(Contents()), id, cleaned)
      ensures cleaned.None? ==> reply == Invalid && Contents() == old(Contents())
      ensures cleaned.Some? ==>
        && reply == Done && SameBut(old(Contents()), Contents(), id)
        && SameRows(old(Contents()), Contents()) && SameUsers(old(Contents()), Contents())
        && campaigns[id].content == cleaned.value && campaigns[id].version == 1 && campaigns[id].status.Draft?
        && campaigns[id].recipientCount == 0 && campaigns[id].startedAt == campaigns[id].completedAt == None
    {
      if cleaned.None? {
        return Invalid;
      }
      campaigns := campaigns[id := Campaign(cleaned.value, 1, Draft, 0, None, None)];
      return Done;
    }

    method Update(id: int, expected: int, cleaned: Option<Content>) returns (reply: Reply)
      modifies this
      ensures Contents() == AfterUpdate(old(Contents()), id, expected, cleaned)
      ensures reply == NotFound <==> id !in old(campaigns)
      ensures reply == Conflict <==> id in old(campaigns) && !MayUpdate(old(Contents()), id, expected)
      ensures reply == Invalid <==> MayUpdate(old(Contents()), id, expected) && cleaned.None?
      ensures reply == Done <==> MayUpdate(old(Contents()), id, expected) && cleaned.Some?
      ensures reply == Done ==> UpdateEffect(old(Contents()), Contents(), id, cleaned.value)
      ensures reply != Done ==> Contents() == old(Contents())
    {
      if id !in campaigns { return NotFound; }
      var campaign := campaigns[id];
      if !campaign.status.Draft? { return Conflict; }
      if expected != campaign.version { return Conflict; }
      if cleaned.None? { return Invalid; }
      campaigns := campaigns[id := campaign.(content := cleaned.value, version := campaign.version + 1)];
      return Done;
    }

    /** One delivery and one outbox row for each recipient. */
    method AddRows(id: int, recipients: seq<User>, due: Time)
      modifies this`deliveries, this`outbox, this`nextDelivery
      ensures deliveries == old(deliveries) + Deliveries(old(nextDelivery), id, recipients, due)
      ensures outbox == old(outbox) + Outbox(old(nextDelivery), id, recipients, due)
      ensures nextDelivery == old(nextDelivery) + |recipients|
    {
      ghost var ds := Deliveries(nextDelivery, id, recipients, due);
      ghost var os := Outbox(nextDelivery, id, recipients, due);
      for i := 0 to |recipients|
        invariant nextDelivery == old(nextDelivery) + i
        invariant deliveries == old(deliveries) + ds[..i]
        invariant outbox == old(outbox) + os[..i]
      {
        var user := recipients[i];
        deliveries := deliveries + [Delivery(nextDelivery, id, user.id, user.email, Pending, due)];
        outbox := outbox + [OutboxRow(nextDelivery, id, user.id, Pending, due, 0)];
        nextDelivery := nextDelivery + 1;
        assert ds[..i + 1] == ds[..i] + [ds[i]] && os[..i + 1] == os[..i] + [os[i]];
      }
      assert ds[..|recipients|] == ds && os[..|recipients|] == os;
    }

    method Start(id: int, confirmed: bool, clock: Time, now: Time) returns (reply: Reply)
      modifies this
      ensures Contents() == AfterStart(old(Contents()), id, confirmed, clock, now)
      ensures reply == NotFound <==> id !in old(campaigns)
      ensures reply == AlreadyStarted <==>
        id in old(campaigns) && !old(campaigns)[id].status.Draft? && !old(campaigns)[id].status.Cancelled?
      ensures reply == Done <==> MayStart(old(Contents()), id, confirmed)
      ensures reply in {NotFound, AlreadyStarted, Done, Conflict}
      ensures reply == Done ==> StartEffect(old(Contents()), Contents(), id, clock, now)
      ensures reply != Done ==> Contents() == old(Contents())
    {
      ghost var before := Contents();
      if id !in campaigns { return NotFound; }
      var campaign := campaigns[id];
      if campaign.status in {Scheduled, Processing, Completed} { return AlreadyStarted; }
      if !campaign.status.Draft? { return Conflict; }
      if campaign.content.kind.Legal? && !confirmed { return Conflict; }
      StartHasEffect(before, id, confirmed, clock, now);
      var recipients := Recipients(Contents(), campaign.content);
      var due := if campaign.content.scheduledAt.Some? then campaign.content.scheduledAt.value else clock;
      AddRows(id, recipients, due);
      campaigns := campaigns[id := Started(campaign, |recipients|, now)];
      return Done;
    }

    method Cancel(id: int, now: Time) returns (reply: Reply)
      modifies this
      ensures Contents() == AfterCancel(old(Contents()), id, now)
      ensures reply == NotFound <==> id !in old(campaigns)
      ensures reply == Conflict <==> id in old(campaigns) && old(campaigns)[id].status.Completed?
      ensures reply == Done <==> id in old(campaigns) && !old(campaigns)[id].status.Completed?
      ensures reply == Done ==> CancelEffect(old(Contents()), Contents(), id, now)
      ensures reply != Done ==> Contents() == old(Contents())
    {
      ghost var before := Contents();
      if id !in campaigns { return NotFound; }
      if campaigns[id].status.Completed? { return Conflict; }
      deliveries := Map(CancelDelivery(id), deliveries);
      outbox := Map(CancelOutbox(id), outbox);
      campaigns := campaigns[id := campaigns[id].(status := Cancelled, completedAt := Some(now))];
      CancelHasEffect(before, id, now);
      return Done;
    }
  }

  // ----- runs -----

  datatype Call =
    | Create(id: int, cleaned: Option<Content>)
    | Update(id: int, expected: int, cleaned: Option<Content>)
    | Start(id: int, confirmed: bool, clock: Time, now: Time)
    | Cancel(id: int, now: Time)
    | UsersChange(users: seq<User>, newsletter: set<int>)
    | Worker(i: nat, w: Work, now: Time)

  function After(s: State, call: Call): State {
    match call
    case Create(id, cleaned) => AfterCreate(s, id, cleaned)
    case Update(id, expected, cleaned) => AfterUpdate(s, id, expected, cleaned)
    case Start(id, confirmed, clock, now) => AfterStart(s, id, confirmed, clock, now)
    case Cancel(id, now) => AfterCancel(s, id, now)
    case UsersChange(users, newsletter) => s.(users := users, newsletter := newsletter)
    case Worker(i, w, now) => AfterWork(s, i, w, now)
  }

  function Run(s: State, calls: seq<Call>): State
    decreases |calls|
  {
    if calls == [] then s else Run(After(s, calls[0]), calls[1..])
  }

  function OfCampaign(id: int): Delivery -> bool { (d: Delivery) => d.campaign == id }

  function DeliveriesOf(s: State, id: int): seq<Delivery> { Filter(OfCampaign(id), s.deliveries) }

  /** How the status of an outbox row goes with that of its delivery.  They differ when the
      user is gone, and after a row that was left behind is taken up again. */
  predicate Agrees(d: RowStatus, o: RowStatus) {
    || (d == o && !o.Skipped?)
    || (d.Skipped? && o.Failed?)
    || (d.InWork? && (o.Pending? || o.CancelledRow?))
  }

  predicate Matches(d: Delivery, o: OutboxRow) {
    o.delivery == d.id && o.campaign == d.campaign && o.user == d.user && Agrees(d.status, o.status)
  }

  /** Each outbox row belongs to the delivery at its place and agrees with it. */
  predicate OneToOne(s: State) {
    && |s.outbox| == |s.deliveries|
    && (forall i | 0 <= i < |s.deliveries| :: Matches(s.deliveries[i], s.outbox[i]))
    && (forall i, j | 0 <= i < j < |s.deliveries| :: s.deliveries[i].id != s.deliveries[j].id)
    && (forall i | 0 <= i < |s.deliveries| ::
          s.deliveries[i].id < s.nextDelivery && s.deliveries[i].campaign in s.campaigns)
  }

  /** Counts match the rows, drafts have none, and a completed campaign has nothing open. */
  predicate CampaignInv(s: State, id: int)
    requires id in s.campaigns
  {
    var c := s.campaigns[id];
    && |DeliveriesOf(s, id)| == c.recipientCount
    && (c.status.Draft? ==> c.recipientCount == 0)
    && (c.status.Completed? ==> !HasOpen(s.deliveries, id))
  }

  predicate Inv(s: State) {
    OneToOne(s) && forall id | id in s.campaigns :: CampaignInv(s, id)
  }

  lemma {:induction false} AllOrNone(id: int, rows: seq<Delivery>, own: int)
    requires forall d | d in rows :: d.campaign == own
    ensures Filter(OfCampaign(id), rows) == if id == own then rows else []
    decreases |rows|
  {
    if rows == [] {
    } else {
      AllOrNone(id, rows[1..], own);
    }
  }

  /** A start adds its own rows and no other campaign's. */
  lemma StartRows(s: State, id: int, confirmed: bool, clock: Time, now: Time, other: int)
    requires StartReply(s, id, confirmed) == Done
    ensures
      var s' := AfterStart(s, id, confirmed, clock, now);
      var added := s'.deliveries[|s.deliveries|..];
      && s.deliveries <= s'.deliveries && |added| == |Recipients(s, s.campaigns[id].content)|
      && DeliveriesOf(s', other) == DeliveriesOf(s, other) + (if other == id then added else [])
  {
    var s' := AfterStart(s, id, confirmed, clock, now);
    var added := s'.deliveries[|s.deliveries|..];
    assert s'.deliveries == s.deliveries + added;
    FilterAppend(OfCampaign(other), s.deliveries, added);
    AllOrNone(other, added, id);
  }

  /** Cancelling keeps every row, its owner and its place. */
  lemma {:induction false} CancelRows(rows: seq<Delivery>, id: int, other: int)
    ensures
      Filter(OfCampaign(other), Map(CancelDelivery(id), rows))
      == Map(CancelDelivery(id), Filter(OfCampaign(other), rows))
    decreases |rows|
  {
    if rows == [] {
    } else {
      CancelRows(rows[1..], id, other);
    }
  }

  lemma CancelMatches(d: Delivery, o: OutboxRow, id: int)
    requires Matches(d, o)
    ensures Matches(CancelDelivery(id)(d), CancelOutbox(id)(o))
  {
  }

  lemma CancelOneToOne(s: State, id: int, now: Time)
    requires OneToOne(s)
    ensures OneToOne(AfterCancel(s, id, now))
  {
    var s' := AfterCancel(s, id, now);
    if CancelReply(s, id) == Done {
      forall i | 0 <= i < |s.deliveries|
        ensures Matches(s'.deliveries[i], s'.outbox[i])
        ensures s'.deliveries[i].id == s.deliveries[i].id && s'.deliveries[i].campaign == s.deliveries[i].campaign
      {
        CancelMatches(s.deliveries[i], s.outbox[i], id);
      }
    }
  }

  lemma StartOneToOne(s: State, id: int, confirmed: bool, clock: Time, now: Time)
    requires OneToOne(s)
    ensures OneToOne(AfterStart(s, id, confirmed, clock, now))
  {
    var s' := AfterStart(s, id, confirmed, clock, now);
    var n := |s.deliveries|;
    if StartReply(s, id, confirmed) == Done {
      assert forall i | 0 <= i < n :: s'.deliveries[i] == s.deliveries[i] && s'.outbox[i] == s.outbox[i];
      assert forall i | n <= i < |s'.deliveries| ::
        s'.deliveries[i].id == s.nextDelivery + (i - n) && s'.deliveries[i].campaign == id;
    }
  }

  lemma StartKeepsCampaign(s: State, id: int, confirmed: bool, clock: Time, now: Time, other: int)
    requires other in s.campaigns && CampaignInv(s, other) && StartReply(s, id, confirmed) == Done
    ensures CampaignInv(AfterStart(s, id, confirmed, clock, now), other)
  {
    var s' := AfterStart(s, id, confirmed, clock, now);
    StartRows(s, id, confirmed, clock, now, other);
    forall d | d in s'.deliveries && d.campaign == other && s'.campaigns[other].status.Completed?
      ensures !Open(d.status)
    {
      assert d in DeliveriesOf(s', other);
    }
  }

  lemma StartKeeps(s: State, id: int, confirmed: bool, clock: Time, now: Time)
    requires Inv(s)
    ensures Inv(AfterStart(s, id, confirmed, clock, now))
  {
    var s' := AfterStart(s, id, confirmed, clock, now);
    StartOneToOne(s, id, confirmed, clock, now);
    if StartReply(s, id, confirmed) == Done {
      forall other | other in s'.campaigns ensures CampaignInv(s', other) {
        StartKeepsCampaign(s, id, confirmed, clock, now, other);
      }
    }
  }

  /** Where the cancelled rows come from. */
  lemma CancelledFrom(rows: seq<Delivery>, id: int, d: Delivery) returns (was: Delivery)
    requires d in Map(CancelDelivery(id), rows)
    ensures was in rows && was.campaign == d.campaign
    ensures d == if was.campaign == id && was.status.Pending? then was.(status := CancelledRow) else was
  {
    var i :| 0 <= i < |rows| && Map(CancelDelivery(id), rows)[i] == d;
    was := rows[i];
  }

  lemma CancelKeepsCampaign(s: State, id: int, now: Time, other: int)
    requires other in s.campaigns && CampaignInv(s, other) && CancelReply(s, id) == Done
    ensures CampaignInv(AfterCancel(s, id, now), other)
  {
    var s' := AfterCancel(s, id, now);
    CancelRows(s.deliveries, id, other);
    forall d | d in s'.deliveries && d.campaign == other && s'.campaigns[other].status.Completed?
      ensures !Open(d.status)
    {
      var was := CancelledFrom(s.deliveries, id, d);
    }
  }

  lemma CancelKeeps(s: State, id: int, now: Time)
    requires Inv(s)
    ensures Inv(AfterCancel(s, id, now))
  {
    var s' := AfterCancel(s, id, now);
    CancelOneToOne(s, id, now);
    if CancelReply(s, id) == Done {
      assert s'.campaigns.Keys == s.campaigns.Keys;
      forall other | other in s.campaigns ensures CampaignInv(s', other) {
        CancelKeepsCampaign(s, id, now, other);
      }
    } else {
      assert s' == s;
    }
  }

  lemma CreateKeeps(s: State, id: int, cleaned: Option<Content>)
    requires Inv(s)
    ensures Inv(AfterCreate(s, id, cleaned))
  {
    var s' := AfterCreate(s, id, cleaned);
    forall other | other in s'.campaigns ensures CampaignInv(s', other) {
      if other in s.campaigns {
        assert CampaignInv(s, other);
      } else {
        NoneCounted(OfCampaign(other), s.deliveries);
      }
    }
  }

  /** Changing a row's status keeps whose it is. */
  lemma {:induction false} RowsOfSame(rows: seq<Delivery>, i: nat, d: Delivery, id: int)
    requires i < |rows| && d.campaign == rows[i].campaign && To(d) == To(rows[i])
    ensures Map(To, Filter(OfCampaign(id), rows[i := d])) == Map(To, Filter(OfCampaign(id), rows))
    decreases |rows|
  {
    if i == 0 {
      assert rows[i := d][1..] == rows[1..];
    } else {
      assert rows[i := d][1..] == rows[1..][i - 1 := d] && rows[i := d][0] == rows[0];
      RowsOfSame(rows[1..], i - 1, d, id);
    }
  }

  lemma WorkOneToOne(s: State, i: nat, w: Work, now: Time)
    requires OneToOne(s)
    ensures OneToOne(AfterWork(s, i, w, now))
  {
  }

  lemma WorkKeepsCount(s: State, i: nat, w: Work, now: Time, id: int)
    requires WorkEnabled(s, i, w, now)
    ensures |DeliveriesOf(AfterWork(s, i, w, now), id)| == |DeliveriesOf(s, id)|
  {
    RowsOfSame(s.deliveries, i, DeliveryAfter(s.deliveries[i], w), id);
  }

  lemma WorkKeepsOther(s: State, i: nat, w: Work, now: Time, id: int)
    requires Inv(s) && WorkEnabled(s, i, w, now) && id in s.campaigns && id != s.outbox[i].campaign
    ensures CampaignInv(AfterWork(s, i, w, now), id)
  {
    assert Matches(s.deliveries[i], s.outbox[i]) && CampaignInv(s, id);
    WorkKeepsCount(s, i, w, now, id);
    forall d | d in AfterWork(s, i, w, now).deliveries && d.campaign == id ensures d in s.deliveries {
    }
  }

  lemma ProgressKeeps(c: Campaign, open: bool, w: Work, now: Time)
    ensures
      var c' := Progress(c, open, w, now);
      && c'.content == c.content && c'.version == c.version && c'.recipientCount == c.recipientCount
      && (c'.status.Draft? ==> c.status.Draft?)
      && (c'.status.Completed? ==> c.status.Completed? || !open)
  {
  }

  /** A row that is worked on is open, so its campaign is neither a draft nor completed. */
  lemma WorkedIsOpen(s: State, i: nat, w: Work, now: Time)
    requires Inv(s) && WorkEnabled(s, i, w, now)
    ensures
      var c := s.campaigns[s.outbox[i].campaign];
      Open(s.deliveries[i].status) && !c.status.Draft? && !c.status.Completed?
  {
    var id := s.outbox[i].campaign;
    assert Matches(s.deliveries[i], s.outbox[i]) && CampaignInv(s, id);
    assert s.deliveries[i] in s.deliveries && s.deliveries[i] in DeliveriesOf(s, id);
  }

  lemma WorkKeepsOwn(s: State, i: nat, w: Work, now: Time)
    requires Inv(s) && WorkEnabled(s, i, w, now)
    ensures CampaignInv(AfterWork(s, i, w, now), s.outbox[i].campaign)
  {
    var id := s.outbox[i].campaign;
    assert CampaignInv(s, id);
    WorkKeepsCount(s, i, w, now, id);
    WorkedIsOpen(s, i, w, now);
    ProgressKeeps(s.campaigns[id], HasOpen(s.deliveries[i := DeliveryAfter(s.deliveries[i], w)], id), w, now);
  }

  lemma WorkKeeps(s: State, i: nat, w: Work, now: Time)
    requires Inv(s)
    ensures Inv(AfterWork(s, i, w, now))
  {
    WorkOneToOne(s, i, w, now);
    if WorkEnabled(s, i, w, now) {
      var s' := AfterWork(s, i, w, now);
      assert s'.campaigns.Keys == s.campaigns.Keys;
      forall id | id in s.campaigns ensures CampaignInv(s', id) {
        if id == s.outbox[i].campaign {
          WorkKeepsOwn(s, i, w, now);
        } else {
          WorkKeepsOther(s, i, w, now, id);
        }
      }
    }
  }

  lemma SameTablesKeep(s: State, s': State)
    requires Inv(s) && s'.deliveries == s.deliveries && s'.outbox == s.outbox && s'.nextDelivery == s.nextDelivery
    requires s'.campaigns.Keys == s.campaigns.Keys
    requires forall id | id in s.campaigns ::
      && s'.campaigns[id].status == s.campaigns[id].status
      && s'.campaigns[id].recipientCount == s.campaigns[id].recipientCount
    ensures Inv(s')
  {
    forall id | id in s'.campaigns ensures CampaignInv(s', id) {
      assert CampaignInv(s, id);
    }
  }

  lemma CallKeeps(s: State, call: Call)
    requires Inv(s)
    ensures Inv(After(s, call))
  {
    match call
    case Create(id, cleaned) => CreateKeeps(s, id, cleaned);
    case Update(id, expected, cleaned) => SameTablesKeep(s, After(s, call));
    case Start(id, confirmed, clock, now) => StartKeeps(s, id, confirmed, clock, now);
    case Cancel(id, now) => CancelKeeps(s, id, now);
    case UsersChange(users, newsletter) => SameTablesKeep(s, After(s, call));
    case Worker(i, w, now) => WorkKeeps(s, i, w, now);
  }

  lemma {:induction false} RunKeepsInv(s: State, calls: seq<Call>)
    requires Inv(s)
    ensures Inv(Run(s, calls))
    decreases |calls|
  {
    if calls == [] {
    } else {
      CallKeeps(s, calls[0]);
      RunKeepsInv(After(s, calls[0]), calls[1..]);
    }
  }

  function Empty(users: seq<User>, newsletter: set<int>): State { State(users, newsletter, map[], [], [], 0) }

  /** Main result, first part: over every sequence of calls and worker steps outbox and
      deliveries stay one to one, `recipient_count` is the number of deliveries, a draft has
      none and a completed campaign has no open row in either table. */
  lemma CampaignsStayConsistent(users: seq<User>, newsletter: set<int>, calls: seq<Call>)
    ensures
      var s := Run(Empty(users, newsletter), calls);
      && OneToOne(s)
      && (forall id | id in s.campaigns ::
            && |DeliveriesOf(s, id)| == s.campaigns[id].recipientCount
            && (s.campaigns[id].status.Draft? ==> DeliveriesOf(s, id) == [])
            && (s.campaigns[id].status.Completed? ==>
                  forall i | 0 <= i < |s.deliveries| && s.deliveries[i].campaign == id ::
                    !Open(s.deliveries[i].status) && !Open(s.outbox[i].status)))
  {
    RunKeepsInv(Empty(users, newsletter), calls);
    var s := Run(Empty(users, newsletter), calls);
    forall id | id in s.campaigns ensures CampaignInv(s, id) {
    }
    forall id, i | id in s.campaigns && s.campaigns[id].status.Completed?
                   && 0 <= i < |s.deliveries| && s.deliveries[i].campaign == id
      ensures !Open(s.deliveries[i].status) && !Open(s.outbox[i].status)
    {
      assert CampaignInv(s, id) && s.deliveries[i] in s.deliveries && Matches(s.deliveries[i], s.outbox[i]);
    }
  }

  /** The row a worker holds belongs to a delivery in work: nothing is sent for a cancelled one. */
  lemma InWorkIsLive(users: seq<User>, newsletter: set<int>, calls: seq<Call>, i: nat)
    requires i < |Run(Empty(users, newsletter), calls).outbox|
    requires Run(Empty(users, newsletter), calls).outbox[i].status.InWork?
    ensures
      var s := Run(Empty(users, newsletter), calls);
      i < |s.deliveries| && s.deliveries[i].status.InWork?
  {
    RunKeepsInv(Empty(users, newsletter), calls);
    var s := Run(Empty(users, newsletter), calls);
    assert Matches(s.deliveries[i], s.outbox[i]);
  }

  lemma DraftHasNoRows(s: State, id: int)
    requires Inv(s) && id in s.campaigns && s.campaigns[id].status.Draft?
    ensures DeliveriesOf(s, id) == [] && forall d | d in s.deliveries :: d.campaign != id
  {
    assert CampaignInv(s, id);
    forall d | d in s.deliveries ensures d.campaign != id {
      assert OfCampaign(id)(d) ==> d in DeliveriesOf(s, id);
    }
  }

  /** All rows of the campaign are due at its time. */
  predicate AllDue(s: State, id: int, c: Content, clock: Time) {
    && (forall d | d in s.deliveries && d.campaign == id :: DueAt(c, clock, d.scheduledAt))
    && (forall o | o in s.outbox && o.campaign == id :: DueAt(c, clock, o.scheduledAt))
  }

  lemma StartedRowsAreDue(s: State, s': State, id: int, clock: Time)
    requires OneToOne(s) && id in s.campaigns && RowsWritten(s, s', id, clock)
    requires forall d | d in s.deliveries :: d.campaign != id
    ensures AllDue(s', id, s.campaigns[id].content, clock)
  {
    var n, c := |s.deliveries|, s.campaigns[id].content;
    var users := Filter(Gets(s, c), s.users);
    forall j | 0 <= j < n ensures s'.deliveries[j].campaign != id && s'.outbox[j].campaign != id {
      assert s.deliveries[j] in s.deliveries && Matches(s.deliveries[j], s.outbox[j]);
    }
    forall d | d in s'.deliveries && d.campaign == id ensures DueAt(c, clock, d.scheduledAt) {
      var i :| 0 <= i < |s'.deliveries| && s'.deliveries[i] == d;
      var k := i - n;
      assert s'.deliveries[n + k] == d && d.user == users[k].id;
    }
    forall o | o in s'.outbox && o.campaign == id ensures DueAt(c, clock, o.scheduledAt) {
      var i :| 0 <= i < |s'.outbox| && s'.outbox[i] == o;
      var k := i - n;
      assert s'.outbox[n + k] == o && o.user == users[k].id;
    }
  }

  lemma StartOwnRows(s: State, id: int, confirmed: bool, clock: Time, now: Time)
    requires Inv(s) && StartReply(s, id, confirmed) == Done
    ensures
      var s' := AfterStart(s, id, confirmed, clock, now);
      |s.deliveries| <= |s'.deliveries| && DeliveriesOf(s', id) == s'.deliveries[|s.deliveries|..]
  {
    StartRows(s, id, confirmed, clock, now, id);
    DraftHasNoRows(s, id);
  }

  /** Second part: a start succeeds exactly for a draft, a legal one only when confirmed; it
      records the number shown just before it, and writes one pending delivery and one pending
      outbox row to each recipient, all due at the scheduled time if there is one, else at once. */
  lemma StartWritesWhatWasShown(s: State, id: int, confirmed: bool, clock: Time, now: Time)
    requires Inv(s)
    ensures StartReply(s, id, confirmed) == Done <==> MayStart(s, id, confirmed)
    ensures !MayStart(s, id, confirmed) ==> AfterStart(s, id, confirmed, clock, now) == s
    ensures MayStart(s, id, confirmed) ==>
      var c := s.campaigns[id].content;
      var s' := AfterStart(s, id, confirmed, clock, now);
      && StartEffect(s, s', id, clock, now)
      && s'.campaigns[id].recipientCount == RecipientCount(s, c)
      && DeliveriesOf(s', id) == s'.deliveries[|s.deliveries|..]
      && AllDue(s', id, c, clock)
  {
    if MayStart(s, id, confirmed) {
      StartHasEffect(s, id, confirmed, clock, now);
      RecipientsAre(s, s.campaigns[id].content);
      StartOwnRows(s, id, confirmed, clock, now);
      DraftHasNoRows(s, id);
      StartedRowsAreDue(s, AfterStart(s, id, confirmed, clock, now), id, clock);
    }
  }

  // ----- what a start fixes -----

  datatype Addressee = Addressee(id: nat, user: int, email: string, due: Time)

  function To(d: Delivery): Addressee { Addressee(d.id, d.user, d.email, d.scheduledAt) }

  /** Everything of a campaign that must not change once it is no draft. */
  datatype Fixed = Fixed(content: Content, version: nat, recipientCount: nat, addressees: seq<Addressee>)

  function FixedPart(s: State, id: int): Fixed
    requires id in s.campaigns
  {
    var c := s.campaigns[id];
    Fixed(c.content, c.version, c.recipientCount, Map(To, DeliveriesOf(s, id)))
  }

  lemma {:induction false} CancelKeepsAddressees(rows: seq<Delivery>, id: int)
    ensures Map(To, Map(CancelDelivery(id), rows)) == Map(To, rows)
    decreases |rows|
  {
    if rows == [] {
    } else {
      CancelKeepsAddressees(rows[1..], id);
    }
  }

  ghost predicate KeepsFixed(s: State, s': State, id: int)
    requires id in s.campaigns
  {
    id in s'.campaigns && !s'.campaigns[id].status.Draft? && FixedPart(s', id) == FixedPart(s, id)
  }

  lemma StartKeepsFixed(s: State, other: int, confirmed: bool, clock: Time, now: Time, id: int)
    requires id in s.campaigns && !s.campaigns[id].status.Draft?
    ensures KeepsFixed(s, AfterStart(s, other, confirmed, clock, now), id)
  {
    if StartReply(s, other, confirmed) == Done {
      assert other != id;
      StartRows(s, other, confirmed, clock, now, id);
      assert DeliveriesOf(AfterStart(s, other, confirmed, clock, now), id) == DeliveriesOf(s, id);
    }
  }

  lemma CancelKeepsRows(s: State, other: int, now: Time, id: int)
    ensures Map(To, DeliveriesOf(AfterCancel(s, other, now), id)) == Map(To, DeliveriesOf(s, id))
  {
    if CancelReply(s, other) == Done {
      CancelRows(s.deliveries, other, id);
      CancelKeepsAddressees(DeliveriesOf(s, id), other);
    }
  }

  lemma CancelKeepsFixed(s: State, other: int, now: Time, id: int)
    requires id in s.campaigns && !s.campaigns[id].status.Draft?
    ensures KeepsFixed(s, AfterCancel(s, other, now), id)
  {
    CancelKeepsRows(s, other, now, id);
  }

  lemma WorkKeepsRows(s: State, i: nat, w: Work, now: Time, id: int)
    requires WorkEnabled(s, i, w, now)
    ensures Map(To, DeliveriesOf(AfterWork(s, i, w, now), id)) == Map(To, DeliveriesOf(s, id))
  {
    RowsOfSame(s.deliveries, i, DeliveryAfter(s.deliveries[i], w), id);
  }

  lemma WorkKeepsFixed(s: State, i: nat, w: Work, now: Time, id: int)
    requires id in s.campaigns && !s.campaigns[id].status.Draft?
    ensures KeepsFixed(s, AfterWork(s, i, w, now), id)
  {
    if WorkEnabled(s, i, w, now) {
      var own := s.outbox[i].campaign;
      var open := HasOpen(s.deliveries[i := DeliveryAfter(s.deliveries[i], w)], own);
      WorkKeepsRows(s, i, w, now, id);
      ProgressKeeps(s.campaigns[own], open, w, now);
    }
  }

  lemma CallKeepsFixed(s: State, call: Call, id: int)
    requires id in s.campaigns && !s.campaigns[id].status.Draft?
    ensures KeepsFixed(s, After(s, call), id)
  {
    match call
    case Create(other, cleaned) =>
    case Update(other, expected, cleaned) =>
    case UsersChange(users, newsletter) =>
    case Cancel(other, now) => CancelKeepsFixed(s, other, now, id);
    case Worker(i, w, now) => WorkKeepsFixed(s, i, w, now, id);
    case Start(other, confirmed, clock, now) => StartKeepsFixed(s, other, confirmed, clock, now, id);
  }

  /** Third part: once a campaign is no draft, no sequence of calls changes its content, its
      version, its count or its deliveries' recipients: deliveries are written at most once. */
  lemma {:induction false} StartedIsFixed(s: State, calls: seq<Call>, id: int)
    requires id in s.campaigns && !s.campaigns[id].status.Draft?
    ensures KeepsFixed(s, Run(s, calls), id)
    decreases |calls|
  {
    if calls == [] {
    } else {
      CallKeepsFixed(s, calls[0], id);
      StartedIsFixed(After(s, calls[0]), calls[1..], id);
    }
  }

  // ----- without workers -----

  /** Equal status and schedule, row by row. */
  predicate InStep(s: State) {
    && |s.outbox| == |s.deliveries|
    && (forall i | 0 <= i < |s.deliveries| ::
          s.deliveries[i].status == s.outbox[i].status && s.deliveries[i].scheduledAt == s.outbox[i].scheduledAt)
  }

  /** No pending row of the campaign in either table. */
  predicate Quiet(s: State, id: int) {
    && (forall d | d in s.deliveries && d.campaign == id :: !d.status.Pending?)
    && (forall o | o in s.outbox && o.campaign == id :: !o.status.Pending?)
  }

  predicate CancelledQuiet(s: State) {
    forall id | id in s.campaigns && s.campaigns[id].status.Cancelled? :: Quiet(s, id)
  }

  lemma CancelIsQuiet(s: State, id: int, now: Time, other: int)
    requires CancelReply(s, id) == Done && (other == id || Quiet(s, other))
    ensures Quiet(AfterCancel(s, id, now), other)
  {
    var s' := AfterCancel(s, id, now);
    forall d | d in s'.deliveries && d.campaign == other ensures !d.status.Pending? {
      var was := CancelledFrom(s.deliveries, id, d);
    }
    forall o | o in s'.outbox && o.campaign == other ensures !o.status.Pending? {
      var i :| 0 <= i < |s.outbox| && s'.outbox[i] == o;
      assert s.outbox[i] in s.outbox;
    }
  }

  lemma AdminCallEqual(s: State, call: Call)
    requires InStep(s) && OneToOne(s) && !call.Worker?
    ensures InStep(After(s, call))
  {
  }

  lemma AdminCallQuiet(s: State, call: Call)
    requires Inv(s) && CancelledQuiet(s) && !call.Worker?
    ensures CancelledQuiet(After(s, call))
  {
    var s' := After(s, call);
    forall other | other in s'.campaigns && s'.campaigns[other].status.Cancelled? ensures Quiet(s', other) {
      if call.Cancel? && CancelReply(s, call.id) == Done {
        CancelIsQuiet(s, call.id, call.now, other);
      } else if call.Start? {
        StartIsQuiet(s, call.id, call.confirmed, call.clock, call.now, other);
      } else {
        assert Quiet(s, other);
      }
    }
  }

  lemma StartIsQuiet(s: State, id: int, confirmed: bool, clock: Time, now: Time, other: int)
    requires CancelledQuiet(s)
    requires
      var s' := AfterStart(s, id, confirmed, clock, now);
      other in s'.campaigns && s'.campaigns[other].status.Cancelled?
    ensures Quiet(AfterStart(s, id, confirmed, clock, now), other)
  {
    assert Quiet(s, other);
  }

  lemma {:induction false} AdminCallsInStep(s: State, calls: seq<Call>)
    requires Inv(s) && InStep(s) && CancelledQuiet(s) && forall c | c in calls :: !c.Worker?
    ensures InStep(Run(s, calls)) && CancelledQuiet(Run(s, calls))
    decreases |calls|
  {
    if calls == [] {
    } else {
      assert calls[0] in calls;
      CallKeeps(s, calls[0]);
      AdminCallEqual(s, calls[0]);
      AdminCallQuiet(s, calls[0]);
      AdminCallsInStep(After(s, calls[0]), calls[1..]);
    }
  }

  /** Over every sequence of create, update, start and cancel calls deliveries and outbox rows
      keep equal status and schedule, and a cancelled campaign has no pending row. */
  lemma CallsKeepEqualRows(users: seq<User>, newsletter: set<int>, calls: seq<Call>)
    requires forall c | c in calls :: !c.Worker?
    ensures
      var s := Run(Empty(users, newsletter), calls);
      && InStep(s)
      && (forall id | id in s.campaigns && s.campaigns[id].status.Cancelled? :: Quiet(s, id))
  {
    AdminCallsInStep(Empty(users, newsletter), calls);
  }

  // ----- with workers: when a cancel is final -----

  /** The campaign is cancelled and no row of it can be taken any more. */
  predicate Dead(s: State, id: int) {
    && id in s.campaigns && s.campaigns[id].status.Cancelled?
    && (forall d | d in s.deliveries && d.campaign == id :: !d.status.Pending?)
    && (forall o | o in s.outbox && o.campaign == id :: !Open(o.status))
  }

  lemma DeadAfterStart(s: State, other: int, confirmed: bool, clock: Time, now: Time, id: int)
    requires Dead(s, id)
    ensures Dead(AfterStart(s, other, confirmed, clock, now), id)
  {
  }

  lemma DeadAfterCancel(s: State, other: int, now: Time, id: int)
    requires Dead(s, id)
    ensures Dead(AfterCancel(s, other, now), id)
  {
    if CancelReply(s, other) == Done {
      CancelIsQuiet(s, other, now, id);
      forall o | o in AfterCancel(s, other, now).outbox && o.campaign == id ensures !Open(o.status) {
        var i :| 0 <= i < |s.outbox| && Map(CancelOutbox(other), s.outbox)[i] == o;
        assert s.outbox[i] in s.outbox;
      }
    }
  }

  lemma DeadAfterWork(s: State, i: nat, w: Work, now: Time, id: int)
    requires Dead(s, id) && OneToOne(s)
    ensures Dead(AfterWork(s, i, w, now), id)
  {
    if WorkEnabled(s, i, w, now) {
      assert s.outbox[i] in s.outbox && Matches(s.deliveries[i], s.outbox[i]);
    }
  }

  lemma DeadStays(s: State, call: Call, id: int)
    requires Dead(s, id) && Inv(s)
    ensures Dead(After(s, call), id)
  {
    match call
    case Create(other, cleaned) =>
    case Update(other, expected, cleaned) =>
    case UsersChange(users, newsletter) =>
    case Start(other, confirmed, clock, now) => DeadAfterStart(s, other, confirmed, clock, now, id);
    case Cancel(other, now) => DeadAfterCancel(s, other, now, id);
    case Worker(i, w, now) => DeadAfterWork(s, i, w, now, id);
  }

  lemma {:induction false} DeadRuns(s: State, calls: seq<Call>, id: int)
    requires Dead(s, id) && Inv(s)
    ensures Quiet(Run(s, calls), id)
    decreases |calls|
  {
    if calls == [] {
    } else {
      DeadStays(s, calls[0], id);
      CallKeeps(s, calls[0]);
      DeadRuns(After(s, calls[0]), calls[1..], id);
    }
  }

  predicate NoneInWork(s: State, id: int) {
    forall o | o in s.outbox && o.campaign == id :: !o.status.InWork?
  }

  /** A worker that fails to send for now puts its row back in the queue, cancelled or not. */
  lemma HeldRowReturns(s: State, id: int, i: nat, now: Time)
    requires Inv(s) && i < |s.outbox| && s.outbox[i].campaign == id && s.outbox[i].status.InWork?
    ensures !Quiet(Run(s, [Worker(i, Retry(now), now)]), id)
  {
    assert Matches(s.deliveries[i], s.outbox[i]);
    var s' := AfterWork(s, i, Retry(now), now);
    assert Run(s, [Worker(i, Retry(now), now)]) == s';
    assert s'.outbox[i] in s'.outbox && s'.outbox[i].status.Pending? && s'.outbox[i].campaign == id;
  }

  lemma CancelKeepsWork(s: State, id: int, now: Time)
    requires CancelReply(s, id) == Done
    ensures NoneInWork(AfterCancel(s, id, now), id) <==> NoneInWork(s, id)
  {
    var s' := AfterCancel(s, id, now);
    forall i | 0 <= i < |s.outbox| ensures s'.outbox[i].campaign == s.outbox[i].campaign
      ensures s.outbox[i].campaign == id ==> (s'.outbox[i].status.InWork? <==> s.outbox[i].status.InWork?)
    {
    }
    if NoneInWork(s', id) {
      forall o | o in s.outbox && o.campaign == id ensures !o.status.InWork? {
        var i :| 0 <= i < |s.outbox| && s.outbox[i] == o;
        assert s'.outbox[i] in s'.outbox;
      }
    }
    if NoneInWork(s, id) {
      forall o | o in s'.outbox && o.campaign == id ensures !o.status.InWork? {
        var i :| 0 <= i < |s.outbox| && s'.outbox[i] == o;
        assert s.outbox[i] in s.outbox;
      }
    }
  }

  lemma FinalWithoutWork(s: State, calls: seq<Call>, id: int)
    requires Inv(s) && id in s.campaigns && s.campaigns[id].status.Cancelled? && Quiet(s, id) && NoneInWork(s, id)
    ensures Quiet(Run(s, calls), id)
  {
    assert Dead(s, id);
    DeadRuns(s, calls, id);
  }

  lemma NotFinalWithWork(s: State, id: int, now: Time)
    requires Inv(s) && !NoneInWork(s, id)
    ensures exists calls :: !Quiet(Run(s, calls), id)
  {
    var o :| o in s.outbox && o.campaign == id && o.status.InWork?;
    var i :| 0 <= i < |s.outbox| && s.outbox[i] == o;
    HeldRowReturns(s, id, i, now);
  }

  /** Main result, fourth part: a cancel leaves no pending row, and keeps it so for ever, whatever
      calls and workers follow, exactly when no worker held a row of it at the cancel. */
  lemma CancelIsFinalIff(s: State, id: int, now: Time)
    requires Inv(s) && CancelReply(s, id) == Done
    ensures Quiet(AfterCancel(s, id, now), id)
    ensures (forall calls :: Quiet(Run(AfterCancel(s, id, now), calls), id)) <==> NoneInWork(s, id)
  {
    var s' := AfterCancel(s, id, now);
    CancelIsQuiet(s, id, now, id);
    CancelKeeps(s, id, now);
    CancelKeepsWork(s, id, now);
    if NoneInWork(s, id) {
      forall calls ensures Quiet(Run(s', calls), id) {
        FinalWithoutWork(s', calls, id);
      }
    } else {
      NotFinalWithWork(s', id, now);
    }
  }
}
