/** What a lease call answers, in terms of the rows' own fields: which items it may choose from,
    and in which order. */
module LeaseOrder {
  import opened Basics
  import opened WorkStates
  import opened PoolState
  import opened Leasing

  /** Nothing stands in the way of calling the number now. */
  predicate AtHand(p: Pool, j: Id, w: World)
    requires Integrity(p)
  {
    && j in p.items && PhoneOf(p, j) !in p.suppressed && PhoneOf(p, j) !in w.busyPhones && j !in w.busyRows
    && CampaignOf(p, j) in p.campaigns && p.campaigns[CampaignOf(p, j)].status == Active
  }

  predicate DueAt(x: Item, now: int) {
    x.due.Some? && x.due.value <= now
  }

  predicate AssignedNow(s: Staffing, agent: Uuid, now: int) {
    s.agent == agent && s.calls && s.active && s.since <= now && (s.until.None? || now < s.until.value)
  }

  /** A due callback of the agent in a campaign they still call for. */
  predicate OwnCallback(p: Pool, j: Id, agent: Uuid, w: World)
    requires Integrity(p)
  {
    && AtHand(p, j, w) && p.items[j].state.CallbackWait? && p.items[j].keptBy == Some(agent) && DueAt(p.items[j], w.now)
    && CampaignOf(p, j) !in w.lost
    && exists k :: 0 <= k < |p.staffing| && AssignedNow(p.staffing[k], agent, w.now)
                   && p.staffing[k].campaign == CampaignOf(p, j)
  }

  /** A due retry of the campaign. */
  predicate SharedRetry(p: Pool, j: Id, m: Id, w: World)
    requires Integrity(p)
  {
    AtHand(p, j, w) && CampaignOf(p, j) == m && p.items[j].state.RetryWait? && DueAt(p.items[j], w.now)
  }

  predicate InQueue(p: Pool, j: Id, m: Id, w: World)
    requires Integrity(p)
  {
    AtHand(p, j, w) && CampaignOf(p, j) == m && p.items[j].state.Queued?
  }

  predicate PrimaryNow(p: Pool, agent: Uuid, now: int, k: int) {
    0 <= k < |p.staffing| && AssignedNow(p.staffing[k], agent, now) && p.staffing[k].primary
  }

  /** The campaign of a current primary assignment, none of which started later. */
  ghost predicate PrimaryCampaign(p: Pool, agent: Uuid, now: int, m: Id) {
    exists k :: && PrimaryNow(p, agent, now, k) && p.staffing[k].campaign == m
                && forall j :: PrimaryNow(p, agent, now, j) ==> p.staffing[j].since <= p.staffing[k].since
  }

  predicate NoPrimary(p: Pool, agent: Uuid, now: int) {
    forall k :: 0 <= k < |p.staffing| ==> !PrimaryNow(p, agent, now, k)
  }

  /** The agent's unexpired lease in an active campaign. */
  predicate OwnLease(p: Pool, i: Id, agent: Uuid, now: int)
    requires Integrity(p)
  {
    && i in p.items && p.items[i].state.Leased? && p.items[i].owner == Some(agent)
    && p.items[i].expires.Some? && now < p.items[i].expires.value
    && CampaignOf(p, i) in p.campaigns && p.campaigns[CampaignOf(p, i)].status == Active
  }

  // ------------------------------------------------------------ whether it leases

  /** A call resumes iff the agent has such a lease, and then shows that lease; otherwise the flag
      comes before the rate limit, and both before any choice. */
  lemma {:induction false} ResumedOrRefused(p: Pool, p': Pool, agent: Uuid, w: World, a: Answer)
    requires PoolOk(p) && Answers(p, p', agent, w, a)
    ensures a.Resumed? <==> exists i :: OwnLease(p, i, agent, w.now)
    ensures a.Resumed? ==>
              var g := a.grant;
              && OwnLease(p, g.item, agent, w.now) && p' == p && p.items[g.item].leaseId == Some(g.lease)
              && p.items[g.item].expires == Some(g.expires) && g.campaign == CampaignOf(p, g.item)
              && g.phone == PhoneOf(p, g.item)
    ensures a == Refused(PoolPaused) <==> !a.Resumed? && !w.poolOpen
    ensures a == Refused(TooFast) <==> !a.Resumed? && w.poolOpen && !w.underLimit
    ensures a == Refused(AlreadyLeased) ==> exists i :: LeasedTo(p, i, agent)
  {
    assert forall i :: Resumable(p, i, agent, w.now) <==> OwnLease(p, i, agent, w.now);
    if i :| Resumable(p, i, agent, w.now)
          && a == if PhoneOf(p, i) in p.suppressed then Refused(SuppressedLease) else Resumed(GrantOf(p, i)) {
      assert ItemOk(p.items[i]);
    }
  }

  // ------------------------------------------------------------- the free sets

  lemma {:induction false} FreeCallbacks(p: Pool, agent: Uuid, w: World, j: Id)
    requires Integrity(p)
    ensures j in FreeCandidates(p, agent, CallbackKind, 0, w) <==> OwnCallback(p, j, agent, w)
  {
  }

  lemma {:induction false} FreeInCampaign(p: Pool, agent: Uuid, m: Id, w: World, j: Id)
    requires Integrity(p)
    ensures j in FreeCandidates(p, agent, RetryKind, m, w) <==> SharedRetry(p, j, m, w)
    ensures j in FreeCandidates(p, agent, FreshKind, m, w) <==> InQueue(p, j, m, w)
  {
  }

  lemma {:induction false} PrimaryIs(p: Pool, agent: Uuid, now: int, primary: Option<Id>)
    requires IsPrimary(p, agent, now, primary)
    ensures if primary.None? then NoPrimary(p, agent, now) else PrimaryCampaign(p, agent, now, primary.value)
  {
    assert forall k :: PrimaryAt(p, agent, now, k) <==> PrimaryNow(p, agent, now, k);
  }

  // -------------------------------------------------------------------- the order

  /** What the granted item is, and that no other free item comes before it. */
  ghost predicate GrantedInOrder(p: Pool, agent: Uuid, w: World, g: Grant)
    requires Integrity(p)
  {
    && g.item in p.items
    && var x := p.items[g.item];
       match g.reason
       case ScheduledCallback =>
         && OwnCallback(p, g.item, agent, w)
         && forall j :: OwnCallback(p, j, agent, w) ==> x.due.value <= p.items[j].due.value
       case DelayedRetry =>
         && (forall j :: !OwnCallback(p, j, agent, w))
         && PrimaryCampaign(p, agent, w.now, g.campaign) && SharedRetry(p, g.item, g.campaign, w)
         && forall j :: SharedRetry(p, j, g.campaign, w) ==>
              && x.due.value <= p.items[j].due.value
              && (x.due == p.items[j].due ==> p.items[j].priority <= x.priority)
              && (x.due == p.items[j].due && x.priority == p.items[j].priority ==> x.created <= p.items[j].created)
       case Normal =>
         && (forall j :: !OwnCallback(p, j, agent, w))
         && PrimaryCampaign(p, agent, w.now, g.campaign) && InQueue(p, g.item, g.campaign, w)
         && (forall j :: !SharedRetry(p, j, g.campaign, w))
         && forall j :: InQueue(p, j, g.campaign, w) ==>
              && p.items[j].priority <= x.priority
              && (x.priority == p.items[j].priority ==> x.created <= p.items[j].created)
       case ImmediateRedial => false
  }

  /** A granted item is the agent's due callback that is due first; failing any, the first due
      retry of the primary campaign, ties going by priority and then age; failing any, its queued
      item of the highest priority, the oldest of these. It is then leased to the agent for one
      period, and nothing else changes. */
  lemma {:induction false} GrantGoesInOrder(p: Pool, p': Pool, agent: Uuid, w: World, g: Grant)
    requires Integrity(p) && ItemsOk(p) && Answers(p, p', agent, w, Granted(g))
    ensures GrantedInOrder(p, agent, w, g)
    ensures g.campaign == CampaignOf(p, g.item) && g.phone == PhoneOf(p, g.item)
    ensures g.lease == p.nextId && g.expires == w.now + LEASE_SECONDS && forall i :: !LeasedTo(p, i, agent)
    ensures p' == p.(nextId := p.nextId + 1, items := p.items[g.item := p.items[g.item].(state := Leased,
                     owner := Some(agent), leaseId := Some(g.lease), expires := Some(g.expires),
                     reason := Some(g.reason))])
  {
    var o :| Chosen(p, agent, w, o) && Outcome(p, p', agent, w.now, o, Granted(g));
    ChosenInOrder(p, agent, w, o.value, g);
  }

  lemma {:induction false} ChosenInOrder(p: Pool, agent: Uuid, w: World, c: Choice, g: Grant)
    requires Integrity(p) && Chosen(p, agent, w, Some(c))
    requires g.item == c.item && g.reason == ReasonFor(c.kind)
    requires c.item in p.items && g.campaign == CampaignOf(p, c.item)
    ensures GrantedInOrder(p, agent, w, g)
  {
    forall j ensures j in FreeCandidates(p, agent, CallbackKind, 0, w) <==> OwnCallback(p, j, agent, w) {
      FreeCallbacks(p, agent, w, j);
    }
    if !c.kind.CallbackKind? {
      var primary :| IsPrimary(p, agent, w.now, primary) && ChosenShared(p, agent, w, primary, Some(c));
      PrimaryIs(p, agent, w.now, primary);
      var m := primary.value;
      forall j
        ensures j in FreeCandidates(p, agent, RetryKind, m, w) <==> SharedRetry(p, j, m, w)
        ensures j in FreeCandidates(p, agent, FreshKind, m, w) <==> InQueue(p, j, m, w)
      {
        FreeInCampaign(p, agent, m, w, j);
      }
    }
  }

  /** The call finds no work only when there is none: no due callback of the agent is free, and
      they have no current primary campaign, or a latest one that does not run or in which neither
      a due retry nor a queued item is free. */
  lemma {:induction false} NoWorkMeansNone(p: Pool, p': Pool, agent: Uuid, w: World)
    requires Integrity(p) && ItemsOk(p) && Answers(p, p', agent, w, NoWork)
    ensures p' == p && forall j :: !OwnCallback(p, j, agent, w)
    ensures NoPrimary(p, agent, w.now)
            || exists m :: && PrimaryCampaign(p, agent, w.now, m)
                           && forall j :: !SharedRetry(p, j, m, w) && !InQueue(p, j, m, w)
  {
    var o :| Chosen(p, agent, w, o) && Outcome(p, p', agent, w.now, o, NoWork);
    forall j ensures !OwnCallback(p, j, agent, w) {
      FreeCallbacks(p, agent, w, j);
    }
    var primary :| IsPrimary(p, agent, w.now, primary) && ChosenShared(p, agent, w, primary, None);
    PrimaryIs(p, agent, w.now, primary);
    if primary.Some? {
      forall j ensures !SharedRetry(p, j, primary.value, w) && !InQueue(p, j, primary.value, w) {
        FreeInCampaign(p, agent, primary.value, w, j);
      }
    }
  }
}
