/** Leasing: resume the agent's own lease, else take the best free item, first among their
    due callbacks, then among due retries and then fresh items of their primary campaign. */
module Leasing {
  import opened Basics
  import opened WorkStates
  import opened PoolState
  import opened WorkRules
  import opened WorkInvariant

  datatype Kind = CallbackKind | RetryKind | FreshKind

  datatype LeaseError = PoolPaused | TooFast | AlreadyLeased | SuppressedLease

  datatype Grant = Grant(item: Id, lease: Id, expires: int, campaign: Id, phone: Phone, reason: Reason)

  datatype Answer = Resumed(grant: Grant) | Granted(grant: Grant) | NoWork | Refused(error: LeaseError)

  /** What the call meets: the clock, the flag and the rate limit, phones and rows that other
      transactions have locked, and campaigns whose assignment of the agent ends before it is
      re-read. */
  datatype World = World(
    now: int, poolOpen: bool, underLimit: bool, busyPhones: set<Phone>, busyRows: set<Id>, lost: set<Id>)

  predicate Current(s: Staffing, agent: Uuid, now: int) {
    s.agent == agent && s.calls && s.active && s.since <= now && (s.until.None? || s.until.value > now)
  }

  predicate Staffed(p: Pool, agent: Uuid, campaign: Id, now: int) {
    exists k :: 0 <= k < |p.staffing| && Current(p.staffing[k], agent, now) && p.staffing[k].campaign == campaign
  }

  predicate PrimaryAt(p: Pool, agent: Uuid, now: int, k: int) {
    0 <= k < |p.staffing| && Current(p.staffing[k], agent, now) && p.staffing[k].primary
  }

  /** The campaign of a current primary assignment with the latest start, if there is one. */
  ghost predicate IsPrimary(p: Pool, agent: Uuid, now: int, campaign: Option<Id>) {
    if campaign.None? then forall k :: !PrimaryAt(p, agent, now, k)
    else
      exists k :: PrimaryAt(p, agent, now, k) && p.staffing[k].campaign == campaign.value
        && forall j :: PrimaryAt(p, agent, now, j) ==> p.staffing[j].since <= p.staffing[k].since
  }

  predicate Running(p: Pool, campaign: Id) {
    campaign in p.campaigns && p.campaigns[campaign].status == Active
  }

  predicate IsDue(x: Item, now: int) {
    x.due.Some? && x.due.value <= now
  }

  /** The row still matches the query that found it. */
  predicate StillWaiting(x: Item, agent: Uuid, kind: Kind, now: int) {
    match kind
    case CallbackKind => x.state.CallbackWait? && x.keptBy == Some(agent) && IsDue(x, now)
    case RetryKind => x.state.RetryWait? && IsDue(x, now)
    case FreshKind => x.state.Queued?
  }

  /** A candidate of the query: retries and fresh items are looked for in one campaign. */
  predicate Candidate(p: Pool, i: Id, agent: Uuid, kind: Kind, campaign: Id, now: int)
    requires Integrity(p)
  {
    && i in p.items && StillWaiting(p.items[i], agent, kind, now)
    && (if kind.CallbackKind? then Running(p, CampaignOf(p, i)) && Staffed(p, agent, CampaignOf(p, i), now)
        else CampaignOf(p, i) == campaign)
    && PhoneOf(p, i) !in p.suppressed
  }

  function Candidates(p: Pool, agent: Uuid, kind: Kind, campaign: Id, now: int): set<Id>
    requires Integrity(p)
  {
    set i | i in p.items && Candidate(p, i, agent, kind, campaign, now)
  }

  /** Nothing other transactions hold stands in the way of leasing the item now. */
  predicate Free(p: Pool, i: Id, kind: Kind, w: World)
    requires Integrity(p) && i in p.items
  {
    && PhoneOf(p, i) !in w.busyPhones && i !in w.busyRows && Running(p, CampaignOf(p, i))
    && !(kind.CallbackKind? && CampaignOf(p, i) in w.lost)
  }

  function FreeCandidates(p: Pool, agent: Uuid, kind: Kind, campaign: Id, w: World): set<Id>
    requires Integrity(p)
  {
    set i | i in Candidates(p, agent, kind, campaign, w.now) && Free(p, i, kind, w)
  }

  /** Callbacks by due time; retries by due time, then priority, then age; fresh items by
      priority, then age. */
  predicate NoLater(kind: Kind, x: Item, y: Item) {
    var byAge := x.priority > y.priority || (x.priority == y.priority && x.created <= y.created);
    if kind.FreshKind? then byAge
    else
      && x.due.Some? && y.due.Some?
      && (x.due.value < y.due.value || (x.due.value == y.due.value && (kind.CallbackKind? || byAge)))
  }

  ghost predicate Best(items: map<Id, Item>, s: set<Id>, kind: Kind, i: Id) {
    && i in s && i in items
    && forall j :: j in s && j in items ==> NoLater(kind, items[i], items[j])
  }

  datatype Choice = Choice(item: Id, kind: Kind)

  /** The item an unresumed call should lease: a free callback of the agent before anything
      else, then a free due retry, then a free fresh item, each the best of its kind. */
  ghost predicate Chosen(p: Pool, agent: Uuid, w: World, c: Option<Choice>)
    requires Integrity(p)
  {
    var callbacks := FreeCandidates(p, agent, CallbackKind, 0, w);
    if callbacks != {} then c.Some? && c.value.kind == CallbackKind
        && Best(p.items, callbacks, CallbackKind, c.value.item)
    else exists primary :: IsPrimary(p, agent, w.now, primary) && ChosenShared(p, agent, w, primary, c)
  }

  ghost predicate ChosenShared(p: Pool, agent: Uuid, w: World, primary: Option<Id>, c: Option<Choice>)
    requires Integrity(p)
  {
    if primary.None? || !Running(p, primary.value) then c.None?
    else
      var retries, queued := FreeCandidates(p, agent, RetryKind, primary.value, w),
          FreeCandidates(p, agent, FreshKind, primary.value, w);
      if retries != {} then c.Some? && c.value.kind == RetryKind && Best(p.items, retries, RetryKind, c.value.item)
      else if queued != {} then c.Some? && c.value.kind == FreshKind && Best(p.items, queued, FreshKind, c.value.item)
      else c.None?
  }

  function ReasonFor(kind: Kind): Reason {
    match kind case CallbackKind => ScheduledCallback case RetryKind => DelayedRetry case FreshKind => Normal
  }

  function Taken(x: Item, agent: Uuid, lease: Id, reason: Reason, now: int): Item {
    x.(state := Leased, owner := Some(agent), leaseId := Some(lease), expires := Some(now + LEASE_SECONDS),
        reason := Some(reason))
  }

  function Lease(p: Pool, c: Choice, agent: Uuid, now: int): Pool
    requires c.item in p.items
  {
    WithItem(p, c.item, Taken(p.items[c.item], agent, p.nextId, ReasonFor(c.kind), now)).(nextId := p.nextId + 1)
  }

  /** An unexpired lease of the agent in a running campaign. */
  predicate Resumable(p: Pool, i: Id, agent: Uuid, now: int)
    requires Integrity(p)
  {
    && i in p.items && p.items[i].state.Leased? && p.items[i].owner == Some(agent)
    && p.items[i].expires.Some? && p.items[i].expires.value > now && Running(p, CampaignOf(p, i))
  }

  function GrantOf(p: Pool, i: Id): Grant
    requires Integrity(p) && i in p.items && p.items[i].leaseId.Some? && p.items[i].expires.Some?
  {
    var x := p.items[i];
    Grant(i, x.leaseId.value, x.expires.value, CampaignOf(p, i), PhoneOf(p, i), if x.reason.Some? then x.reason.value
        else Normal)
  }

  /** The unique index on live leases: one row per owner, expired or not. */
  ghost predicate HasLease(p: Pool, agent: Uuid) {
    exists i :: LeasedTo(p, i, agent)
  }

  /** What a call may answer, and the database it leaves. */
  ghost predicate Answers(p: Pool, p': Pool, agent: Uuid, w: World, r: Answer)
    requires Integrity(p) && ItemsOk(p)
  {
    if exists i :: Resumable(p, i, agent, w.now) then
      && p' == p
      && (exists i :: Resumable(p, i, agent, w.now)
            && r == if PhoneOf(p, i) in p.suppressed then Refused(SuppressedLease) else Resumed(GrantOf(p, i)))
    else if !w.poolOpen then p' == p && r == Refused(PoolPaused)
    else if !w.underLimit then p' == p && r == Refused(TooFast)
    else exists c :: Chosen(p, agent, w, c) && Outcome(p, p', agent, w.now, c, r)
  }

  ghost predicate Outcome(p: Pool, p': Pool, agent: Uuid, now: int, c: Option<Choice>, r: Answer)
    requires Integrity(p)
  {
    if c.None? then p' == p && r == NoWork
    else if HasLease(p, agent) then p' == p && r == Refused(AlreadyLeased)
    else
      && c.value.item in p.items && p' == Lease(p, c.value, agent, now)
      && r == Granted(Grant(c.value.item, p.nextId, now + LEASE_SECONDS, CampaignOf(p, c.value.item),
          PhoneOf(p, c.value.item), ReasonFor(c.value.kind)))
  }

  // ------------------------------------------------------------------- the code

  /** The first row of an ordered query. */
  method FirstOf(items: map<Id, Item>, s: set<Id>, kind: Kind) returns (r: Option<Id>)
    requires forall i :: i in s ==> i in items && (kind.FreshKind? || items[i].due.Some?)
    ensures r.None? <==> s == {}
    ensures r.Some? ==> Best(items, s, kind, r.value)
  {
    var todo := s;
    r := None;
    while todo != {}
      invariant todo <= s && (r.None? <==> todo == s)
      invariant r.Some? ==> Best(items, s - todo, kind, r.value)
      decreases todo
    {
      var i :| i in todo;
      if r.None? || !NoLater(kind, items[r.value], items[i]) {
        r := Some(i);
      }
      todo := todo - {i};
    }
    assert s - todo == s;
  }

  /** Try the phone, lock the row if it is free and still waiting, and check the campaign and
      the suppression once more; a suppressed number's item is closed on the spot. */
  method LockLeaseCandidate(db: Database, i: Id, agent: Uuid, kind: Kind, w: World) returns (locked: bool)
    requires Integrity(db.Contents()) && i in db.items
    modifies db`items, db`contacts
    ensures var was := old(db.Contents());
            var ready := PhoneOf(was, i) !in w.busyPhones && i !in w.busyRows
                         && StillWaiting(was.items[i], agent, kind, w.now) && Running(was, CampaignOf(was, i));
            && (locked <==> ready && PhoneOf(was, i) !in was.suppressed)
            && db.Contents() == if ready && !locked then SuppressedOnSight(was, i, w.now) else was
  {
    var item := db.items[i];
    var contact := db.contacts[item.contact];
    if contact.phone in w.busyPhones {
      return false;
    }
    if !StillWaiting(item, agent, kind, w.now) || i in w.busyRows {
      return false;
    }
    if db.campaigns[contact.campaign].status != Active {
      return false;
    }
    if contact.phone in db.suppressed {
      db.items := db.items[i := item.(state := Suppressed, completedAt := Some(w.now))];
      db.contacts := db.contacts[item.contact :=
        contact.(status := Blocked, completedAt := Some(w.now), finalCode := Some(DNC_CODE))];
      return false;
    }
    locked := true;
  }

  function SuppressedOnSight(p: Pool, i: Id, now: int): Pool
    requires Integrity(p) && i in p.items
  {
    var x := p.items[i];
    p.(items := p.items[i := x.(state := Suppressed, completedAt := Some(now))],
       contacts := p.contacts[x.contact := p.contacts[x.contact].(status := Blocked, completedAt := Some(now),
           finalCode := Some(DNC_CODE))])
  }

  /** The query repeated with a growing set of skipped items until a candidate can be locked. */
  method PickFree(db: Database, agent: Uuid, kind: Kind, campaign: Id, w: World) returns (picked: Option<Id>)
    requires Integrity(db.Contents())
    modifies db`items, db`contacts
    ensures db.Contents() == old(db.Contents())
    ensures var free := FreeCandidates(db.Contents(), agent, kind, campaign, w);
            && (picked.None? <==> free == {})
            && (picked.Some? ==> Best(db.items, free, kind, picked.value))
  {
    var p := db.Contents();
    var candidates := Candidates(p, agent, kind, campaign, w.now);
    var skipped: set<Id> := {};
    while true
      invariant db.Contents() == p
      invariant skipped <= candidates && skipped !! FreeCandidates(p, agent, kind, campaign, w)
      decreases candidates - skipped
    {
      var candidate := FirstOf(db.items, candidates - skipped, kind);
      if candidate.None? {
        return None;
      }
      var i := candidate.value;
      if !(kind.CallbackKind? && db.contacts[db.items[i].contact].campaign in w.lost) {
        var locked := LockLeaseCandidate(db, i, agent, kind, w);
        if locked {
          return Some(i);
        }
      }
      skipped := skipped + {i};
    }
  }

  /** The current primary assignment that started last. */
  method ActivePrimary(db: Database, agent: Uuid, now: int) returns (campaign: Option<Id>)
    ensures IsPrimary(db.Contents(), agent, now, campaign)
  {
    ghost var p := db.Contents();
    var best := -1;
    var k := 0;
    while k < |db.staffing|
      invariant 0 <= k <= |db.staffing|
      invariant best == -1 ==> forall j :: j < k ==> !PrimaryAt(p, agent, now, j)
      invariant best != -1 ==> PrimaryAt(p, agent, now, best)
                               && forall j :: j < k && PrimaryAt(p, agent, now, j) ==>
                                   p.staffing[j].since <= p.staffing[best].since
    {
      var s := db.staffing[k];
      if Current(s, agent, now) && s.primary && (best == -1 || s.since > db.staffing[best].since) {
        best := k;
      }
      k := k + 1;
    }
    if best == -1 {
      return None;
    }
    campaign := Some(db.staffing[best].campaign);
  }

  method Choose(db: Database, agent: Uuid, w: World) returns (c: Option<Choice>)
    requires Integrity(db.Contents())
    modifies db`items, db`contacts
    ensures db.Contents() == old(db.Contents())
    ensures Chosen(db.Contents(), agent, w, c)
    ensures c.Some? ==> c.value.item in db.items
  {
    var picked := PickFree(db, agent, CallbackKind, 0, w);
    if picked.Some? {
      return Some(Choice(picked.value, CallbackKind));
    }
    var primary := ActivePrimary(db, agent, w.now);
    if primary.None? || !(primary.value in db.campaigns && db.campaigns[primary.value].status == Active) {
      assert ChosenShared(db.Contents(), agent, w, primary, None);
      return None;
    }
    picked := PickFree(db, agent, RetryKind, primary.value, w);
    if picked.Some? {
      c := Some(Choice(picked.value, RetryKind));
    } else {
      picked := PickFree(db, agent, FreshKind, primary.value, w);
      c := if picked.None? then None else Some(Choice(picked.value, FreshKind));
    }
    assert ChosenShared(db.Contents(), agent, w, primary, c);
  }

  method LeaseNext(db: Database, agent: Uuid, w: World) returns (r: Answer)
    requires Integrity(db.Contents()) && ItemsOk(db.Contents())
    modifies db
    ensures Answers(old(db.Contents()), db.Contents(), agent, w, r)
  {
    var p := db.Contents();
    var held := set i | i in db.items && Resumable(p, i, agent, w.now);
    if held != {} {
      var i :| i in held;
      assert ItemOk(p.items[i]);
      if db.contacts[db.items[i].contact].phone in db.suppressed {
        return Refused(SuppressedLease);
      }
      return Resumed(GrantOf(p, i));
    }
    assert forall i :: Resumable(p, i, agent, w.now) ==> i in held;
    if !w.poolOpen {
      return Refused(PoolPaused);
    }
    if !w.underLimit {
      return Refused(TooFast);
    }
    var c := Choose(db, agent, w);
    if c.None? {
      return NoWork;
    }
    r := TakeChosen(db, c.value, agent, w.now);
  }

  /** The final write; the unique index rejects a second live lease of the agent. */
  method TakeChosen(db: Database, c: Choice, agent: Uuid, now: int) returns (r: Answer)
    requires Integrity(db.Contents()) && c.item in db.items
    modifies db`items, db`nextId
    ensures Outcome(old(db.Contents()), db.Contents(), agent, now, Some(c), r)
  {
    var p := db.Contents();
    if exists i :: i in db.items && db.items[i].state.Leased? && db.items[i].owner == Some(agent) {
      ghost var i :| i in db.items && db.items[i].state.Leased? && db.items[i].owner == Some(agent);
      assert LeasedTo(p, i, agent);
      return Refused(AlreadyLeased);
    }
    var lease := db.nextId;
    db.nextId := db.nextId + 1;
    var item := db.items[c.item];
    item := item.(state := Leased, owner := Some(agent), leaseId := Some(lease),
                  expires := Some(now + LEASE_SECONDS), reason := Some(ReasonFor(c.kind)));
    db.items := db.items[c.item := item];
    var contact := db.contacts[item.contact];
    r := Granted(Grant(c.item, lease, now + LEASE_SECONDS, contact.campaign, contact.phone, ReasonFor(c.kind)));
  }

  // ------------------------------------------------------------------- the proof

  /** Whatever is chosen is an open item of a running campaign, of a number nobody suppressed. */
  lemma {:induction false} ChosenIsOpen(p: Pool, agent: Uuid, w: World, c: Choice)
    requires Integrity(p) && Chosen(p, agent, w, Some(c))
    ensures c.item in p.items && (p.items[c.item].state.CallbackWait? || p.items[c.item].state.RetryWait?
        || p.items[c.item].state.Queued?)
    ensures Running(p, CampaignOf(p, c.item)) && PhoneOf(p, c.item) !in p.suppressed
  {
  }

  lemma {:induction false} LeaseKeeps(p: Pool, p': Pool, agent: Uuid, w: World, r: Answer)
    requires PoolOk(p) && Answers(p, p', agent, w, r)
    ensures PoolOk(p') && Follows(p, p')
  {
    if p' == p {
      FollowsItself(p);
    } else {
      var c :| Chosen(p, agent, w, c) && Outcome(p, p', agent, w.now, c, r);
      ChosenIsOpen(p, agent, w, c.value);
      TakingKeeps(p, p', agent, c.value, w.now);
    }
  }

  lemma {:induction false} TakingKeeps(p: Pool, p': Pool, agent: Uuid, c: Choice, now: int)
    requires PoolOk(p) && c.item in p.items && !Terminal(p.items[c.item].state) && Launched(p, CampaignOf(p, c.item))
    requires !HasLease(p, agent) && p' == Lease(p, c, agent, now)
    ensures PoolOk(p') && Follows(p, p')
  {
    ItemLeased(p, p', c.item, agent);
  }
}
