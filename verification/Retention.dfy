/** Completion of a campaign, the retention countdown, and deleting its contact data. */
module Retention {
  import opened Basics
  import opened WorkStates
  import opened PoolState
  import opened WorkInvariant

  const DAY := 24 * 60 * 60
  const RETENTION_DAYS := 60

  function ContactsIn(p: Pool, campaign: Id): set<Id> {
    set c | c in p.contacts && p.contacts[c].campaign == campaign
  }

  function Outstanding(p: Pool, campaign: Id): set<Id> {
    set c | c in ContactsIn(p, campaign) && p.contacts[c].completedAt.None?
  }

  /** Active, with at least one contact and none outstanding. */
  predicate IsComplete(p: Pool, campaign: Id) {
    && campaign in p.campaigns && p.campaigns[campaign].status == Active
    && |ContactsIn(p, campaign)| != 0 && |Outstanding(p, campaign)| == 0
  }

  function MarkedCampaign(c: Campaign, now: int): Campaign {
    c.(status := Finished, completedAt := Some(now), deleteAfter := Some(now + RETENTION_DAYS * DAY))
  }

  function CompleteCampaigns(p: Pool): set<Id> {
    set c | c in p.campaigns && IsComplete(p, c)
  }

  function MarkedAll(campaigns: map<Id, Campaign>, chosen: set<Id>, now: int): map<Id, Campaign> {
    map c | c in campaigns :: if c in chosen then MarkedCampaign(campaigns[c], now) else campaigns[c]
  }

  // -------------------------------------------------------------------- deletion

  /** The campaign of a row that hangs off a work item. */
  predicate ItemGone(p: Pool, i: Id, gone: set<Id>) {
    i in p.items && p.items[i].contact in p.contacts && p.contacts[p.items[i].contact].campaign in gone
  }

  ghost predicate Names(p: Pool, c: Id, phone: Phone) {
    c in p.contacts && p.contacts[c].phone == phone
  }

  /** Some campaign contact names the number, and all that do belong to these campaigns. */
  ghost predicate OnlyIn(p: Pool, phone: Phone, gone: set<Id>) {
    && (exists c :: Names(p, c, phone))
    && (forall c :: Names(p, c, phone) ==> p.contacts[c].campaign in gone)
  }

  /** Numbers only the deleted campaigns referred to. */
  ghost function Orphans(p: Pool, gone: set<Id>): set<Phone> {
    set n | n in p.people && OnlyIn(p, n, gone)
  }

  function ClearedAll(campaigns: map<Id, Campaign>, gone: set<Id>): map<Id, Campaign> {
    map c | c in campaigns :: if c in gone then campaigns[c].(deleteAfter := None) else campaigns[c]
  }

  function AttemptsLeft(p: Pool, gone: set<Id>): map<Id, Attempt> {
    map a | a in p.attempts && !ItemGone(p, p.attempts[a].item, gone) :: p.attempts[a]
  }

  function ItemsLeft(p: Pool, gone: set<Id>): map<Id, Item> {
    map i | i in p.items && !ItemGone(p, i, gone) :: p.items[i]
  }

  function ContactsLeft(p: Pool, gone: set<Id>): map<Id, CampaignContact> {
    map c | c in p.contacts && p.contacts[c].campaign !in gone :: p.contacts[c]
  }

  /** What remains when the data of some campaigns is deleted: their attempts, items, contacts,
      and the numbers nobody else refers to are gone; nothing else is touched. */
  ghost function Without(p: Pool, gone: set<Id>): Pool {
    p.(attempts := AttemptsLeft(p, gone), items := ItemsLeft(p, gone), contacts := ContactsLeft(p, gone),
       people := p.people - Orphans(p, gone), campaigns := ClearedAll(p.campaigns, gone))
  }

  datatype Deleted = Deleted(contacts: nat, people: nat)

  /** The deletes in their order, each statement seeing the ones before it. */
  method DeleteCompletedCampaignData(db: Database, campaign: Id) returns (r: Option<Deleted>)
    requires Integrity(db.Contents()) && UniqueKeys(db.Contents()) && campaign in db.campaigns
    modifies db
    ensures old(db.campaigns[campaign].status) != Finished ==> r.None? && db.Contents() == old(db.Contents())
    ensures old(db.campaigns[campaign].status) == Finished ==>
              && db.Contents() == Without(old(db.Contents()), {campaign})
              && r == Some(Deleted(|ContactsIn(old(db.Contents()), campaign)|,
                  |Orphans(old(db.Contents()), {campaign})|))
  {
    if db.campaigns[campaign].status != Finished {
      return None;
    }
    ghost var p := db.Contents();
    var mine := ContactsIn(db.Contents(), campaign);
    var phones := set c | c in mine :: db.contacts[c].phone;
    DeleteRows(db, campaign, mine);
    var orphaned := set n | n in phones && n in db.people && Unnamed(db.contacts, n);
    OrphansAre(p, campaign, db.contacts, orphaned);
    db.people := db.people - orphaned;
    db.campaigns := db.campaigns[campaign := db.campaigns[campaign].(deleteAfter := None)];
    CampaignCleared(p.campaigns, campaign);
    PhonesOfCampaign(p, campaign);
    r := Some(Deleted(|phones|, |orphaned|));
  }

  predicate Unnamed(contacts: map<Id, CampaignContact>, phone: Phone) {
    forall c :: c in contacts ==> contacts[c].phone != phone
  }

  /** Attempts before items before contacts, so that no row refers to a deleted one. */
  method DeleteRows(db: Database, campaign: Id, mine: set<Id>)
    requires Integrity(db.Contents()) && mine == ContactsIn(db.Contents(), campaign)
    modifies db`attempts, db`items, db`contacts
    ensures var left := Without(old(db.Contents()), {campaign});
            db.attempts == left.attempts && db.items == left.items && db.contacts == left.contacts
  {
    MineAreGone(db.Contents(), campaign, mine);
    db.attempts := AttemptsOutside(db.attempts, db.items, mine);
    db.items := ItemsOutside(db.items, mine);
    db.contacts := ContactsOutside(db.contacts, mine);
  }

  function AttemptsOutside(attempts: map<Id, Attempt>, items: map<Id, Item>, mine: set<Id>): map<Id, Attempt>
    requires forall a :: a in attempts ==> attempts[a].item in items
  {
    map a | a in attempts && items[attempts[a].item].contact !in mine :: attempts[a]
  }

  function ItemsOutside(items: map<Id, Item>, mine: set<Id>): map<Id, Item> {
    map i | i in items && items[i].contact !in mine :: items[i]
  }

  function ContactsOutside(contacts: map<Id, CampaignContact>, mine: set<Id>): map<Id, CampaignContact> {
    map c | c in contacts && c !in mine :: contacts[c]
  }

  lemma {:induction false} MineAreGone(p: Pool, campaign: Id, mine: set<Id>)
    requires Integrity(p) && mine == ContactsIn(p, campaign)
    ensures var left := Without(p, {campaign});
            && left.attempts == AttemptsOutside(p.attempts, p.items, mine)
            && left.items == ItemsOutside(p.items, mine) && left.contacts == ContactsOutside(p.contacts, mine)
  {
    assert forall i :: i in p.items ==> (ItemGone(p, i, {campaign}) <==> p.items[i].contact in mine);
  }

  lemma {:induction false} CampaignCleared(campaigns: map<Id, Campaign>, campaign: Id)
    requires campaign in campaigns
    ensures campaigns[campaign := campaigns[campaign].(deleteAfter := None)] == ClearedAll(campaigns, {campaign})
  {
  }

  lemma {:induction false} OrphansAre(p: Pool, campaign: Id, rest: map<Id, CampaignContact>, orphaned: set<Phone>)
    requires rest == Without(p, {campaign}).contacts
    requires orphaned == set n | n in (set c | c in ContactsIn(p, campaign) :: p.contacts[c].phone) && n in p.people
        && Unnamed(rest, n)
    ensures orphaned == Orphans(p, {campaign})
  {
    var phones := set c | c in ContactsIn(p, campaign) :: p.contacts[c].phone;
    forall n | n in p.people ensures n in orphaned <==> OnlyIn(p, n, {campaign}) {
      if n in orphaned {
        var c :| c in ContactsIn(p, campaign) && p.contacts[c].phone == n;
        assert Names(p, c, n);
        assert forall d :: Names(p, d, n) && p.contacts[d].campaign != campaign ==> d in rest;
      }
      if OnlyIn(p, n, {campaign}) {
        var c :| Names(p, c, n);
        assert c in ContactsIn(p, campaign) && n in phones;
        assert forall d :: d in rest ==> !(Names(p, d, n));
      }
    }
  }

  /** A campaign has one contact per number, so the numbers are as many as the contacts. */
  lemma {:induction false} PhonesOfCampaign(p: Pool, campaign: Id)
    requires UniqueKeys(p)
    ensures |set c | c in ContactsIn(p, campaign) :: p.contacts[c].phone| == |ContactsIn(p, campaign)|
  {
    DistinctImages(p, campaign, ContactsIn(p, campaign));
  }

  lemma {:induction false} DistinctImages(p: Pool, campaign: Id, s: set<Id>)
    requires UniqueKeys(p) && s <= ContactsIn(p, campaign)
    ensures |set c | c in s :: p.contacts[c].phone| == |s|
    decreases |s|
  {
    if s != {} {
      var c :| c in s;
      var rest := s - {c};
      DistinctImages(p, campaign, rest);
      var phone := p.contacts[c].phone;
      assert ContactFor(p, c, campaign, phone);
      assert forall d :: d in rest ==> ContactFor(p, d, campaign, p.contacts[d].phone);
      assert phone !in (set d | d in rest :: p.contacts[d].phone);
      assert (set d | d in s :: p.contacts[d].phone) == (set d | d in rest :: p.contacts[d].phone) + {phone};
    }
  }

  // ------------------------------------------------------------------- detection

  /** Every active campaign that has become fully worked is marked once. */
  method DetectCompletedCampaigns(db: Database, now: int) returns (marked: nat)
    modifies db`campaigns
    ensures var chosen := CompleteCampaigns(old(db.Contents()));
            marked == |chosen| && db.campaigns == MarkedAll(old(db.campaigns), chosen, now)
    ensures CompleteCampaigns(db.Contents()) == {}
  {
    ghost var p := db.Contents();
    CompleteAreActive(p);
    marked := MarkEach(db, ActiveCampaigns(db.campaigns), CompleteCampaigns(p), now);
    NoneLeft(p, db.Contents(), now);
  }

  /** These are the complete campaigns. */
  ghost predicate Judged(p: Pool, complete: set<Id>) {
    forall c {:trigger IsComplete(p, c)} :: IsComplete(p, c) <==> c in complete
  }

  method MarkEach(db: Database, active: set<Id>, ghost complete: set<Id>, now: int) returns (marked: nat)
    requires complete <= active <= db.campaigns.Keys && Judged(db.Contents(), complete)
    modifies db`campaigns
    ensures marked == |complete| && db.campaigns == MarkedAll(old(db.campaigns), complete, now)
  {
    ghost var p := db.Contents();
    var todo := active;
    ghost var hit: set<Id> := {};
    marked := 0;
    while todo != {}
      invariant todo <= active && hit !! todo && hit <= complete && complete - hit <= todo && marked == |hit|
      invariant db.campaigns == MarkedAll(p.campaigns, hit, now)
    {
      var c :| c in todo;
      OneMoreMarked(p.campaigns, hit, c, now);
      var done := MarkIfComplete(db, c, p, complete, now);
      if done {
        marked := marked + 1;
        hit := hit + {c};
      }
      todo := todo - {c};
    }
    assert hit == complete;
  }

  method MarkIfComplete(db: Database, c: Id, ghost p: Pool, ghost complete: set<Id>, now: int) returns (done: bool)
    requires c in p.campaigns && c in db.campaigns && db.campaigns[c] == p.campaigns[c] && db.contacts == p.contacts
    requires Judged(p, complete)
    modifies db`campaigns
    ensures done <==> c in complete
    ensures db.campaigns ==
            if done then old(db.campaigns)[c := MarkedCampaign(p.campaigns[c], now)] else old(db.campaigns)
  {
    SameAnswer(p, db.Contents(), c);
    done := IsComplete(db.Contents(), c);
    if done {
      MarkCampaignCompleted(db, c, now);
    }
  }

  /** Into the completed state, with the countdown started. */
  method MarkCampaignCompleted(db: Database, c: Id, now: int)
    requires c in db.campaigns
    modifies db`campaigns
    ensures db.campaigns == old(db.campaigns)[c := MarkedCampaign(old(db.campaigns[c]), now)]
  {
    var campaign := db.campaigns[c];
    campaign := campaign.(status := Finished, completedAt := Some(now),
        deleteAfter := Some(now + RETENTION_DAYS * DAY));
    db.campaigns := db.campaigns[c := campaign];
  }

  function ActiveCampaigns(campaigns: map<Id, Campaign>): set<Id> {
    set c | c in campaigns && campaigns[c].status == Active
  }

  lemma {:induction false} OneMoreMarked(campaigns: map<Id, Campaign>, done: set<Id>, c: Id, now: int)
    requires c in campaigns && c !in done
    ensures MarkedAll(campaigns, done, now)[c := MarkedCampaign(campaigns[c], now)] ==
        MarkedAll(campaigns, done + {c}, now)
  {
  }

  lemma {:induction false} CompleteAreActive(p: Pool)
    ensures CompleteCampaigns(p) <= ActiveCampaigns(p.campaigns)
    ensures Judged(p, CompleteCampaigns(p))
  {
  }

  lemma {:induction false} NoneLeft(p: Pool, q: Pool, now: int)
    requires q.contacts == p.contacts && q.campaigns == MarkedAll(p.campaigns, CompleteCampaigns(p), now)
    ensures CompleteCampaigns(q) == {}
  {
    forall c | c in q.campaigns ensures !IsComplete(q, c) {
      if c !in CompleteCampaigns(p) {
        SameAnswer(p, q, c);
      }
    }
  }

  lemma {:induction false} SameAnswer(p: Pool, q: Pool, c: Id)
    requires q.contacts == p.contacts && c in p.campaigns && c in q.campaigns && q.campaigns[c] == p.campaigns[c]
    ensures IsComplete(q, c) <==> IsComplete(p, c)
    ensures IsComplete(p, c) <==> c in CompleteCampaigns(p)
  {
    assert ContactsIn(q, c) == ContactsIn(p, c);
    assert Outstanding(q, c) == Outstanding(p, c);
  }

  // ----------------------------------------------------------------------- purge

  function Due(p: Pool, now: int): set<Id> {
    set c | c in p.campaigns && p.campaigns[c].status == Finished
         && p.campaigns[c].deleteAfter.Some? && p.campaigns[c].deleteAfter.value <= now
  }

  method PurgeExpiredCampaignData(db: Database, now: int) returns (purged: nat)
    requires Integrity(db.Contents()) && UniqueKeys(db.Contents())
    modifies db
    ensures db.Contents() == Without(old(db.Contents()), Due(old(db.Contents()), now))
    ensures purged == |Due(old(db.Contents()), now)|
  {
    ghost var p := db.Contents();
    var todo := Due(db.Contents(), now);
    ghost var done: set<Id> := {};
    purged := 0;
    NothingGone(p);
    while todo != {}
      invariant todo !! done && todo + done == Due(p, now) && purged == |done|
      invariant db.Contents() == Without(p, done)
    {
      var c :| c in todo;
      PurgeOne(db, p, done, c);
      purged := purged + 1;
      todo := todo - {c};
      done := done + {c};
    }
  }

  method PurgeOne(db: Database, ghost p: Pool, ghost done: set<Id>, c: Id)
    requires Integrity(p) && UniqueKeys(p) && c in p.campaigns && p.campaigns[c].status == Finished
    requires db.Contents() == Without(p, done)
    modifies db
    ensures db.Contents() == Without(p, done + {c})
  {
    OneMorePurged(p, done, c);
    var one := DeleteCompletedCampaignData(db, c);
  }

  lemma {:induction false} OneMorePurged(p: Pool, done: set<Id>, c: Id)
    requires Integrity(p) && UniqueKeys(p) && c in p.campaigns && p.campaigns[c].status == Finished
    ensures var q := Without(p, done);
            && Integrity(q) && UniqueKeys(q) && c in q.campaigns && q.campaigns[c].status == Finished
            && Without(q, {c}) == Without(p, done + {c})
  {
    WithoutKeys(p, Without(p, done), done);
    WithoutMore(p, done, c);
  }

  /** Whole days left, counting a begun day, never negative. */
  function DaysRemaining(deleteAfter: Option<int>, now: int): (r: Option<int>)
    ensures r.None? <==> deleteAfter.None?
    ensures r.Some? ==>
              && r.value >= 0 && deleteAfter.value <= now + r.value * DAY
              && (r.value > 0 ==> now + (r.value - 1) * DAY < deleteAfter.value)
  {
    if deleteAfter.None? then None
    else
      var remaining := deleteAfter.value - now;
      var days := remaining / DAY + (if remaining % DAY != 0 then 1 else 0);
      Some(if days > 0 then days else 0)
  }

  /** The detection starts a countdown of sixty days in each campaign it marks: exactly when the
      countdown shows no day left is the campaign due for the purge, and no other campaign
      becomes due by it. */
  lemma {:induction false} CountdownRuns(p: Pool, now: int, c: Id, t: int)
    requires c in p.campaigns
    ensures var p' := p.(campaigns := MarkedAll(p.campaigns, CompleteCampaigns(p), now));
            var left := DaysRemaining(p'.campaigns[c].deleteAfter, t);
            if c in CompleteCampaigns(p) then
              && (c in Due(p', t) <==> now + RETENTION_DAYS * DAY <= t)
              && (c in Due(p', t) <==> left == Some(0))
              && DaysRemaining(p'.campaigns[c].deleteAfter, now) == Some(RETENTION_DAYS)
            else c in Due(p', t) <==> c in Due(p, t)
  {
  }

  // ------------------------------------------------------------------- the proof

  lemma {:induction false} NothingGone(p: Pool)
    requires Integrity(p)
    ensures Without(p, {}) == p
  {
    assert ClearedAll(p.campaigns, {}) == p.campaigns;
    assert Orphans(p, {}) == {};
  }

  /** Deleting campaign by campaign is deleting them together, in any order. */
  lemma {:induction false} WithoutMore(p: Pool, gone: set<Id>, c: Id)
    requires Integrity(p)
    ensures Without(Without(p, gone), {c}) == Without(p, gone + {c})
  {
    var q := Without(p, gone);
    LeftMore(p, q, gone, c);
    ClearedMore(p.campaigns, gone, c);
    OrphansMore(p, q, gone, c);
  }

  /** The rows of `p` that are not gone. */
  ghost predicate RowsLeft(p: Pool, q: Pool, gone: set<Id>) {
    q.attempts == AttemptsLeft(p, gone) && q.items == ItemsLeft(p, gone) && q.contacts == ContactsLeft(p, gone)
  }

  lemma {:induction false} LeftMore(p: Pool, q: Pool, gone: set<Id>, c: Id)
    requires Integrity(p) && RowsLeft(p, q, gone)
    ensures ItemsLeft(q, {c}) == ItemsLeft(p, gone + {c}) && ContactsLeft(q, {c}) == ContactsLeft(p, gone + {c})
    ensures AttemptsLeft(q, {c}) == AttemptsLeft(p, gone + {c})
  {
    forall i | i in p.items ensures ItemGone(p, i, gone + {c}) <==> ItemGone(p, i, gone) || ItemGone(q, i, {c}) {
      GoneMore(p, q, gone, c, i);
    }
  }

  lemma {:induction false} GoneMore(p: Pool, q: Pool, gone: set<Id>, c: Id, i: Id)
    requires Integrity(p) && RowsLeft(p, q, gone) && i in p.items
    ensures ItemGone(p, i, gone + {c}) <==> ItemGone(p, i, gone) || ItemGone(q, i, {c})
  {
  }

  lemma {:induction false} ClearedMore(campaigns: map<Id, Campaign>, gone: set<Id>, c: Id)
    ensures ClearedAll(ClearedAll(campaigns, gone), {c}) == ClearedAll(campaigns, gone + {c})
  {
  }

  lemma {:induction false} OrphansMore(p: Pool, q: Pool, gone: set<Id>, c: Id)
    requires RowsLeft(p, q, gone) && q.people == p.people - Orphans(p, gone)
    ensures Orphans(p, gone) + Orphans(q, {c}) == Orphans(p, gone + {c})
  {
    forall n | n in p.people ensures n in Orphans(p, gone + {c}) <==> n in Orphans(p, gone) || n in Orphans(q, {c}) {
      OrphanMore(p, q, gone, c, n);
    }
  }

  lemma {:induction false} OrphanMore(p: Pool, q: Pool, gone: set<Id>, c: Id, n: Phone)
    requires RowsLeft(p, q, gone)
    ensures OnlyIn(p, n, gone + {c}) <==> OnlyIn(p, n, gone) || OnlyIn(q, n, {c})
  {
    assert forall d :: Names(q, d, n) <==> Names(p, d, n) && p.contacts[d].campaign !in gone;
  }

  /** Deleting again deletes nothing. */
  lemma {:induction false} DeletingTwiceIsOnce(p: Pool, c: Id)
    requires Integrity(p)
    ensures Without(Without(p, {c}), {c}) == Without(p, {c})
  {
    WithoutMore(p, {c}, c);
    assert {c} + {c} == {c};
  }

  /** The deletion keeps every reference sound and every other row as it was; suppressions
      and dispositions are not touched at all. */
  lemma {:induction false} WithoutKeeps(p: Pool, gone: set<Id>)
    requires PoolOk(p)
    ensures PoolOk(Without(p, gone)) && Follows(p, Without(p, gone))
    ensures Without(p, gone).suppressed == p.suppressed && Without(p, gone).dispositions == p.dispositions
  {
    var q := Without(p, gone);
    WithoutKeys(p, q, gone);
    WithoutLeases(p, q, gone);
    WithoutAttempts(p, q, gone);
    WithoutStates(p, q, gone);
    WithoutDone(p, q, gone);
  }

  /** A contact that stays keeps its item. */
  lemma {:induction false} WithoutDone(p: Pool, q: Pool, gone: set<Id>)
    requires Integrity(p) && DoneOk(p) && RowsLeft(p, q, gone)
    ensures DoneOk(q)
  {
    DoneKept(p, q);
  }

  lemma {:induction false} WithoutKeys(p: Pool, q: Pool, gone: set<Id>)
    requires Integrity(p) && UniqueKeys(p) && q == Without(p, gone)
    ensures Integrity(q) && UniqueKeys(q)
    ensures forall i :: i in q.items ==> PhoneOf(q, i) == PhoneOf(p, i) && CampaignOf(q, i) == CampaignOf(p, i)
  {
    assert forall i: Id, c: Id :: ItemFor(q, i, c) ==> ItemFor(p, i, c);
    assert forall c: Id, m: Id, n: Phone :: ContactFor(q, c, m, n) ==> ContactFor(p, c, m, n);
    assert forall d: Id, m: Id, code :: DispositionFor(q, d, m, code) <==> DispositionFor(p, d, m, code);
    forall c | c in q.contacts ensures q.contacts[c].phone in q.people {
      assert q.contacts[c].phone !in Orphans(p, gone);
    }
  }

  lemma {:induction false} WithoutLeases(p: Pool, q: Pool, gone: set<Id>)
    requires Integrity(p) && LeasesOk(p) && q == Without(p, gone)
    ensures LeasesOk(q) && Follows(p, q)
  {
    assert forall j: Id, who :: LeasedTo(q, j, who) ==> LeasedTo(p, j, who);
    assert forall j: Id, lease: Id :: HeldOn(q, j, lease) ==>
        HeldOn(p, j, lease) && p.items[j].owner == q.items[j].owner;
    assert LeasesFollow(p, q);
  }

  lemma {:induction false} WithoutAttempts(p: Pool, q: Pool, gone: set<Id>)
    requires Integrity(p) && Integrity(q) && AttemptsOk(p) && q == Without(p, gone)
    ensures AttemptsOk(q)
  {
    assert forall a: Id, agent, key :: IsAttempt(q, a, agent, key) ==> IsAttempt(p, a, agent, key);
    forall i | i in q.items ensures q.items[i].attempts == |AttemptsOf(q, i)| {
      KeptAttempts(p, q, gone, i);
    }
    forall a | a in q.attempts ensures AttemptOk(q, a) {
      assert AttemptOk(p, a);
    }
  }

  /** An item that stays keeps all its attempts. */
  lemma {:induction false} KeptAttempts(p: Pool, q: Pool, gone: set<Id>, i: Id)
    requires q == Without(p, gone) && i in q.items
    ensures AttemptsOf(q, i) == AttemptsOf(p, i)
  {
  }

  lemma {:induction false} WithoutStates(p: Pool, q: Pool, gone: set<Id>)
    requires Integrity(p) && Integrity(q) && q == Without(p, gone)
    requires ItemsOk(p) && ClosedOk(p) && DncOk(p) && LaunchedOk(p) && DispositionsOk(p)
    requires forall i :: i in q.items ==> PhoneOf(q, i) == PhoneOf(p, i) && CampaignOf(q, i) == CampaignOf(p, i)
    ensures ItemsOk(q) && ClosedOk(q) && DncOk(q) && LaunchedOk(q) && DispositionsOk(q)
  {
  }

  /** Marking changes statuses only, and never a draft. */
  lemma {:induction false} MarkingKeeps(p: Pool, now: int)
    requires PoolOk(p)
    ensures var q := p.(campaigns := MarkedAll(p.campaigns, CompleteCampaigns(p), now));
            PoolOk(q) && Follows(p, q)
  {
    CampaignsMoved(p, p.(campaigns := MarkedAll(p.campaigns, CompleteCampaigns(p), now)));
  }

  /** The contact has a work item, and it is completed or suppressed. */
  ghost predicate WorkedThrough(p: Pool, c: Id) {
    exists i: Id :: ItemFor(p, i, c) && (p.items[i].state.Completed? || p.items[i].state.Suppressed?)
  }

  /** Exactly when an active campaign is complete: it has contacts, and every one of them has a
      work item that is completed or suppressed. A contact without an item keeps it open. */
  lemma {:induction false} CompleteIffWorkedThrough(p: Pool, m: Id)
    requires PoolOk(p)
    ensures IsComplete(p, m) <==>
              && m in p.campaigns && p.campaigns[m].status == Active && ContactsIn(p, m) != {}
              && forall c :: c in ContactsIn(p, m) ==> WorkedThrough(p, c)
    ensures IsComplete(p, m) ==> forall i :: i in p.items && CampaignOf(p, i) == m ==>
              p.items[i].state.Completed? || p.items[i].state.Suppressed?
  {
    if IsComplete(p, m) {
      CompleteMeansNothingLive(p, m);
    }
    forall c | c in ContactsIn(p, m) ensures p.contacts[c].completedAt.Some? <==> WorkedThrough(p, c) {
      DoneIffWorkedThrough(p, c);
    }
    NoneOutstanding(p, m);
  }

  lemma {:induction false} NoneOutstanding(p: Pool, m: Id)
    ensures |Outstanding(p, m)| == 0 <==> forall c :: c in ContactsIn(p, m) ==> p.contacts[c].completedAt.Some?
    ensures |ContactsIn(p, m)| != 0 <==> ContactsIn(p, m) != {}
  {
    if |Outstanding(p, m)| == 0 {
      assert Outstanding(p, m) == {};
      assert forall c :: c in ContactsIn(p, m) && p.contacts[c].completedAt.None? ==> c in Outstanding(p, m);
    }
  }

  lemma {:induction false} DoneIffWorkedThrough(p: Pool, c: Id)
    requires Integrity(p) && UniqueKeys(p) && ItemsOk(p) && ClosedOk(p) && DoneOk(p) && c in p.contacts
    ensures p.contacts[c].completedAt.Some? <==> WorkedThrough(p, c)
  {
    if p.contacts[c].completedAt.Some? {
      var i: Id :| ItemFor(p, i, c);
      assert ItemOk(p.items[i]);
    }
    if WorkedThrough(p, c) {
      var i: Id :| ItemFor(p, i, c) && (p.items[i].state.Completed? || p.items[i].state.Suppressed?);
      assert ItemOk(p.items[i]);
    }
  }

  lemma {:induction false} CompleteMeansNothingLive(p: Pool, campaign: Id)
    requires PoolOk(p) && IsComplete(p, campaign)
    ensures forall i :: i in p.items && CampaignOf(p, i) == campaign ==>
        p.items[i].state.Completed? || p.items[i].state.Suppressed?
  {
    forall i | i in p.items && CampaignOf(p, i) == campaign ensures p.items[i].state.Completed?
        || p.items[i].state.Suppressed? {
      assert p.items[i].contact in ContactsIn(p, campaign) && p.items[i].contact !in Outstanding(p, campaign);
      assert ItemOk(p.items[i]);
    }
  }

  /** A change of campaign rows alone, with no launched campaign turned back into a draft. */
  lemma {:induction false} CampaignsMoved(p: Pool, q: Pool)
    requires PoolOk(p) && q == p.(campaigns := q.campaigns) && CampaignsFollow(p, q)
    ensures PoolOk(q) && Follows(p, q)
  {
    DoneKept(p, q);
    CampaignKeys(p, q);
    assert forall j: Id, who :: LeasedTo(q, j, who) <==> LeasedTo(p, j, who);
    assert forall j: Id, lease: Id :: HeldOn(q, j, lease) <==> HeldOn(p, j, lease);
    assert forall i :: i in p.items ==> CampaignOf(q, i) == CampaignOf(p, i) && PhoneOf(q, i) == PhoneOf(p, i);
  }

  lemma {:induction false} CampaignKeys(p: Pool, q: Pool)
    requires Integrity(p) && UniqueKeys(p) && AttemptsOk(p) && q == p.(campaigns := q.campaigns)
    requires CampaignsFollow(p, q)
    ensures Integrity(q) && UniqueKeys(q) && AttemptsOk(q)
  {
    assert forall i: Id, c: Id :: ItemFor(q, i, c) <==> ItemFor(p, i, c);
    assert forall c: Id, m: Id, n: Phone :: ContactFor(q, c, m, n) <==> ContactFor(p, c, m, n);
    assert forall d: Id, m: Id, code :: DispositionFor(q, d, m, code) <==> DispositionFor(p, d, m, code);
    assert forall a: Id, agent, key :: IsAttempt(q, a, agent, key) <==> IsAttempt(p, a, agent, key);
    assert forall i :: i in p.items ==> AttemptsOf(q, i) == AttemptsOf(p, i);
    assert forall a :: a in p.attempts ==> AttemptOk(p, a);
  }
}
