/** What reclaiming, releasing, skipping, reviewing and importing leave behind, and when they are
    refused, in terms of the rows' own fields. */
module WorkEffects {
  import opened Basics
  import opened WorkStates
  import opened PoolState
  import opened WorkRules
  import opened WorkInvariant
  import opened ContactImport
  import opened CompletionEffects

  // ------------------------------------------------------------------ taken back

  /** The item without its lease, waiting again for the agent who keeps it, if one does. */
  predicate TakenBack(x: Item, y: Item) {
    && y.state == (if x.keptBy.Some? then CallbackWait else Queued)
    && y == x.(state := y.state, owner := None, leaseId := None, expires := None)
  }

  /** The item without its lease or its keeper, queued for everyone at once. */
  predicate SentBack(x: Item, y: Item) {
    y == x.(state := Queued, owner := None, leaseId := None, expires := None, keptBy := None, due := None)
  }

  lemma {:induction false} ExpiredTakenBack(p: Pool, busy: set<Id>, now: int)
    ensures var items := ReturnedAll(p.items, ExpiredLeases(p, busy, now));
            && items.Keys == p.items.Keys
            && forall i :: i in p.items ==>
                 var x := p.items[i];
                 if x.state.Leased? && x.expires.Some? && x.expires.value < now && i !in busy
                 then TakenBack(x, items[i]) else items[i] == x
  {
  }

  lemma {:induction false} UserLeasesTakenBack(p: Pool, agent: Uuid, busy: set<Id>)
    ensures var items := ReturnedAll(p.items, LeasesOf(p, agent, busy));
            && items.Keys == p.items.Keys
            && forall i :: i in p.items ==>
                 var x := p.items[i];
                 if x.state.Leased? && x.owner == Some(agent) && i !in busy then TakenBack(x, items[i])
                 else items[i] == x
  {
  }

  /** The agent's leases and callbacks of the campaign go back to its queue; those of other
      campaigns and agents stay. */
  lemma {:induction false} CampaignWorkSentBack(p: Pool, agent: Uuid, m: Id, busy: set<Id>)
    requires Integrity(p)
    ensures var items := ReleasedAll(p.items, WorkOf(p, agent, m, busy));
            && items.Keys == p.items.Keys
            && forall i :: i in p.items ==>
                 var x := p.items[i];
                 var own := (x.state.Leased? && x.owner == Some(agent))
                            || (x.state.CallbackWait? && x.keptBy == Some(agent));
                 if own && p.contacts[x.contact].campaign == m && i !in busy then SentBack(x, items[i])
                 else items[i] == x
  {
  }

  // ------------------------------------------------------------ skips and reviews

  predicate SaysNothing(reason: string) {
    forall k :: 0 <= k < |reason| ==> reason[k] == ' ' || reason[k] == '\t' || reason[k] == '\n' || reason[k] == '\r'
  }

  predicate InReview(p: Pool, i: Id) {
    i in p.items && p.items[i].state.Review?
  }

  /** A skip needs a reason and the caller's live lease. It gives the lease up and counts; the third
      one sends the item to review, any earlier one back to the queue. */
  lemma {:induction false} SkipsIff(p: Pool, i: Id, agent: Uuid, lease: Id, reason: string, now: int)
    requires ItemsOk(p)
    ensures var r, live := Skip(p, i, agent, lease, reason, now), LeaseIsLive(p, i, agent, lease, now);
            && (r == Err(MissingField) <==> SaysNothing(reason))
            && (r == Err(LeaseConflict) <==> !SaysNothing(reason) && !live)
            && (r.Ok? <==> !SaysNothing(reason) && live)
            && (r.Ok? ==>
                  var x := p.items[i];
                  r.value == p.(items := p.items[i := x.(state := if x.skips < 2 then Queued else Review,
                                                         skips := x.skips + 1, owner := None, leaseId := None,
                                                         expires := None)]))
  {
    assert i in p.items ==> ItemOk(p.items[i]);
  }

  /** Rescheduling needs a reason, a later time and an item in review. */
  lemma {:induction false} ReschedulesIff(p: Pool, i: Id, retryAt: int, reason: string, now: int)
    ensures var r := Reschedule(p, i, retryAt, reason, now);
            && (r == Err(MissingField) <==> SaysNothing(reason) || retryAt <= now)
            && (r == Err(NotInReview) <==> !SaysNothing(reason) && now < retryAt && !InReview(p, i))
            && (r.Ok? <==> !SaysNothing(reason) && now < retryAt && InReview(p, i))
            && (r.Ok? ==> r.value == p.(items := p.items[i := p.items[i].(state := RetryWait, due := Some(retryAt),
                                                                          keptBy := None)]))
  {
  }

  /** Allowing more attempts needs a reason, an item in review, and a ceiling above its attempts. */
  lemma {:induction false} AllowsMoreIff(p: Pool, i: Id, newMax: int, reason: string, now: int)
    ensures var r := AllowMore(p, i, newMax, reason, now);
            && (r.Ok? <==> !SaysNothing(reason) && InReview(p, i) && p.items[i].attempts < newMax)
            && (r == Err(NotInReview) <==> !SaysNothing(reason) && !InReview(p, i))
            && (r.Err? && r.error != NotInReview ==> r.error == MissingField)
            && (r.Ok? ==> r.value == p.(items := p.items[i := p.items[i].(state := RetryWait, due := Some(now),
                                                                          maxAttempts := newMax, keptBy := None)]))
  {
  }

  /** Closing a reviewed item finishes it and its contact, in the name of the agent and with the
      outcome of an attempt of the item that no other attempt of it is later than. */
  lemma {:induction false} ClosesAsLastCalled(p: Pool, i: Id, a: Id, now: int)
    requires Integrity(p) && i in p.items && Latest(p, i, a)
    ensures p.attempts[a].item == i
    ensures forall b :: b in p.attempts && p.attempts[b].item == i ==> p.attempts[b].created <= p.attempts[a].created
    ensures var x, t := p.items[i], p.attempts[a];
            CloseWith(p, i, a, now) ==
            p.(items := p.items[i := x.(state := Completed, completedAt := Some(now))],
               contacts := p.contacts[x.contact := p.contacts[x.contact].(status := Called, completedAt := Some(now),
                                      completedBy := Some(t.agent), finalCode := Some(t.outcome))])
  {
  }

  // -------------------------------------------------------------------- the import

  /** If contact `c` is new, then it is a number of the import that the campaign did not have, and
      it has a queued item of the lowest standing, or none at all if the number is suppressed. */
  ghost predicate EnrolledAs(p: Pool, p': Pool, m: Id, phones: seq<Phone>, now: int, c: Id) {
    c in p'.contacts && c !in p.contacts ==>
      var phone := p'.contacts[c].phone;
      && phone in phones
      && (forall k :: k in p.contacts ==> p.contacts[k].campaign != m || p.contacts[k].phone != phone)
      && p'.contacts[c] ==
         CampaignContact(m, phone, if phone in p.suppressed then Blocked else ToCall, None, None, None)
      && if phone in p.suppressed then forall i :: i in p'.items ==> p'.items[i].contact != c
         else c + 1 in p'.items && p'.items[c + 1] ==
              Item(c, Queued, 0, now, None, None, 0, DEFAULT_MAX_ATTEMPTS, 0, None, None, None, None, None)
  }

  /** An import enrols exactly the numbers the campaign did not have. */
  lemma {:induction false} ImportEnrols(p: Pool, m: Id, phones: seq<Phone>, now: int)
    requires PoolOk(p) && m in p.campaigns
    ensures var p' := ImportAll(p, m, phones, now).0;
            && (forall c :: EnrolledAs(p, p', m, phones, now, c))
            && (forall phone :: phone in phones ==> InCampaignAlready(p', m, phone))
  {
    if phones != [] {
      var before, phone := phones[..|phones| - 1], phones[|phones| - 1];
      assert phones == before + [phone];
      ImportEnrols(p, m, before, now);
      StepIs(p, m, before, phone, now);
      EnrolsStep(p, ImportAll(p, m, before, now).0, ImportAll(p, m, phones, now).0, m, before, phone, now);
    }
    NumbersThere(p, m, phones, now);
  }

  lemma {:induction false} NumbersThere(p: Pool, m: Id, phones: seq<Phone>, now: int)
    requires PoolOk(p) && m in p.campaigns
    ensures forall phone :: phone in phones ==> InCampaignAlready(ImportAll(p, m, phones, now).0, m, phone)
  {
    ImportKeeps(p, m, phones, now);
  }

  lemma {:induction false} StepIs(p: Pool, m: Id, before: seq<Phone>, phone: Phone, now: int)
    requires PoolOk(p) && m in p.campaigns
    ensures var q, p' := ImportAll(p, m, before, now).0, ImportAll(p, m, before + [phone], now).0;
            && Integrity(q) && Extends(p, q)
            && if InCampaignAlready(q, m, phone) then p' == q else IsAdded(q, p', m, phone, now)
  {
    ImportKeeps(p, m, before, now);
    assert (before + [phone])[..|before|] == before;
  }

  lemma {:induction false} EnrolsStep(p: Pool, q: Pool, p': Pool, m: Id, before: seq<Phone>, phone: Phone, now: int)
    requires Integrity(q) && Extends(p, q) && forall c :: EnrolledAs(p, q, m, before, now, c)
    requires if InCampaignAlready(q, m, phone) then p' == q else IsAdded(q, p', m, phone, now)
    ensures forall c :: EnrolledAs(p, p', m, before + [phone], now, c)
  {
    forall c ensures EnrolledAs(p, p', m, before + [phone], now, c) {
      assert EnrolledAs(p, q, m, before, now, c);
      if !InCampaignAlready(q, m, phone) {
        EnrolsOneMore(p, q, p', m, before, phone, now, c);
      }
    }
  }

  lemma {:induction false} EnrolsOneMore(p: Pool, q: Pool, p': Pool, m: Id, before: seq<Phone>, phone: Phone, now: int,
                                         c: Id)
    requires Integrity(q) && Extends(p, q) && EnrolledAs(p, q, m, before, now, c) && !InCampaignAlready(q, m, phone)
    requires IsAdded(q, p', m, phone, now)
    ensures EnrolledAs(p, p', m, before + [phone], now, c)
  {
    if k :| k in p.contacts && p.contacts[k].campaign == m && p.contacts[k].phone == phone {
      assert ContactFor(q, k, m, phone);
    }
  }
}
