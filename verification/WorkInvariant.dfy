/** Every work operation keeps the invariant, and what no operation ever takes back. */
module WorkInvariant {
  import opened Basics
  import opened WorkStates
  import opened PoolState
  import opened WorkRules

  /** What stays true from a state to any later one. Identifiers are never reused, so an old
      identifier found later names the same row. */
  ghost predicate Follows(p: Pool, p': Pool) {
    && p.nextId <= p'.nextId && p.suppressed <= p'.suppressed
    && LeasesFollow(p, p') && AttemptsFollow(p, p') && ItemsFollow(p, p') && ContactsFollow(p, p')
    && ItemsStay(p, p') && CampaignsFollow(p, p') && DispositionsFollow(p, p')
  }

  /** A live lease id was issued since, or was live on that item for that agent all along. */
  ghost predicate LeasesFollow(p: Pool, p': Pool) {
    forall i: Id, lease: Id :: lease < p.nextId && HeldOn(p', i, lease) ==>
      HeldOn(p, i, lease) && p.items[i].owner == p'.items[i].owner
  }

  /** Attempts are immutable. */
  ghost predicate AttemptsFollow(p: Pool, p': Pool) {
    forall a: Id :: a < p.nextId && a in p'.attempts ==> a in p.attempts && p'.attempts[a] == p.attempts[a]
  }

  /** Closed items never change; attempt counters never go down. */
  ghost predicate ItemsFollow(p: Pool, p': Pool) {
    forall i: Id :: i < p.nextId && i in p'.items ==> i in p.items && ItemFollows(p.items[i], p'.items[i])
  }

  predicate ItemFollows(x: Item, y: Item) {
    && y.contact == x.contact && y.attempts >= x.attempts
    && (Terminal(x.state) ==> y == x)
  }

  ghost predicate ContactsFollow(p: Pool, p': Pool) {
    forall c: Id :: c < p.nextId && c in p'.contacts ==>
      c in p.contacts && p'.contacts[c].campaign == p.contacts[c].campaign
          && p'.contacts[c].phone == p.contacts[c].phone
  }

  /** A contact that is still there still has its item. */
  ghost predicate ItemsStay(p: Pool, p': Pool) {
    forall i: Id, c: Id :: c < p.nextId && c in p'.contacts && ItemFor(p, i, c) ==> ItemFor(p', i, c)
  }

  /** No campaign is deleted, returns to draft, or leaves the finished state. */
  ghost predicate CampaignsFollow(p: Pool, p': Pool) {
    forall c :: c in p.campaigns ==> c in p'.campaigns && StatusFollows(p.campaigns[c].status, p'.campaigns[c].status)
  }

  predicate StatusFollows(was: CampaignStatus, status: CampaignStatus) {
    (was != Draft ==> status != Draft) && (was == Finished ==> status == Finished)
  }

  ghost predicate Launched(p: Pool, c: Id) {
    c in p.campaigns && p.campaigns[c].status != Draft
  }

  /** Dispositions are never deleted; a launched campaign's never change. */
  ghost predicate DispositionsFollow(p: Pool, p': Pool) {
    forall d :: d in p.dispositions ==>
      && d in p'.dispositions && p'.dispositions[d].campaign == p.dispositions[d].campaign
      && (Launched(p, p.dispositions[d].campaign) ==> p'.dispositions[d] == p.dispositions[d])
  }

  lemma {:induction false} FollowsItself(p: Pool)
    ensures Follows(p, p)
  {
  }

  lemma {:induction false} FollowsOn(p: Pool, q: Pool, r: Pool)
    requires Follows(p, q) && Follows(q, r)
    ensures Follows(p, r)
  {
    forall i: Id, lease: Id | lease < p.nextId && HeldOn(r, i, lease)
      ensures HeldOn(p, i, lease) && p.items[i].owner == r.items[i].owner
    {
      assert HeldOn(q, i, lease);
    }
    forall d | d in p.dispositions
      ensures d in r.dispositions && r.dispositions[d].campaign == p.dispositions[d].campaign
      ensures Launched(p, p.dispositions[d].campaign) ==> r.dispositions[d] == p.dispositions[d]
    {
      assert d in q.dispositions && q.dispositions[d].campaign == p.dispositions[d].campaign;
      assert Launched(p, p.dispositions[d].campaign) ==> Launched(q, p.dispositions[d].campaign);
    }
  }

  // -------------------------------------------------- open items changing state

  /** An open item moves to another open value. */
  ghost predicate OpenMove(x: Item, y: Item) {
    ItemOk(y) && y.contact == x.contact && y.attempts == x.attempts && !Terminal(x.state) && !Terminal(y.state)
  }

  /** The lease, if any, is the one the item had. */
  predicate SameLease(x: Item, y: Item) {
    y.state.Leased? ==> x.state.Leased? && y.owner == x.owner && y.leaseId == x.leaseId
  }

  ghost predicate OnlyItems(p: Pool, p': Pool) {
    p' == p.(items := p'.items, nextId := p'.nextId) && p'.items.Keys == p.items.Keys && p.nextId <= p'.nextId
  }

  /** Identities that did not change: keys, contacts, phones, campaigns and attempt counts. */
  ghost predicate SameRows(p: Pool, p': Pool) {
    && p'.attempts == p.attempts && p'.dispositions == p.dispositions
    && p'.campaigns == p.campaigns && p'.people == p.people && p.nextId <= p'.nextId
    && p'.items.Keys == p.items.Keys && p'.contacts.Keys == p.contacts.Keys
    && (forall i :: i in p.items ==>
          p'.items[i].contact == p.items[i].contact && p'.items[i].attempts == p.items[i].attempts)
    && (forall c :: c in p.contacts ==>
          p'.contacts[c].campaign == p.contacts[c].campaign && p'.contacts[c].phone == p.contacts[c].phone)
  }

  lemma {:induction false} KeysSame(p: Pool, p': Pool)
    requires Integrity(p) && UniqueKeys(p) && SameRows(p, p')
    ensures Integrity(p') && UniqueKeys(p')
    ensures forall i :: i in p.items ==> PhoneOf(p', i) == PhoneOf(p, i) && CampaignOf(p', i) == CampaignOf(p, i)
  {
    assert forall i: Id, c: Id :: ItemFor(p', i, c) <==> ItemFor(p, i, c);
    assert forall c: Id, m: Id, n: Phone :: ContactFor(p', c, m, n) <==> ContactFor(p, c, m, n);
    assert forall d: Id, m: Id, code :: DispositionFor(p', d, m, code) <==> DispositionFor(p, d, m, code);
  }

  lemma {:induction false} AttemptsSame(p: Pool, p': Pool)
    requires Integrity(p) && Integrity(p') && AttemptsOk(p) && SameRows(p, p')
    ensures AttemptsOk(p')
  {
    assert forall a: Id, agent, key :: IsAttempt(p', a, agent, key) <==> IsAttempt(p, a, agent, key);
    forall i | i in p'.items ensures p'.items[i].attempts == |AttemptsOf(p', i)| {
      assert AttemptsOf(p', i) == AttemptsOf(p, i);
    }
    forall a | a in p'.attempts ensures AttemptOk(p', a) {
      assert AttemptOk(p, a);
    }
  }

  /** Contacts are done only through items that are still theirs. */
  lemma {:induction false} DoneKept(p: Pool, p': Pool)
    requires DoneOk(p)
    requires forall c :: c in p'.contacts && p'.contacts[c].completedAt.Some? ==>
               (c in p.contacts && p.contacts[c].completedAt.Some?) || HasItem(p, c)
    requires forall i: Id, c: Id :: ItemFor(p, i, c) && c in p'.contacts ==> ItemFor(p', i, c)
    ensures DoneOk(p')
  {
    forall c | c in p'.contacts && p'.contacts[c].completedAt.Some? ensures HasItem(p', c) {
      var i :| ItemFor(p, i, c);
      assert ItemFor(p', i, c);
    }
  }

  lemma {:induction false} RowsFollow(p: Pool, p': Pool)
    requires Integrity(p) && SameRows(p, p') && LeasesFollow(p, p') && p.suppressed <= p'.suppressed
    requires forall i :: i in p.items && Terminal(p.items[i].state) ==> p'.items[i] == p.items[i]
    ensures Follows(p, p')
  {
  }

  /** All but the leases survives when open items move among open states. */
  lemma {:induction false} OpenMovesKeep(p: Pool, p': Pool)
    requires PoolOk(p) && OnlyItems(p, p') && LeasesOk(p') && LeasesFollow(p, p')
    requires forall i :: i in p.items ==> p'.items[i] == p.items[i] || OpenMove(p.items[i], p'.items[i])
    requires forall i :: i in p.items && p'.items[i].state.Leased? ==>
        p.items[i].state.Leased? || Launched(p, CampaignOf(p, i))
    ensures PoolOk(p') && Follows(p, p')
  {
    assert SameRows(p, p');
    KeysSame(p, p');
    AttemptsSame(p, p');
    RowsFollow(p, p');
    OpenStates(p, p');
    DoneKept(p, p');
  }

  lemma {:induction false} OpenStates(p: Pool, p': Pool)
    requires Integrity(p) && Integrity(p') && OnlyItems(p, p')
    requires ItemsOk(p) && ClosedOk(p) && DncOk(p) && LaunchedOk(p) && DispositionsOk(p)
    requires forall i :: i in p.items ==> p'.items[i] == p.items[i] || OpenMove(p.items[i], p'.items[i])
    requires forall i :: i in p.items && p'.items[i].state.Leased? ==>
        p.items[i].state.Leased? || Launched(p, CampaignOf(p, i))
    requires forall i :: i in p.items ==> PhoneOf(p', i) == PhoneOf(p, i) && CampaignOf(p', i) == CampaignOf(p, i)
    ensures ItemsOk(p') && ClosedOk(p') && DncOk(p') && LaunchedOk(p') && DispositionsOk(p')
  {
  }

  /** Any number of open items move and none takes a new lease. */
  lemma {:induction false} ItemsMoved(p: Pool, p': Pool)
    requires PoolOk(p) && OnlyItems(p, p')
    requires forall i :: i in p.items ==>
      p'.items[i] == p.items[i] || (OpenMove(p.items[i], p'.items[i]) && SameLease(p.items[i], p'.items[i]))
    ensures PoolOk(p') && Follows(p, p')
  {
    SameLeases(p, p');
    OpenMovesKeep(p, p');
  }

  lemma {:induction false} SameLeases(p: Pool, p': Pool)
    requires LeasesOk(p) && OnlyItems(p, p')
    requires forall i :: i in p.items ==> p'.items[i] == p.items[i] || SameLease(p.items[i], p'.items[i])
    ensures LeasesOk(p') && LeasesFollow(p, p')
  {
    assert forall i: Id, agent :: LeasedTo(p', i, agent) ==> LeasedTo(p, i, agent);
    assert forall i: Id, lease: Id :: HeldOn(p', i, lease) ==>
        HeldOn(p, i, lease) && p.items[i].owner == p'.items[i].owner;
  }

  /** One open item takes a new lease, for an agent who holds no other. */
  lemma {:induction false} ItemLeased(p: Pool, p': Pool, i: Id, agent: Uuid)
    requires PoolOk(p) && OnlyItems(p, p') && i in p.items && p'.items == p.items[i := p'.items[i]]
    requires OpenMove(p.items[i], p'.items[i]) && LeasedTo(p', i, agent)
    requires p'.items[i].leaseId.Some? && p.nextId <= p'.items[i].leaseId.value < p'.nextId
    requires Launched(p, CampaignOf(p, i))
    requires forall j: Id :: LeasedTo(p, j, agent) ==> j == i
    ensures PoolOk(p') && Follows(p, p')
  {
    assert forall j: Id, who :: j != i ==> (LeasedTo(p', j, who) <==> LeasedTo(p, j, who));
    assert forall j: Id, lease: Id :: j != i ==> (HeldOn(p', j, lease) <==> HeldOn(p, j, lease));
    OpenMovesKeep(p, p');
  }

  // ------------------------------------------------------------- closing an item

  /** An open item finishes together with its contact. */
  lemma {:induction false} FinishKeeps(p: Pool, p': Pool, i: Id, y: Item)
    requires PoolOk(p) && SameRows(p, p') && p'.suppressed == p.suppressed
    requires i in p.items && !Terminal(p.items[i].state) && p'.items == p.items[i := y]
    requires ItemOk(y) && y.state.Completed? && p'.contacts == p.contacts[y.contact := p'.contacts[y.contact]]
    requires p'.contacts[y.contact].completedAt.Some?
    ensures PoolOk(p') && Follows(p, p')
  {
    SameKeeps(p, p');
    FinishFollows(p, p', i, y);
    FinishCloses(p, p', i, y);
    FinishStates(p, p', i, y);
    FinishDone(p, p', i, y);
  }

  lemma {:induction false} FinishFollows(p: Pool, p': Pool, i: Id, y: Item)
    requires Integrity(p) && LeasesOk(p) && SameRows(p, p') && p'.suppressed == p.suppressed
    requires i in p.items && !Terminal(p.items[i].state) && p'.items == p.items[i := y] && y.state.Completed?
    ensures LeasesOk(p') && Follows(p, p')
  {
    NoNewLeases(p, p');
    RowsFollow(p, p');
  }

  lemma {:induction false} FinishDone(p: Pool, p': Pool, i: Id, y: Item)
    requires DoneOk(p) && SameRows(p, p') && i in p.items && p'.items == p.items[i := y]
    requires y.contact == p.items[i].contact && y.contact in p.contacts
    requires p'.contacts == p.contacts[y.contact := p'.contacts[y.contact]]
    ensures DoneOk(p')
  {
    assert ItemFor(p, i, y.contact);
    DoneKept(p, p');
  }

  lemma {:induction false} FinishStates(p: Pool, p': Pool, i: Id, y: Item)
    requires Integrity(p) && Integrity(p') && ItemsOk(p) && DncOk(p) && LaunchedOk(p) && SameRows(p, p')
    requires p'.suppressed == p.suppressed && i in p.items && p'.items == p.items[i := y] && ItemOk(y)
    requires y.state.Completed?
    requires forall j :: j in p.items ==> PhoneOf(p', j) == PhoneOf(p, j) && CampaignOf(p', j) == CampaignOf(p, j)
    ensures ItemsOk(p') && DncOk(p') && LaunchedOk(p')
  {
  }

  lemma {:induction false} FinishCloses(p: Pool, p': Pool, i: Id, y: Item)
    requires Integrity(p) && UniqueKeys(p) && ClosedOk(p) && Integrity(p') && i in p.items
    requires y.contact == p.items[i].contact
    requires y.contact in p'.contacts && p'.items == p.items[i := y]
    requires p'.contacts == p.contacts[y.contact := p'.contacts[y.contact]]
    requires p'.contacts[y.contact].completedAt.Some? <==> y.completedAt.Some?
    ensures ClosedOk(p')
  {
    assert ItemFor(p, i, y.contact);
    forall j | j in p'.items ensures p'.contacts[p'.items[j].contact].completedAt.Some? <==>
        p'.items[j].completedAt.Some? {
      assert ItemFor(p, j, p.items[j].contact);
    }
  }

  lemma {:induction false} SameKeeps(p: Pool, p': Pool)
    requires PoolOk(p) && SameRows(p, p')
    ensures Integrity(p') && UniqueKeys(p') && AttemptsOk(p') && DispositionsOk(p')
    ensures forall i :: i in p.items ==> PhoneOf(p', i) == PhoneOf(p, i) && CampaignOf(p', i) == CampaignOf(p, i)
  {
    KeysSame(p, p');
    AttemptsSame(p, p');
  }

  /** No lease was taken. */
  lemma {:induction false} NoNewLeases(p: Pool, p': Pool)
    requires LeasesOk(p) && SameRows(p, p')
    requires forall i :: i in p.items && p'.items[i].state.Leased? ==> SameLease(p.items[i], p'.items[i])
    ensures LeasesOk(p') && LeasesFollow(p, p')
  {
    assert forall j: Id, who :: LeasedTo(p', j, who) ==> LeasedTo(p, j, who);
    assert forall j: Id, lease: Id :: HeldOn(p', j, lease) ==>
        HeldOn(p, j, lease) && p.items[j].owner == p'.items[j].owner;
  }

  /** `p'` is `p` with every open item of the number closed, its contact blocked, and the
      number suppressed. */
  ghost predicate IsSwept(p: Pool, p': Pool, phone: Phone, agent: Uuid, now: int) {
    && p'.items == SweptItems(p.items, OpenItems(p, phone), now)
    && p'.contacts == SweptContacts(p.contacts, ContactsOf(p.items, OpenItems(p, phone)), agent, now)
    && p'.suppressed == p.suppressed + {phone}
    && p'.attempts == p.attempts && p'.dispositions == p.dispositions
    && p'.campaigns == p.campaigns && p'.people == p.people && p.nextId <= p'.nextId
  }

  lemma {:induction false} SweepKeeps(p: Pool, p': Pool, phone: Phone, agent: Uuid, now: int)
    requires PoolOk(p) && IsSwept(p, p', phone, agent, now)
    ensures PoolOk(p') && Follows(p, p') && SameRows(p, p')
  {
    SweepRows(p, p', phone, agent, now);
    NoNewLeases(p, p');
    RowsFollow(p, p');
    SameKeeps(p, p');
    SweepItems(p, phone, now);
    SweepCloses(p, p', phone, agent, now);
    SweepSilences(p, p', phone, agent, now);
    SweepFinishes(p, p', phone, agent, now);
  }

  lemma {:induction false} SweepFinishes(p: Pool, p': Pool, phone: Phone, agent: Uuid, now: int)
    requires DoneOk(p) && IsSwept(p, p', phone, agent, now) && SameRows(p, p')
    ensures DoneOk(p')
  {
    forall c | c in ContactsOf(p.items, OpenItems(p, phone)) ensures HasItem(p, c) {
      var i :| i in OpenItems(p, phone) && i in p.items && p.items[i].contact == c;
      assert ItemFor(p, i, c);
    }
    DoneKept(p, p');
  }

  lemma {:induction false} SweepRows(p: Pool, p': Pool, phone: Phone, agent: Uuid, now: int)
    requires IsSwept(p, p', phone, agent, now)
    ensures SameRows(p, p')
    ensures forall i :: i in p.items && p'.items[i].state.Leased? ==> p'.items[i] == p.items[i]
    ensures forall i :: i in p.items && Terminal(p.items[i].state) ==> p'.items[i] == p.items[i]
  {
  }

  lemma {:induction false} SweepItems(p: Pool, phone: Phone, now: int)
    requires ItemsOk(p)
    ensures var items' := SweptItems(p.items, OpenItems(p, phone), now);
            forall i :: i in items' ==> ItemOk(items'[i])
  {
  }

  lemma {:induction false} SweepCloses(p: Pool, p': Pool, phone: Phone, agent: Uuid, now: int)
    requires Integrity(p) && UniqueKeys(p) && ClosedOk(p) && Integrity(p') && IsSwept(p, p', phone, agent, now)
    ensures ClosedOk(p')
  {
    SweptTogether(p, phone);
  }

  /** A contact is touched by the sweep exactly when its own item is. */
  lemma {:induction false} SweptTogether(p: Pool, phone: Phone)
    requires Integrity(p) && UniqueKeys(p)
    ensures forall i :: i in p.items ==> (i in OpenItems(p, phone) <==>
        p.items[i].contact in ContactsOf(p.items, OpenItems(p, phone)))
  {
    assert forall i :: i in p.items ==> ItemFor(p, i, p.items[i].contact);
  }

  lemma {:induction false} SweepSilences(p: Pool, p': Pool, phone: Phone, agent: Uuid, now: int)
    requires Integrity(p) && DncOk(p) && LaunchedOk(p) && Integrity(p') && IsSwept(p, p', phone, agent, now)
    requires forall i :: i in p.items ==> PhoneOf(p', i) == PhoneOf(p, i) && CampaignOf(p', i) == CampaignOf(p, i)
    ensures DncOk(p') && LaunchedOk(p')
  {
  }

  // ---------------------------------------------------------------- the attempt row

  /** `p'` is `p` with attempt `a` logged and counted. */
  ghost predicate IsLogged(p: Pool, p': Pool, a: Id, t: Attempt) {
    && t.item in p.items && p'.items == p.items[t.item := Counted(p.items[t.item])]
    && p'.attempts == p.attempts[a := t] && p'.contacts == p.contacts && p'.people == p.people
    && p'.suppressed == p.suppressed && p'.campaigns == p.campaigns && p'.dispositions == p.dispositions
    && p'.nextId == p.nextId
  }

  lemma {:induction false} LoggedKeeps(p: Pool, p': Pool, a: Id, t: Attempt)
    requires PoolOk(p) && IsLogged(p, p', a, t) && a !in p.attempts && a < p.nextId
    requires forall b: Id :: !IsAttempt(p, b, t.agent, t.key)
    requires t.disposition in p.dispositions && p.dispositions[t.disposition].campaign == CampaignOf(p, t.item)
    requires Launched(p, CampaignOf(p, t.item)) && ItemOk(Counted(p.items[t.item]))
    ensures PoolOk(p')
  {
    LoggedLeases(p, p', a, t);
    LoggedRows(p, p', a, t);
    LoggedAttempts(p, p', a, t);
    LoggedStates(p, p', a, t);
    LoggedDone(p, p', a, t);
  }

  lemma {:induction false} LoggedDone(p: Pool, p': Pool, a: Id, t: Attempt)
    requires DoneOk(p) && IsLogged(p, p', a, t)
    ensures DoneOk(p')
  {
    DoneKept(p, p');
  }

  lemma {:induction false} LoggedStates(p: Pool, p': Pool, a: Id, t: Attempt)
    requires Integrity(p) && Integrity(p') && IsLogged(p, p', a, t) && ItemOk(Counted(p.items[t.item]))
    requires ItemsOk(p) && ClosedOk(p) && DncOk(p) && LaunchedOk(p) && DispositionsOk(p)
    requires Launched(p, CampaignOf(p, t.item))
    requires forall i :: i in p.items ==> PhoneOf(p', i) == PhoneOf(p, i) && CampaignOf(p', i) == CampaignOf(p, i)
    ensures ItemsOk(p') && ClosedOk(p') && DncOk(p') && LaunchedOk(p') && DispositionsOk(p')
  {
  }

  lemma {:induction false} LoggedLeases(p: Pool, p': Pool, a: Id, t: Attempt)
    requires LeasesOk(p) && IsLogged(p, p', a, t)
    ensures LeasesOk(p')
  {
    assert forall j: Id, who :: LeasedTo(p', j, who) <==> LeasedTo(p, j, who);
    assert forall j: Id, lease: Id :: HeldOn(p', j, lease) <==> HeldOn(p, j, lease);
  }

  lemma {:induction false} LoggedRows(p: Pool, p': Pool, a: Id, t: Attempt)
    requires Integrity(p) && UniqueKeys(p) && IsLogged(p, p', a, t) && a < p.nextId
    ensures Integrity(p') && UniqueKeys(p')
    ensures forall i :: i in p.items ==> PhoneOf(p', i) == PhoneOf(p, i) && CampaignOf(p', i) == CampaignOf(p, i)
  {
    assert forall i: Id, c: Id :: ItemFor(p', i, c) <==> ItemFor(p, i, c);
    assert forall c: Id, m: Id, n: Phone :: ContactFor(p', c, m, n) <==> ContactFor(p, c, m, n);
    assert forall d: Id, m: Id, code :: DispositionFor(p', d, m, code) <==> DispositionFor(p, d, m, code);
  }

  lemma {:induction false} LoggedAttempts(p: Pool, p': Pool, a: Id, t: Attempt)
    requires Integrity(p) && AttemptsOk(p) && IsLogged(p, p', a, t) && a !in p.attempts && a < p.nextId
    requires forall b: Id :: !IsAttempt(p, b, t.agent, t.key)
    requires t.disposition in p.dispositions && p.dispositions[t.disposition].campaign == CampaignOf(p, t.item)
    requires Integrity(p')
    ensures AttemptsOk(p')
  {
    LoggedKey(p, p', a, t);
    forall i | i in p.items ensures p'.items[i].attempts == |AttemptsOf(p', i)| {
      LoggedCount(p, p', a, t, i);
    }
    forall b | b in p'.attempts ensures AttemptOk(p', b) {
      if b != a {
        assert AttemptOk(p, b);
      }
    }
  }

  lemma {:induction false} LoggedKey(p: Pool, p': Pool, a: Id, t: Attempt)
    requires KeysOk(p) && IsLogged(p, p', a, t) && forall b: Id :: !IsAttempt(p, b, t.agent, t.key)
    ensures KeysOk(p')
  {
    assert forall b: Id, agent, key :: IsAttempt(p', b, agent, key) ==>
      (b == a && agent == t.agent && key == t.key) || (b != a && IsAttempt(p, b, agent, key));
  }

  lemma {:induction false} LoggedCount(p: Pool, p': Pool, a: Id, t: Attempt, i: Id)
    requires IsLogged(p, p', a, t) && a !in p.attempts && i in p.items && p.items[i].attempts == |AttemptsOf(p, i)|
    ensures p'.items[i].attempts == |AttemptsOf(p', i)|
  {
    assert AttemptsOf(p', i) == AttemptsOf(p, i) + (if i == t.item then {a} else {});
    assert a !in AttemptsOf(p, i);
  }

  /** Logging after a move: nothing old is rewritten. */
  lemma {:induction false} LoggedFollows(p: Pool, q: Pool, r: Pool, a: Id, t: Attempt)
    requires Follows(p, q) && p.nextId <= a && IsLogged(q, r, a, t)
    requires t.item in p.items && !Terminal(p.items[t.item].state)
    ensures Follows(p, r)
  {
    assert forall j: Id, lease: Id :: HeldOn(r, j, lease) ==>
        HeldOn(q, j, lease) && q.items[j].owner == r.items[j].owner;
  }

  // ------------------------------------------------------------- each operation

  lemma {:induction false} RenewKeeps(p: Pool, i: Id, agent: Uuid, lease: Id, now: int)
    requires PoolOk(p) && Renew(p, i, agent, lease, now).Ok?
    ensures var p' := Renew(p, i, agent, lease, now).value; PoolOk(p') && Follows(p, p')
  {
    ItemsMoved(p, Renew(p, i, agent, lease, now).value);
  }

  lemma {:induction false} ReturnedKeeps(p: Pool, chosen: set<Id>)
    requires PoolOk(p) && forall i :: i in chosen ==> i in p.items && p.items[i].state.Leased?
    ensures var p' := p.(items := ReturnedAll(p.items, chosen)); PoolOk(p') && Follows(p, p')
  {
    ItemsMoved(p, p.(items := ReturnedAll(p.items, chosen)));
  }

  /** After an agent leaves a campaign nothing there is theirs any more. */
  lemma {:induction false} ReleasedKeeps(p: Pool, agent: Uuid, campaign: Id, busy: set<Id>)
    requires PoolOk(p)
    ensures var p' := p.(items := ReleasedAll(p.items, WorkOf(p, agent, campaign, busy)));
            PoolOk(p') && Follows(p, p') && WorkOf(p', agent, campaign, busy) == {}
  {
    ReleasedLeavesNothing(p, agent, campaign, busy);
    ItemsMoved(p, p.(items := ReleasedAll(p.items, WorkOf(p, agent, campaign, busy))));
  }

  lemma {:induction false} ReleasedLeavesNothing(p: Pool, agent: Uuid, campaign: Id, busy: set<Id>)
    ensures var p' := p.(items := ReleasedAll(p.items, WorkOf(p, agent, campaign, busy)));
            WorkOf(p', agent, campaign, busy) == {}
  {
  }

  lemma {:induction false} SkipKeeps(p: Pool, i: Id, agent: Uuid, lease: Id, reason: string, now: int)
    requires PoolOk(p) && Skip(p, i, agent, lease, reason, now).Ok?
    ensures var p' := Skip(p, i, agent, lease, reason, now).value; PoolOk(p') && Follows(p, p')
  {
    ItemsMoved(p, Skip(p, i, agent, lease, reason, now).value);
  }

  lemma {:induction false} RescheduleKeeps(p: Pool, i: Id, retryAt: int, reason: string, now: int)
    requires PoolOk(p) && Reschedule(p, i, retryAt, reason, now).Ok?
    ensures var p' := Reschedule(p, i, retryAt, reason, now).value; PoolOk(p') && Follows(p, p')
  {
    ItemsMoved(p, Reschedule(p, i, retryAt, reason, now).value);
  }

  lemma {:induction false} AllowMoreKeeps(p: Pool, i: Id, newMax: int, reason: string, now: int)
    requires PoolOk(p) && AllowMore(p, i, newMax, reason, now).Ok?
    ensures var p' := AllowMore(p, i, newMax, reason, now).value; PoolOk(p') && Follows(p, p')
  {
    ItemsMoved(p, AllowMore(p, i, newMax, reason, now).value);
  }

  lemma {:induction false} CloseKeeps(p: Pool, i: Id, a: Id, now: int)
    requires PoolOk(p) && i in p.items && p.items[i].state.Review? && a in p.attempts
    ensures var p' := CloseWith(p, i, a, now); PoolOk(p') && Follows(p, p')
  {
    FinishKeeps(p, CloseWith(p, i, a, now), i, p.items[i].(state := Completed, completedAt := Some(now)));
  }

  /** Each ordinary outcome leaves the item well formed, now and with the attempt counted. */
  lemma {:induction false} WorkedOk(x: Item, d: Disposition, q: Request, now: int, redial: Id)
    requires ItemOk(x) && x.state.Leased? && (d.requiresCallback ==> q.callbackAt.Some?)
    requires Worked(x, d, q, x.attempts + 1, now, redial).Ok?
    ensures WorkedShape(x, Worked(x, d, q, x.attempts + 1, now, redial).value, q.agent, redial)
  {
  }

  ghost predicate WorkedShape(x: Item, y: Item, agent: Uuid, redial: Id) {
    && ItemOk(y) && ItemOk(Counted(y)) && y.contact == x.contact && y.attempts == x.attempts
    && !y.state.Suppressed? && !y.state.Cancelled?
    && (y.state.Leased? ==> y.owner == Some(agent) && y.leaseId == Some(redial))
  }

  /** With stored dispositions well formed, the two late mismatch errors cannot occur. */
  lemma {:induction false} NoLateMismatch(p: Pool, q: Request, now: int, callbacksEnabled: bool)
    requires PoolOk(p) && Refusal(p, q, now, callbacksEnabled).None?
    ensures FirstCompletion(p, q, now, callbacksEnabled).Ok?
  {
    assert DispositionOk(p.dispositions[q.disposition]);
  }

  /** The ordinary outcome applied, the attempt not yet logged. */
  ghost predicate IsMoved(p: Pool, p1: Pool, i: Id, y: Item, agent: Uuid, code: string, now: int)
    requires y.contact in p.contacts
  {
    && i in p.items && p1.items == p.items[i := y] && p1.contacts == ContactsAfter(p.contacts, y, agent, code, now)
    && p1.suppressed == p.suppressed && p1.attempts == p.attempts && p1.dispositions == p.dispositions
    && p1.campaigns == p.campaigns && p1.people == p.people && p1.staffing == p.staffing && p1.nextId == p.nextId + 2
  }

  lemma {:induction false} MovedRows(p: Pool, p1: Pool, i: Id, y: Item, agent: Uuid, code: string, now: int)
    requires i in p.items && y.contact in p.contacts && IsMoved(p, p1, i, y, agent, code, now)
    requires y.contact == p.items[i].contact && y.attempts == p.items[i].attempts
    ensures SameRows(p, p1)
  {
  }

  lemma {:induction false} MovedKeeps(p: Pool, p1: Pool, i: Id, y: Item, agent: Uuid, code: string, now: int)
    requires PoolOk(p) && LeasedTo(p, i, agent) && WorkedShape(p.items[i], y, agent, p.nextId + 1)
    requires IsMoved(p, p1, i, y, agent, code, now) && SameRows(p, p1)
    ensures PoolOk(p1) && Follows(p, p1)
  {
    if y.state.Completed? {
      FinishKeeps(p, p1, i, y);
    } else {
      assert OnlyItems(p, p1);
      if y.state.Leased? {
        ItemLeased(p, p1, i, agent);
      } else {
        ItemsMoved(p, p1);
      }
    }
  }

  /** Logging an attempt of the agent whose lease it was, after the outcome took effect. */
  lemma {:induction false} LogKeeps(p: Pool, p1: Pool, p2: Pool, t: Attempt)
    requires Integrity(p) && LaunchedOk(p) && PoolOk(p1) && Follows(p, p1) && SameRows(p, p1)
    requires IsLogged(p1, p2, p.nextId, t) && p1.nextId == p.nextId + 2
    requires LeasedTo(p, t.item, t.agent) && forall b: Id :: !IsAttempt(p, b, t.agent, t.key)
    requires t.disposition in p.dispositions && p.dispositions[t.disposition].campaign == CampaignOf(p, t.item)
    requires ItemOk(Counted(p1.items[t.item]))
    ensures PoolOk(p2) && Follows(p, p2)
  {
    LogReady(p, p1, t);
    LoggedKeeps(p1, p2, p.nextId, t);
    LoggedFollows(p, p1, p2, p.nextId, t);
  }

  lemma {:induction false} LogReady(p: Pool, p1: Pool, t: Attempt)
    requires Integrity(p) && LaunchedOk(p) && Integrity(p1) && SameRows(p, p1)
    requires LeasedTo(p, t.item, t.agent) && forall b: Id :: !IsAttempt(p, b, t.agent, t.key)
    ensures forall b: Id :: !IsAttempt(p1, b, t.agent, t.key)
    ensures t.item in p1.items && CampaignOf(p1, t.item) == CampaignOf(p, t.item) && Launched(p1, CampaignOf(p, t.item))
    ensures p.nextId !in p1.attempts
  {
    assert forall b: Id :: IsAttempt(p1, b, t.agent, t.key) <==> IsAttempt(p, b, t.agent, t.key);
  }

  lemma {:induction false} DncCompletionKeeps(p: Pool, p1: Pool, p2: Pool, q: Request, t: Attempt, now: int)
    requires PoolOk(p) && LeasedTo(p, q.item, q.agent) && forall a: Id :: !IsAttempt(p, a, q.agent, q.key)
    requires t.item == q.item && t.agent == q.agent && t.key == q.key && t.disposition in p.dispositions
    requires p.dispositions[t.disposition].campaign == CampaignOf(p, q.item)
    requires IsSwept(p, p1, PhoneOf(p, q.item), q.agent, now) && IsLogged(p1, p2, p.nextId, t)
    requires p1.nextId == p.nextId + 2
    ensures PoolOk(p2) && Follows(p, p2)
  {
    SweepKeeps(p, p1, PhoneOf(p, q.item), q.agent, now);
    assert q.item in OpenItems(p, PhoneOf(p, q.item));
    assert ItemOk(p1.items[q.item]);
    LogKeeps(p, p1, p2, t);
  }

  lemma {:induction false} CompletionKeeps(p: Pool, q: Request, now: int, callbacksEnabled: bool)
    requires PoolOk(p) && (forall a: Id :: !IsAttempt(p, a, q.agent, q.key))
    requires FirstCompletion(p, q, now, callbacksEnabled).Ok?
    ensures var p' := FirstCompletion(p, q, now, callbacksEnabled).value.0; PoolOk(p') && Follows(p, p')
  {
    var p2 := FirstCompletion(p, q, now, callbacksEnabled).value.0;
    if p.dispositions[q.disposition].causesDnc {
      DncCase(p, p2, q, now, callbacksEnabled);
    } else {
      OrdinaryCase(p, p2, q, now, callbacksEnabled);
    }
  }

  lemma {:induction false} DncCase(p: Pool, p2: Pool, q: Request, now: int, callbacksEnabled: bool)
    requires PoolOk(p) && (forall a: Id :: !IsAttempt(p, a, q.agent, q.key))
    requires FirstCompletion(p, q, now, callbacksEnabled).Ok? && p.dispositions[q.disposition].causesDnc
    requires p2 == FirstCompletion(p, q, now, callbacksEnabled).value.0
    ensures PoolOk(p2) && Follows(p, p2)
  {
    var p1 := p2.(items := SweptItems(p.items, OpenItems(p, PhoneOf(p, q.item)), now), attempts := p.attempts);
    DncCompletionKeeps(p, p1, p2, q, p2.attempts[p.nextId], now);
  }

  lemma {:induction false} OrdinaryCase(p: Pool, p2: Pool, q: Request, now: int, callbacksEnabled: bool)
    requires PoolOk(p) && (forall a: Id :: !IsAttempt(p, a, q.agent, q.key))
    requires FirstCompletion(p, q, now, callbacksEnabled).Ok? && !p.dispositions[q.disposition].causesDnc
    requires p2 == FirstCompletion(p, q, now, callbacksEnabled).value.0
    ensures PoolOk(p2) && Follows(p, p2)
  {
    var y := OrdinaryOutcome(p, q, now, callbacksEnabled);
    var p1 := OrdinaryShape(p, p2, q, y, now, callbacksEnabled);
    MovedRows(p, p1, q.item, y, q.agent, p.dispositions[q.disposition].code, now);
    MovedKeeps(p, p1, q.item, y, q.agent, p.dispositions[q.disposition].code, now);
    LogKeeps(p, p1, p2, p2.attempts[p.nextId]);
  }

  lemma {:induction false} OrdinaryOutcome(p: Pool, q: Request, now: int, callbacksEnabled: bool) returns (y: Item)
    requires Integrity(p) && ItemsOk(p)
    requires FirstCompletion(p, q, now, callbacksEnabled).Ok? && !p.dispositions[q.disposition].causesDnc
    ensures LeasedTo(p, q.item, q.agent) && WorkedShape(p.items[q.item], y, q.agent, p.nextId + 1)
    ensures q.disposition in p.dispositions && p.dispositions[q.disposition].campaign == CampaignOf(p, q.item)
    ensures var x := p.items[q.item];
            Worked(x, p.dispositions[q.disposition], q, x.attempts + 1, now, p.nextId + 1) == Ok(y)
  {
    var x, d := p.items[q.item], p.dispositions[q.disposition];
    assert ItemOk(x);
    WorkedOk(x, d, q, now, p.nextId + 1);
    y := Worked(x, d, q, x.attempts + 1, now, p.nextId + 1).value;
  }

  lemma {:induction false} OrdinaryShape(p: Pool, p2: Pool, q: Request, y: Item, now: int, callbacksEnabled: bool)
    returns (p1: Pool)
    requires Integrity(p)
    requires FirstCompletion(p, q, now, callbacksEnabled).Ok? && !p.dispositions[q.disposition].causesDnc
    requires p2 == FirstCompletion(p, q, now, callbacksEnabled).value.0 && y.contact in p.contacts
    requires var x := p.items[q.item];
             Worked(x, p.dispositions[q.disposition], q, x.attempts + 1, now, p.nextId + 1) == Ok(y)
    ensures q.disposition in p.dispositions
    ensures IsMoved(p, p1, q.item, y, q.agent, p.dispositions[q.disposition].code, now)
    ensures p.nextId in p2.attempts
    ensures var t := p2.attempts[p.nextId];
            && t.item == q.item && t.agent == q.agent && t.key == q.key && t.disposition == q.disposition
            && IsLogged(p1, p2, p.nextId, t)
  {
    p1 := p2.(items := p.items[q.item := y], attempts := p.attempts);
  }
}
