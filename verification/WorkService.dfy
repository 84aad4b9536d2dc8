/** The work operations as they run, updating the tables in place, each proved to do what
    its rule says. */
module WorkService {
  import opened Basics
  import opened WorkStates
  import opened PoolState
  import opened WorkRules

  method RenewLease(db: Database, i: Id, agent: Uuid, lease: Id, now: int) returns (r: Result<Id, WorkError>)
    requires Integrity(db.Contents())
    modifies db`items
    ensures match Renew(old(db.Contents()), i, agent, lease, now)
            case Ok(p) => r == Ok(i) && db.Contents() == p
            case Err(e) => r == Err(e) && db.Contents() == old(db.Contents())
  {
    if i !in db.items || !db.items[i].state.Leased? || db.items[i].owner != Some(agent)
        || db.items[i].leaseId != Some(lease)
       || db.items[i].expires.None? || db.items[i].expires.value <= now
    {
      return Err(LeaseConflict);
    }
    db.items := db.items[i := db.items[i].(expires := Some(now + LEASE_SECONDS))];
    r := Ok(i);
  }

  /** Every expired lease no other transaction has locked is taken back, and counted. */
  method ReclaimExpiredLeases(db: Database, busy: set<Id>, now: int) returns (count: nat)
    requires Integrity(db.Contents())
    modifies db`items
    ensures var chosen := ExpiredLeases(old(db.Contents()), busy, now);
            count == |chosen| && db.items == ReturnedAll(old(db.items), chosen)
    ensures ExpiredLeases(db.Contents(), busy, now) == {}
  {
    count := TakeBack(db, ExpiredLeases(db.Contents(), busy, now));
  }

  /** Disabling a user takes back every lease they hold. */
  method ReclaimLeasesForUser(db: Database, agent: Uuid, busy: set<Id>) returns (count: nat)
    requires Integrity(db.Contents())
    modifies db`items
    ensures var chosen := LeasesOf(old(db.Contents()), agent, busy);
            count == |chosen| && db.items == ReturnedAll(old(db.items), chosen)
    ensures LeasesOf(db.Contents(), agent, busy) == {}
  {
    count := TakeBack(db, LeasesOf(db.Contents(), agent, busy));
  }

  lemma {:induction false} OneMoreTaken(items: map<Id, Item>, done: set<Id>, i: Id)
    requires i in items && i !in done
    ensures ReturnedAll(items, done)[i := Returned(items[i])] == ReturnedAll(items, done + {i})
    ensures ReleasedAll(items, done)[i := Released(items[i])] == ReleasedAll(items, done + {i})
  {
  }

  method TakeBack(db: Database, chosen: set<Id>) returns (count: nat)
    requires forall i :: i in chosen ==> i in db.items
    modifies db`items
    ensures count == |chosen| && db.items == ReturnedAll(old(db.items), chosen)
  {
    ghost var items := db.items;
    var todo, done: set<Id> := chosen, {};
    count := 0;
    while todo != {}
      invariant todo !! done && todo + done == chosen && count == |done|
      invariant db.items == ReturnedAll(items, done)
    {
      var i :| i in todo;
      var item := db.items[i];
      OneMoreTaken(items, done, i);
      db.items := db.items[i := Unleased(item).(state := if item.keptBy.Some? then CallbackWait else Queued)];
      count := count + 1;
      todo, done := todo - {i}, done + {i};
    }
  }

  /** An agent leaves a campaign: their leases and callbacks there go back to its queue. */
  method ReleaseCampaignWorkForAgent(db: Database, agent: Uuid, campaign: Id, busy: set<Id>) returns (count: nat)
    requires Integrity(db.Contents())
    modifies db`items
    ensures var chosen := WorkOf(old(db.Contents()), agent, campaign, busy);
            count == |chosen| && db.items == ReleasedAll(old(db.items), chosen)
    ensures WorkOf(db.Contents(), agent, campaign, busy) == {}
  {
    count := SendBack(db, WorkOf(db.Contents(), agent, campaign, busy));
  }

  method SendBack(db: Database, chosen: set<Id>) returns (count: nat)
    requires forall i :: i in chosen ==> i in db.items
    modifies db`items
    ensures count == |chosen| && db.items == ReleasedAll(old(db.items), chosen)
  {
    ghost var items := db.items;
    var todo, done: set<Id> := chosen, {};
    count := 0;
    while todo != {}
      invariant todo !! done && todo + done == chosen && count == |done|
      invariant db.items == ReleasedAll(items, done)
    {
      var i :| i in todo;
      OneMoreTaken(items, done, i);
      db.items := db.items[i := Unleased(db.items[i]).(state := Queued, keptBy := None, due := None)];
      count := count + 1;
      todo, done := todo - {i}, done + {i};
    }
  }

  method SkipWorkItem(db: Database, i: Id, agent: Uuid, lease: Id, reason: string, now: int)
    returns (r: Result<Id, WorkError>)
    requires Integrity(db.Contents())
    modifies db`items
    ensures match Skip(old(db.Contents()), i, agent, lease, reason, now)
            case Ok(p) => r == Ok(i) && db.Contents() == p
            case Err(e) => r == Err(e) && db.Contents() == old(db.Contents())
  {
    if Blank(reason) {
      return Err(MissingField);
    }
    if !Holds(db.Contents(), i, agent, lease, now) {
      return Err(LeaseConflict);
    }
    var x := db.items[i].(skips := db.items[i].skips + 1);
    x := x.(state := if x.skips >= MAX_SKIPS then Review else Queued);
    db.items := db.items[i := Unleased(x)];
    r := Ok(i);
  }

  method RescheduleReviewItem(db: Database, i: Id, retryAt: int, reason: string, now: int)
    returns (r: Result<Id, WorkError>)
    requires Integrity(db.Contents())
    modifies db`items
    ensures match Reschedule(old(db.Contents()), i, retryAt, reason, now)
            case Ok(p) => r == Ok(i) && db.Contents() == p
            case Err(e) => r == Err(e) && db.Contents() == old(db.Contents())
  {
    if Blank(reason) || retryAt <= now {
      return Err(MissingField);
    }
    if i !in db.items || !db.items[i].state.Review? {
      return Err(NotInReview);
    }
    db.items := db.items[i := db.items[i].(state := RetryWait, due := Some(retryAt), keptBy := None)];
    r := Ok(i);
  }

  method IncreaseReviewItemAttempts(db: Database, i: Id, newMax: int, reason: string, now: int)
    returns (r: Result<Id, WorkError>)
    requires Integrity(db.Contents())
    modifies db`items
    ensures match AllowMore(old(db.Contents()), i, newMax, reason, now)
            case Ok(p) => r == Ok(i) && db.Contents() == p
            case Err(e) => r == Err(e) && db.Contents() == old(db.Contents())
  {
    if Blank(reason) {
      return Err(MissingField);
    }
    if i !in db.items || !db.items[i].state.Review? {
      return Err(NotInReview);
    }
    if newMax <= db.items[i].attempts {
      return Err(MissingField);
    }
    db.items := db.items[i := db.items[i].(maxAttempts := newMax, state := RetryWait, due := Some(now),
        keptBy := None)];
    r := Ok(i);
  }

  /** Closing a reviewed item credits the agent and outcome of its last attempt. */
  method CloseReviewItem(db: Database, i: Id, reason: string, now: int) returns (r: Result<Id, WorkError>)
    requires Integrity(db.Contents()) && AttemptsOk(db.Contents())
    modifies db`items, db`contacts
    ensures r.Err? ==> db.Contents() == old(db.Contents())
    ensures var was := old(db.Contents());
            if Blank(reason) then r == Err(MissingField)
            else if i !in was.items || !was.items[i].state.Review? then r == Err(NotInReview)
            else if was.items[i].attempts == 0 then r == Err(NoAttempts)
            else r == Ok(i) && exists a :: Latest(was, i, a) && db.Contents() == CloseWith(was, i, a, now)
  {
    ghost var p := db.Contents();
    if Blank(reason) {
      return Err(MissingField);
    }
    if i !in db.items || !db.items[i].state.Review? {
      return Err(NotInReview);
    }
    var last := LastAttempt(db, i);
    assert p.items[i].attempts == |AttemptsOf(p, i)|;
    if last.None? {
      assert AttemptsOf(p, i) == {};
      return Err(NoAttempts);
    }
    var t := db.attempts[last.value];
    assert last.value in AttemptsOf(p, i);
    var y := db.items[i].(state := Completed, completedAt := Some(now));
    db.items := db.items[i := y];
    db.contacts := db.contacts[y.contact := CalledContact(db.contacts[y.contact], t.agent, t.outcome, now)];
    r := Ok(i);
  }

  method LastAttempt(db: Database, i: Id) returns (r: Option<Id>)
    ensures r.None? <==> AttemptsOf(db.Contents(), i) == {}
    ensures r.Some? ==> Latest(db.Contents(), i, r.value)
  {
    var todo := AttemptsOf(db.Contents(), i);
    ghost var seen: set<Id> := {};
    r := None;
    while todo != {}
      invariant todo + seen == AttemptsOf(db.Contents(), i)
      invariant r.None? <==> seen == {}
      invariant r.Some? ==> r.value in seen && forall b :: b in seen ==>
          db.attempts[b].created <= db.attempts[r.value].created
    {
      var a :| a in todo;
      if r.None? || db.attempts[r.value].created < db.attempts[a].created {
        r := Some(a);
      }
      todo := todo - {a};
      seen := seen + {a};
    }
  }

  // ------------------------------------------------------------------- completion

  /** Suppress the number and close every open item of it, with its contact. */
  method SuppressContactEverywhere(db: Database, phone: Phone, agent: Uuid, now: int)
    requires Integrity(db.Contents())
    modifies db`items, db`contacts, db`suppressed
    ensures var was := old(db.Contents());
            && db.items == SweptItems(was.items, OpenItems(was, phone), now)
            && db.contacts == SweptContacts(was.contacts, ContactsOf(was.items, OpenItems(was, phone)), agent, now)
            && db.suppressed == was.suppressed + {phone}
  {
    ghost var p := db.Contents();
    if phone !in db.suppressed {
      db.suppressed := db.suppressed + {phone};
    }
    assert db.suppressed == p.suppressed + {phone};
    var todo := OpenItems(db.Contents(), phone);
    assert todo == OpenItems(p, phone);
    ghost var done: set<Id> := {};
    while todo != {}
      invariant todo !! done && todo + done == OpenItems(p, phone) && db.suppressed == p.suppressed + {phone}
      invariant db.items == SweptItems(p.items, done, now)
      invariant db.contacts == SweptContacts(p.contacts, ContactsOf(p.items, done), agent, now)
    {
      var i :| i in todo;
      var item := db.items[i];
      SweepOneMore(p, done, i, agent, now);
      db.items := db.items[i := Unleased(item).(state := Suppressed, completedAt := Some(now))];
      var contact := db.contacts[item.contact];
      db.contacts := db.contacts[item.contact :=
        contact.(status := Blocked, completedAt := Some(now), completedBy := Some(agent), finalCode := Some(DNC_CODE))];
      todo := todo - {i};
      done := done + {i};
    }
  }

  lemma {:induction false} SweepOneMore(p: Pool, done: set<Id>, i: Id, agent: Uuid, now: int)
    requires i in p.items && i !in done && p.items[i].contact in p.contacts
    ensures SweptItems(p.items, done, now)[i := ClosedBySweep(p.items[i], now)] == SweptItems(p.items, done + {i}, now)
    ensures var c := p.items[i].contact;
            var swept := SweptContacts(p.contacts, ContactsOf(p.items, done), agent, now);
            swept[c := BlockedContact(swept[c], agent, now)] ==
                SweptContacts(p.contacts, ContactsOf(p.items, done + {i}), agent, now)
  {
    assert ContactsOf(p.items, done + {i}) == ContactsOf(p.items, done) + {p.items[i].contact};
  }

  lemma {:induction false} SweepOfCounted(p: Pool, q: Pool, i: Id, now: int)
    requires Integrity(p) && i in p.items && q.items == p.items[i := Counted(p.items[i])] && q.contacts == p.contacts
    ensures var phone := PhoneOf(p, i);
            && OpenItems(q, phone) == OpenItems(p, phone)
            && ContactsOf(q.items, OpenItems(p, phone)) == ContactsOf(p.items, OpenItems(p, phone))
            && SweptItems(q.items, OpenItems(p, phone), now)
               == SweptItems(p.items, OpenItems(p, phone),
                   now)[i := Counted(SweptItems(p.items, OpenItems(p, phone), now)[i])]
  {
    SameOpenItems(p, q, PhoneOf(p, i), i);
    SweptCounted(p.items, OpenItems(p, PhoneOf(p, i)), i, now);
  }

  lemma {:induction false} SameOpenItems(p: Pool, q: Pool, phone: Phone, i: Id)
    requires Integrity(p) && i in p.items && q.items == p.items[i := Counted(p.items[i])] && q.contacts == p.contacts
    ensures OpenItems(q, phone) == OpenItems(p, phone)
    ensures ContactsOf(q.items, OpenItems(p, phone)) == ContactsOf(p.items, OpenItems(p, phone))
  {
    assert forall j :: j in OpenItems(p, phone) ==> q.items[j].contact == p.items[j].contact;
  }

  lemma {:induction false} SweptCounted(items: map<Id, Item>, chosen: set<Id>, i: Id, now: int)
    requires i in items
    ensures SweptItems(items[i := Counted(items[i])], chosen, now)
            == SweptItems(items, chosen, now)[i := Counted(SweptItems(items, chosen, now)[i])]
  {
  }

  /** One transaction: replay a stored attempt, or check the lease and the outcome, log the
      attempt, and move the item on. An error rolls everything back. */
  method CompleteWorkItem(db: Database, q: Request, now: int, callbacksEnabled: bool)
    returns (r: Result<Completion, WorkError>)
    requires Integrity(db.Contents()) && KeysOk(db.Contents())
    modifies db
    ensures match Complete(old(db.Contents()), q, now, callbacksEnabled)
            case Ok(done) => r == Ok(done.1) && db.Contents() == done.0
            case Err(e) => r == Err(e) && db.Contents() == old(db.Contents())
  {
    var p := db.Contents();
    var stored := set a | a in db.attempts && db.attempts[a].agent == q.agent && db.attempts[a].key == q.key;
    if stored != {} {
      var a :| a in stored;
      assert IsAttempt(p, a, q.agent, q.key);
      r := Replay(p, a, q.item);
      return;
    }
    assert forall a: Id :: IsAttempt(p, a, q.agent, q.key) ==> a in stored;
    var refusal := CheckCompletion(db, q, now, callbacksEnabled);
    if refusal.Some? {
      return Err(refusal.value);
    }
    r := FirstComplete(db, q, now, callbacksEnabled);
  }

  /** The lease and the outcome, checked in this order. */
  method CheckCompletion(db: Database, q: Request, now: int, callbacksEnabled: bool) returns (no: Option<WorkError>)
    requires Integrity(db.Contents())
    ensures no == Refusal(db.Contents(), q, now, callbacksEnabled)
  {
    if q.item !in db.items {
      return Some(LeaseConflict);
    }
    var x := db.items[q.item];
    if !x.state.Leased? || x.owner != Some(q.agent) || x.leaseId != Some(q.lease) {
      return Some(LeaseConflict);
    }
    if x.expires.Some? && x.expires.value <= now {
      return Some(LeaseConflict);
    }
    if q.disposition !in db.dispositions
      || db.dispositions[q.disposition].campaign != db.contacts[x.contact].campaign
    {
      return Some(DispositionMismatch);
    }
    var d := db.dispositions[q.disposition];
    if !d.active {
      return Some(DispositionMismatch);
    }
    if d.requiresNotes && q.notes == "" {
      return Some(MissingField);
    }
    if q.callbackAt.Some? && !callbacksEnabled {
      return Some(CallbacksDisabled);
    }
    if d.requiresCallback && q.callbackAt.None? {
      return Some(MissingField);
    }
    if d.requiresCallback && q.callbackAt.value <= now {
      return Some(MissingField);
    }
    if q.duration.Some? && q.duration.value < 0 {
      return Some(MissingField);
    }
    no := None;
  }

  method FirstComplete(db: Database, q: Request, now: int, callbacksEnabled: bool)
    returns (r: Result<Completion, WorkError>)
    requires Integrity(db.Contents()) && Refusal(db.Contents(), q, now, callbacksEnabled).None?
    modifies db
    ensures match FirstCompletion(old(db.Contents()), q, now, callbacksEnabled)
            case Ok(done) => r == Ok(done.1) && db.Contents() == done.0
            case Err(e) => r == Err(e) && db.Contents() == old(db.Contents())
  {
    var p := db.Contents();
    var x, d := db.items[q.item], db.dispositions[q.disposition];
    ghost var items;
    var moved;
    moved, items := ApplyOutcome(db, q, d, now, db.nextId + 1);
    if moved.Err? {
      db.Rollback(p);
      return Err(moved.error);
    }
    FirstIs(p, q, now, callbacksEnabled, items, db.contacts, db.suppressed);
    var done := LogAttempt(db, q, d, x, p, items, now);
    r := Ok(done);
  }

  /** What the outcome made of the tables is what the rule logs. */
  lemma {:induction false} FirstIs(p: Pool, q: Request, now: int, callbacksEnabled: bool, items: map<Id, Item>,
                                   contacts: map<Id, CampaignContact>, suppressed: set<Phone>)
    requires Integrity(p) && Refusal(p, q, now, callbacksEnabled).None? && q.item in items
    requires var x, d, chosen := p.items[q.item], p.dispositions[q.disposition], OpenItems(p, PhoneOf(p, q.item));
             if d.causesDnc then
               && items == SweptItems(p.items, chosen, now) && suppressed == p.suppressed + {PhoneOf(p, q.item)}
               && contacts == SweptContacts(p.contacts, ContactsOf(p.items, chosen), q.agent, now)
             else
               match Worked(x, d, q, x.attempts + 1, now, p.nextId + 1)
               case Ok(y) => items == p.items[q.item := y] && suppressed == p.suppressed
                   && contacts == ContactsAfter(p.contacts, y, q.agent, d.code, now)
               case Err(_) => false
    ensures FirstCompletion(p, q, now, callbacksEnabled) ==
            Ok(Conclude(p, q, p.dispositions[q.disposition], items, contacts, suppressed, now))
  {
  }

  /** The attempt row, with the lease reason the call was made under and the final outcome. */
  method LogAttempt(db: Database, q: Request, d: Disposition, x: Item, ghost p: Pool, ghost items: map<Id, Item>,
                    now: int)
    returns (r: Completion)
    requires q.item in p.items && x == p.items[q.item]
    requires q.item in items && db.items == items[q.item := Counted(items[q.item])]
    requires p == db.Contents().(items := p.items, contacts := p.contacts, suppressed := p.suppressed)
    modifies db`attempts, db`nextId
    ensures (db.Contents(), r) == Conclude(p, q, d, items, db.contacts, db.suppressed, now)
  {
    var y := db.items[q.item];
    var a := db.nextId;
    var renewed := y.state.Leased?;
    var t := Attempt(q.item, q.agent, q.key, q.disposition, d.code, d.causesDnc,
                     if d.requiresCallback then q.callbackAt else None, now, x.reason,
                     y.state, if renewed then y.leaseId else None, if renewed then y.expires else None);
    db.attempts := db.attempts[a := t];
    db.nextId := db.nextId + 2;
    r := Completion(a, y.state, t.outcome, t.callbackAt, if y.state.RetryWait? then y.due else None,
                    t.resultLease, t.resultExpires, NextStep(y.state));
  }

  /** Count the attempt on the item, then do what the outcome asks for. */
  method ApplyOutcome(db: Database, q: Request, d: Disposition, now: int, redial: Id)
    returns (r: Result<Id, WorkError>, ghost items: map<Id, Item>)
    requires Integrity(db.Contents()) && q.item in db.items && db.items[q.item].state.Leased?
    modifies db`items, db`contacts, db`suppressed
    ensures r.Ok? ==> q.item in items && db.items == items[q.item := Counted(items[q.item])]
    ensures d.causesDnc ==>
              var was := old(db.Contents());
              var chosen := OpenItems(was, PhoneOf(was, q.item));
              && r.Ok? && items == SweptItems(was.items, chosen, now)
              && db.contacts == SweptContacts(was.contacts, ContactsOf(was.items, chosen), q.agent, now)
              && db.suppressed == was.suppressed + {PhoneOf(was, q.item)}
    ensures !d.causesDnc ==>
              var x := old(db.items[q.item]);
              match Worked(x, d, q, x.attempts + 1, now, redial)
              case Ok(y) =>
                && r.Ok? && items == old(db.items)[q.item := y] && db.suppressed == old(db.suppressed)
                && db.contacts == ContactsAfter(old(db.contacts), y, q.agent, d.code, now)
              case Err(e) => r == Err(e)
  {
    ghost var p := db.Contents();
    db.items := db.items[q.item := Counted(db.items[q.item])];
    if d.causesDnc {
      SweepOfCounted(p, db.Contents(), q.item, now);
      SuppressContactEverywhere(db, db.contacts[db.items[q.item].contact].phone, q.agent, now);
      items := SweptItems(p.items, OpenItems(p, PhoneOf(p, q.item)), now);
      r := Ok(q.item);
    } else {
      r := MoveOn(db, q, d, now, redial);
      items := p.items;
      if r.Ok? {
        var x := p.items[q.item];
        items := p.items[q.item := Worked(x, d, q, x.attempts + 1, now, redial).value];
      }
    }
  }

  /** The outcomes other than do not call; the attempt is already counted on the item. */
  method MoveOn(db: Database, q: Request, d: Disposition, now: int, redial: Id) returns (r: Result<Id, WorkError>)
    requires q.item in db.items && db.items[q.item].contact in db.contacts && db.items[q.item].attempts > 0
    modifies db`items, db`contacts
    ensures var x := old(db.items[q.item]);
            match Worked(x.(attempts := x.attempts - 1), d, q, x.attempts, now, redial)
            case Ok(y) =>
              && r.Ok? && db.items == old(db.items)[q.item := Counted(y)]
              && db.contacts == ContactsAfter(old(db.contacts), y, q.agent, d.code, now)
            case Err(e) => r == Err(e)
  {
    var x := db.items[q.item];
    var code := if d.nextAction.None? || d.nextAction.value == "" then "complete" else d.nextAction.value;
    var spent := x.attempts >= x.maxAttempts;
    r := Ok(q.item);
    if d.requiresCallback {
      x := Unleased(x).(state := CallbackWait, due := q.callbackAt, keptBy := Some(q.agent));
    } else {
      x := Unleased(x);
      if code == "review" {
        x := x.(state := Review);
      } else if code == "requeue" {
        x := x.(state := if spent then Review else Queued);
      } else if code == "retry_wait" {
        if spent {
          x := x.(state := Review);
        } else if d.retryDelay.None? {
          return Err(DispositionMismatch);
        } else {
          x := x.(state := RetryWait, due := Some(now + d.retryDelay.value * 60), keptBy := None);
        }
      } else if code == "immediate_redial" {
        if spent {
          x := x.(state := Review);
        } else {
          x := x.(state := Leased, owner := Some(q.agent), leaseId := Some(redial),
                  expires := Some(now + LEASE_SECONDS), reason := Some(ImmediateRedial));
        }
      } else if code == "complete" {
        x := x.(state := Completed, completedAt := Some(now));
        db.contacts := db.contacts[x.contact := CalledContact(db.contacts[x.contact], q.agent, d.code, now)];
      } else {
        return Err(DispositionMismatch);
      }
    }
    db.items := db.items[q.item := x];
  }
}
