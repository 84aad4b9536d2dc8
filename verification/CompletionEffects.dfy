/** When a completion is accepted, which error it meets otherwise, and what it leaves behind, in
    terms of the rows' own fields. */
module CompletionEffects {
  import opened Basics
  import opened WorkStates
  import opened PoolState
  import opened WorkRules
  import opened WorkInvariant

  // ------------------------------------------------------------------- the guards

  /** The agent's own lease on the item under that lease id, not run out. */
  predicate LeaseIsLive(p: Pool, i: Id, agent: Uuid, lease: Id, now: int) {
    && i in p.items && p.items[i].state.Leased? && p.items[i].owner == Some(agent) && p.items[i].leaseId == Some(lease)
    && p.items[i].expires.Some? && now < p.items[i].expires.value
  }

  /** The outcome exists, belongs to the item's campaign, and is active. */
  predicate OutcomeFits(p: Pool, i: Id, d: Id)
    requires Integrity(p)
  {
    && i in p.items && d in p.dispositions && p.dispositions[d].active
    && p.dispositions[d].campaign == p.contacts[p.items[i].contact].campaign
  }

  predicate NotesGiven(d: Disposition, q: Request) {
    d.requiresNotes ==> q.notes != ""
  }

  predicate TimesFit(d: Disposition, q: Request, now: int) {
    && (d.requiresCallback ==> q.callbackAt.Some? && now < q.callbackAt.value)
    && (q.duration.Some? ==> 0 <= q.duration.value)
  }

  ghost predicate NewKey(p: Pool, q: Request) {
    forall a :: a in p.attempts ==> p.attempts[a].agent != q.agent || p.attempts[a].key != q.key
  }

  /** A completion under a new key goes through iff the caller's lease is live, the outcome fits,
      and notes, times and the callback flag are as it demands; each failing guard has its error. */
  lemma {:induction false} CompletesIff(p: Pool, q: Request, now: int, callbacks: bool)
    requires PoolOk(p) && NewKey(p, q)
    ensures var r, live := Complete(p, q, now, callbacks), LeaseIsLive(p, q.item, q.agent, q.lease, now);
            && (r == Err(LeaseConflict) <==> !live)
            && (r == Err(DispositionMismatch) <==> live && !OutcomeFits(p, q.item, q.disposition))
            && (live && OutcomeFits(p, q.item, q.disposition) ==>
                  var d := p.dispositions[q.disposition];
                  && (r.Ok? <==> NotesGiven(d, q) && (q.callbackAt.Some? ==> callbacks) && TimesFit(d, q, now))
                  && (r == Err(CallbacksDisabled) <==> NotesGiven(d, q) && q.callbackAt.Some? && !callbacks)
                  && (r == Err(MissingField) <==>
                        !NotesGiven(d, q) || (!TimesFit(d, q, now) && (q.callbackAt.Some? ==> callbacks))))
  {
    assert forall a :: !IsAttempt(p, a, q.agent, q.key);
    assert q.item in p.items ==> ItemOk(p.items[q.item]);
    if Refusal(p, q, now, callbacks).None? {
      NoLateMismatch(p, q, now, callbacks);
    }
  }

  /** A completion under an old key answers from the stored attempt, or is refused when that was
      about another item; either way nothing changes. */
  lemma {:induction false} OldKeyAnswers(p: Pool, q: Request, now: int, callbacks: bool, a: Id)
    requires PoolOk(p) && a in p.attempts && p.attempts[a].agent == q.agent && p.attempts[a].key == q.key
    ensures var r := Complete(p, q, now, callbacks);
            && (r == Err(KeyReused) <==> p.attempts[a].item != q.item)
            && (r.Ok? <==> p.attempts[a].item == q.item)
            && (r.Ok? ==>
                  && r.value.0 == p && r.value.1.attempt == a && r.value.1.state == p.attempts[a].result
                  && r.value.1.outcome == p.attempts[a].outcome)
  {
    assert IsAttempt(p, a, q.agent, q.key);
  }

  // ------------------------------------------------------------------ the outcomes

  /** Where an ordinary outcome sends the item, with the attempt just made counted. */
  lemma {:induction false} OrdinaryOutcomes(x: Item, d: Disposition, q: Request, now: int, redial: Id)
    requires DispositionOk(d)
    ensures var r := Worked(x, d, q, x.attempts + 1, now, redial);
            && r.Ok? && var y := r.value;
               && y.contact == x.contact && y.maxAttempts == x.maxAttempts && y.skips == x.skips
               && y.priority == x.priority && y.created == x.created
               && (d.requiresCallback ==> y.state.CallbackWait? && y.due == q.callbackAt && y.keptBy == Some(q.agent))
               && (!d.requiresCallback && d.nextAction in {None, Some(""), Some("complete")} ==>
                     y.state.Completed? && y.completedAt == Some(now))
               && (!d.requiresCallback && d.nextAction == Some("review") ==> y.state.Review?)
               && (!d.requiresCallback && Action(d) in {"requeue", "retry_wait", "immediate_redial"} ==>
                     if x.maxAttempts <= x.attempts + 1 then y.state.Review?
                     else if d.nextAction == Some("requeue") then y.state.Queued?
                     else if d.nextAction == Some("retry_wait") then
                       y.state.RetryWait? && y.due == Some(now + d.retryDelay.value * 60) && y.keptBy.None?
                     else
                       && y.state.Leased? && y.owner == Some(q.agent) && y.leaseId == Some(redial)
                       && y.expires == Some(now + LEASE_SECONDS) && y.reason == Some(ImmediateRedial))
  {
  }

  // --------------------------------------------------------- what a completion does

  /** The attempt row says who called, under which key and lease reason, with which outcome, and
      where the item went; it is counted on the item. */
  lemma {:induction false} AttemptIsLogged(p: Pool, p': Pool, q: Request, now: int, callbacks: bool, c: Completion)
    requires Integrity(p) && NewKey(p, q) && Complete(p, q, now, callbacks) == Ok((p', c))
    ensures q.item in p.items && q.item in p'.items && q.disposition in p.dispositions
    ensures c.attempt == p.nextId && p'.attempts == p.attempts[c.attempt := p'.attempts[c.attempt]]
    ensures var t, d, y := p'.attempts[c.attempt], p.dispositions[q.disposition], p'.items[q.item];
            && t.item == q.item && t.agent == q.agent && t.key == q.key && t.disposition == q.disposition
            && t.outcome == d.code && (t.dnc <==> d.causesDnc) && t.created == now
            && t.source == p.items[q.item].reason
            && t.callbackAt == (if d.requiresCallback then q.callbackAt else None) && t.result == y.state
            && AnswerSays(c, y, t)
  {
    assert forall a :: !IsAttempt(p, a, q.agent, q.key);
  }

  /** The answer shows the item as it is now, and what the agent does next. */
  predicate AnswerSays(c: Completion, y: Item, t: Attempt) {
    && c.state == y.state && c.outcome == t.outcome && c.callbackAt == t.callbackAt
    && c.retryAt == (if y.state.RetryWait? then y.due else None)
    && c.redialLease == (if y.state.Leased? then y.leaseId else None)
    && c.redialExpires == (if y.state.Leased? then y.expires else None)
    && (c.next == RedialReady <==> y.state.Leased?) && (c.next == CallbackScheduled <==> y.state.CallbackWait?)
    && (c.next == RetryScheduled <==> y.state.RetryWait? || y.state.Queued?)
    && (c.next == ReviewStep <==> y.state.Review?) && (c.next == SuppressedStep <==> y.state.Suppressed?)
  }

  lemma {:induction false} CountedOnce(p: Pool, p': Pool, q: Request, now: int, callbacks: bool, c: Completion)
    requires Integrity(p) && NewKey(p, q) && Complete(p, q, now, callbacks) == Ok((p', c))
    ensures q.item in p.items && q.item in p'.items && p'.items[q.item].attempts == p.items[q.item].attempts + 1
  {
    assert forall a :: !IsAttempt(p, a, q.agent, q.key);
  }

  /** A do-not-call outcome suppresses the number and closes every open item of it, in whichever
      campaign; it touches no other item. */
  lemma {:induction false} DncClosesTheNumber(p: Pool, p': Pool, q: Request, now: int, callbacks: bool, c: Completion)
    requires Integrity(p) && NewKey(p, q) && Complete(p, q, now, callbacks) == Ok((p', c))
    requires p.dispositions[q.disposition].causesDnc
    ensures q.item in p.items && p'.suppressed == p.suppressed + {PhoneOf(p, q.item)}
    ensures p'.items.Keys == p.items.Keys
    ensures forall i :: i in p.items ==>
              var x, y := p.items[i], p'.items[i];
              if PhoneOf(p, i) == PhoneOf(p, q.item) && !Terminal(x.state) then
                && y.state.Suppressed? && y.owner.None? && y.leaseId.None? && y.completedAt == Some(now)
                && y.contact == x.contact && y.attempts == if i == q.item then x.attempts + 1 else x.attempts
              else y == x
  {
    assert forall a :: !IsAttempt(p, a, q.agent, q.key);
  }

  /** The contact has an open item, and this number. */
  ghost predicate HasOpenItem(p: Pool, m: Id, phone: Phone) {
    && m in p.contacts && p.contacts[m].phone == phone
    && exists i :: i in p.items && p.items[i].contact == m && !Terminal(p.items[i].state)
  }

  /** The contacts of the items it closes are blocked in the caller's name, and no other. */
  lemma {:induction false} DncBlocksTheContacts(p: Pool, p': Pool, q: Request, now: int, callbacks: bool, c: Completion)
    requires Integrity(p) && NewKey(p, q) && Complete(p, q, now, callbacks) == Ok((p', c))
    requires p.dispositions[q.disposition].causesDnc
    ensures q.item in p.items && p'.contacts.Keys == p.contacts.Keys
    ensures forall m :: m in p.contacts ==>
              p'.contacts[m] ==
                if HasOpenItem(p, m, PhoneOf(p, q.item)) then
                  p.contacts[m].(status := Blocked, completedAt := Some(now), completedBy := Some(q.agent),
                                 finalCode := Some(DNC_CODE))
                else p.contacts[m]
  {
    assert forall a :: !IsAttempt(p, a, q.agent, q.key);
    var phone := PhoneOf(p, q.item);
    forall m | m in p.contacts
      ensures m in ContactsOf(p.items, OpenItems(p, phone)) <==> HasOpenItem(p, m, phone)
    {
      if HasOpenItem(p, m, phone) {
        var i :| i in p.items && p.items[i].contact == m && !Terminal(p.items[i].state);
        assert i in OpenItems(p, phone);
      }
    }
  }

  /** Any other outcome touches its own item alone, and its contact exactly if the item is
      finished by it. */
  lemma {:induction false} OthersStay(p: Pool, p': Pool, q: Request, now: int, callbacks: bool, c: Completion)
    requires Integrity(p) && NewKey(p, q) && Complete(p, q, now, callbacks) == Ok((p', c))
    requires !p.dispositions[q.disposition].causesDnc
    ensures q.item in p.items && p'.suppressed == p.suppressed && p'.items == p.items[q.item := p'.items[q.item]]
    ensures var m := p.items[q.item].contact;
            p'.contacts ==
              if !p'.items[q.item].state.Completed? then p.contacts
              else p.contacts[m := p.contacts[m].(status := Called, completedAt := Some(now),
                              completedBy := Some(q.agent), finalCode := Some(p.dispositions[q.disposition].code))]
  {
    assert forall a :: !IsAttempt(p, a, q.agent, q.key);
  }
}
