/** What each work operation means for the agents: who may take the item next, and from when. */
module Offers {
  import opened Basics
  import opened WorkStates
  import opened PoolState
  import opened WorkRules
  import opened Leasing

  /** A renewed lease is good until exactly a full period after the renewal, no other agent or
      lease id gains anything by it, and no other item is affected. */
  lemma {:induction false} RenewedLeaseLives(p: Pool, i: Id, agent: Uuid, lease: Id, now: int)
    requires ItemsOk(p)
    ensures Renew(p, i, agent, lease, now).Ok? <==> Holds(p, i, agent, lease, now)
    ensures Renew(p, i, agent, lease, now).Ok? ==>
              var p' := Renew(p, i, agent, lease, now).value;
              && (forall t :: Holds(p', i, agent, lease, t) <==> t < now + LEASE_SECONDS)
              && (forall t :: i in ExpiredLeases(p', {}, t) <==> now + LEASE_SECONDS < t)
              && (forall who, l: Id, t :: Holds(p', i, who, l, t) ==> who == agent && l == lease)
              && (forall j: Id, who, l: Id, t :: j != i ==> (Holds(p', j, who, l, t) <==> Holds(p, j, who, l, t)))
  {
    assert i in p.items ==> ItemOk(p.items[i]);
  }

  /** After an ordinary outcome the item waits for exactly these calls: an agreed callback for
      that agent alone from the agreed time, a delayed retry for anyone once the delay is over,
      a requeued item for anyone at once; a finished, reviewed or redialled item for nobody. */
  lemma {:induction false} NextLeasable(x: Item, d: Disposition, q: Request, now: int, redial: Id, who: Uuid,
                                        kind: Kind, t: int)
    requires d.requiresCallback ==> q.callbackAt.Some?
    requires Worked(x, d, q, x.attempts + 1, now, redial).Ok?
    ensures var below := !d.requiresCallback && x.attempts + 1 < x.maxAttempts;
            StillWaiting(Worked(x, d, q, x.attempts + 1, now, redial).value, who, kind, t) <==>
              match kind
              case CallbackKind => d.requiresCallback && who == q.agent && q.callbackAt.value <= t
              case RetryKind => below && Action(d) == "retry_wait" && now + d.retryDelay.value * 60 <= t
              case FreshKind => below && Action(d) == "requeue"
  {
  }

  /** A skipped item can be taken by anyone at once until its third skip; from then on by
      nobody, until someone reviews it. */
  lemma {:induction false} SkippedOffered(p: Pool, i: Id, agent: Uuid, lease: Id, reason: string, now: int)
    requires PoolOk(p) && Skip(p, i, agent, lease, reason, now).Ok?
    ensures var p' := Skip(p, i, agent, lease, reason, now).value;
            && Integrity(p') && i in p'.items
            && (forall l: Id, t :: !Holds(p', i, agent, l, t))
            && forall who, kind, m: Id, t :: Candidate(p', i, who, kind, m, t) <==>
                 kind.FreshKind? && m == CampaignOf(p, i) && p.items[i].skips + 1 < MAX_SKIPS
  {
    var p' := Skip(p, i, agent, lease, reason, now).value;
    assert ItemOk(p.items[i]) && PhoneOf(p', i) == PhoneOf(p, i) && PhoneOf(p, i) !in p.suppressed;
  }

  /** A rescheduled item can be taken by anyone in its campaign from exactly the chosen time,
      and by nobody as a callback; its ceiling is the old one. */
  lemma {:induction false} RescheduledOffered(p: Pool, i: Id, retryAt: int, reason: string, now: int)
    requires PoolOk(p) && Reschedule(p, i, retryAt, reason, now).Ok?
    ensures var p' := Reschedule(p, i, retryAt, reason, now).value;
            && Integrity(p') && i in p'.items && p'.items[i].maxAttempts == p.items[i].maxAttempts
            && forall who, kind, m: Id, t :: Candidate(p', i, who, kind, m, t) <==>
                 kind.RetryKind? && m == CampaignOf(p, i) && retryAt <= t
  {
    var p' := Reschedule(p, i, retryAt, reason, now).value;
    assert PhoneOf(p', i) == PhoneOf(p, i) && PhoneOf(p, i) !in p.suppressed;
  }

  /** An item allowed more attempts can be taken by anyone in its campaign at once, and by
      nobody as a callback. */
  lemma {:induction false} AllowedMoreOffered(p: Pool, i: Id, newMax: int, reason: string, now: int)
    requires PoolOk(p) && AllowMore(p, i, newMax, reason, now).Ok?
    ensures var p' := AllowMore(p, i, newMax, reason, now).value;
            && Integrity(p') && i in p'.items
            && forall who, kind, m: Id, t :: Candidate(p', i, who, kind, m, t) <==>
                 kind.RetryKind? && m == CampaignOf(p, i) && now <= t
  {
    var p' := AllowMore(p, i, newMax, reason, now).value;
    assert PhoneOf(p', i) == PhoneOf(p, i) && PhoneOf(p, i) !in p.suppressed;
  }

  /** Its next call with a requeueing outcome puts it back to work exactly if the new ceiling
      leaves room for one more attempt after that call, and sends it back to review if not. */
  lemma {:induction false} AllowedMoreCalls(p: Pool, i: Id, newMax: int, reason: string, now: int, d: Disposition,
                                            q: Request, t: int, redial: Id)
    requires AllowMore(p, i, newMax, reason, now).Ok? && DispositionOk(d) && !d.requiresCallback
    requires Action(d) in {"requeue", "retry_wait", "immediate_redial"}
    ensures var x := AllowMore(p, i, newMax, reason, now).value.items[i];
            var y := Worked(x, d, q, x.attempts + 1, t, redial);
            && y.Ok?
            && if p.items[i].attempts + 1 < newMax then y.value.state in {Queued, RetryWait, WorkState.Leased}
               else y.value.state == Review
  {
  }

  // ------------------------------------------------------- taking a lease back

  /** Exactly when taking back a lease restores the state the item was leased from: it was a
      callback, or a fresh item that no agent keeps. */
  lemma {:induction false} ReturnRestoresIff(x: Item, agent: Uuid, lease: Id, kind: Kind, now: int)
    requires ItemOk(x) && StillWaiting(x, agent, kind, now)
    ensures Returned(Taken(x, agent, lease, ReasonFor(kind), now)).state == x.state <==>
              kind.CallbackKind? || (kind.FreshKind? && x.keptBy.None?)
  {
  }

  /** The same of whole databases: leased by any call, and taken back at any time. */
  lemma {:induction false} ReclaimRestoresIff(p: Pool, agent: Uuid, w: World, c: Choice)
    requires PoolOk(p) && Chosen(p, agent, w, Some(c))
    ensures c.item in p.items
    ensures var leased := Lease(p, c, agent, w.now);
            var back := leased.(items := ReturnedAll(leased.items, {c.item}));
            back.items[c.item].state == p.items[c.item].state <==>
              c.kind.CallbackKind? || (c.kind.FreshKind? && p.items[c.item].keptBy.None?)
  {
    assert StillWaiting(p.items[c.item], agent, c.kind, w.now);
    assert ItemOk(p.items[c.item]);
    ReturnRestoresIff(p.items[c.item], agent, p.nextId, c.kind, w.now);
  }
}
