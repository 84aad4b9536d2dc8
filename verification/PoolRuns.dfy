/** Everything that can happen to the calling database, and what holds over whole runs. */
module PoolRuns {
  import opened Basics
  import opened WorkStates
  import opened PoolState
  import opened WorkRules
  import opened WorkInvariant
  import opened Leasing
  import opened ContactImport
  import opened Retention
  import opened Dispositions

  /** One committed operation. */
  datatype Event =
    | LeaseCall(leaser: Uuid, world: World, answer: Answer)
    | Renewal(item: Id, agent: Uuid, lease: Id, now: int)
    | Reclaim(chosen: set<Id>)
    | Release(leaver: Uuid, campaign: Id, busy: set<Id>)
    | CompletionCall(request: Request, now: int, callbacks: bool, completion: Completion)
    | Skipping(item: Id, agent: Uuid, lease: Id, reason: string, now: int)
    | Rescheduling(item: Id, retryAt: int, reason: string, now: int)
    | AllowingMore(item: Id, newMax: int, reason: string, now: int)
    | Closing(item: Id, last: Id, now: int)
    | Importing(campaign: Id, phones: seq<Phone>, now: int)
    | Marking(now: int)
    | Deleting(gone: set<Id>)
    | AddingOutcome(campaign: Id, outcome: Draftee)
    | Installing(campaign: Id, overrides: Overrides)
    | SettingDelay(campaign: Id, row: Id, code: string, minutes: int)
    | SettingStatus(campaign: Id, status: CampaignStatus)
    | OpeningCampaign(campaign: Id, provenance: bool)
    | Restaffing(staffing: seq<Staffing>)

  predicate StatusMove(was: CampaignStatus, status: CampaignStatus) {
    || (was == Draft && status == Active)
    || (was == Active && status == Paused)
    || (was in {Active, Paused, Draft} && status == Archived)
  }

  /** Operations on work items; the rest change campaigns, contacts and outcomes. */
  predicate OnWork(e: Event) {
    || e.LeaseCall? || e.Renewal? || e.Reclaim? || e.Release? || e.CompletionCall? || e.Skipping?
    || e.Rescheduling? || e.AllowingMore? || e.Closing?
  }

  ghost predicate Happens(p: Pool, e: Event, p': Pool)
    requires PoolOk(p)
  {
    if OnWork(e) then WorkHappens(p, e, p') else CampaignHappens(p, e, p')
  }

  ghost predicate WorkHappens(p: Pool, e: Event, p': Pool)
    requires Integrity(p) && ItemsOk(p) && OnWork(e)
  {
    match e
    case LeaseCall(agent, w, r) => Answers(p, p', agent, w, r)
    case Renewal(i, agent, lease, now) => Renew(p, i, agent, lease, now) == Ok(p')
    case Reclaim(chosen) =>
      (forall i :: i in chosen ==> i in p.items && p.items[i].state.Leased?)
          && p' == p.(items := ReturnedAll(p.items, chosen))
    case Release(agent, campaign, busy) => p' == p.(items := ReleasedAll(p.items, WorkOf(p, agent, campaign, busy)))
    case CompletionCall(q, now, callbacks, c) => Complete(p, q, now, callbacks) == Ok((p', c))
    case Skipping(i, agent, lease, reason, now) => Skip(p, i, agent, lease, reason, now) == Ok(p')
    case Rescheduling(i, retryAt, reason, now) => Reschedule(p, i, retryAt, reason, now) == Ok(p')
    case AllowingMore(i, newMax, reason, now) => AllowMore(p, i, newMax, reason, now) == Ok(p')
    case Closing(i, a, now) =>
      i in p.items && p.items[i].state.Review? && Latest(p, i, a) && p' == CloseWith(p, i, a, now)
  }

  ghost predicate CampaignHappens(p: Pool, e: Event, p': Pool)
    requires Integrity(p) && ItemsOk(p) && !OnWork(e)
  {
    match e
    case Importing(campaign, phones, now) => campaign in p.campaigns && p' == ImportAll(p, campaign, phones, now).0
    case Marking(now) => p' == p.(campaigns := MarkedAll(p.campaigns, CompleteCampaigns(p), now))
    case Deleting(gone) => (forall c :: c in gone ==> c in p.campaigns && p.campaigns[c].status == Finished)
        && p' == Without(p, gone)
    case AddingOutcome(campaign, x) =>
      && campaign in p.campaigns && !CodeTaken(p, campaign, x.code)
      && (x.causesDnc <==> x.code == DNC_CODE)
      && x.nextAction in {None, Some("complete"), Some("review"), Some("requeue")}
      && p' == p.(dispositions := p.dispositions[p.nextId := Plain(campaign, x)], nextId := p.nextId + 1)
    case Installing(campaign, o) =>
      && campaign in p.campaigns && p.campaigns[campaign].status == Draft && NoDispositions(p, campaign)
          && OverridesOk(o)
      && p' == Installed(p, campaign, o)
    case SettingDelay(campaign, d, code, minutes) =>
      && DispositionFor(p, d, campaign, code) && p.campaigns[campaign].status == Draft && Editable(code)
          && Within(minutes)
      && p' == p.(dispositions := p.dispositions[d := p.dispositions[d].(retryDelay := Some(minutes))])
    case SettingStatus(campaign, status) =>
      && campaign in p.campaigns && StatusMove(p.campaigns[campaign].status, status)
      && p' == p.(campaigns := p.campaigns[campaign := p.campaigns[campaign].(status := status)])
    case OpeningCampaign(campaign, provenance) =>
      campaign !in p.campaigns && p' == p.(campaigns := p.campaigns[campaign := Campaign(Draft, None, None, false,
          provenance)])
    case Restaffing(staffing) => p' == p.(staffing := staffing)
  }

  /** What the work operations do, by their contracts, are events. */
  lemma {:induction false} WorkOperationsHappen(p: Pool, i: Id, agent: Uuid, lease: Id, n: int, reason: string,
                                                now: int, q: Request, callbacks: bool, campaign: Id, busy: set<Id>)
    requires PoolOk(p)
    ensures Renew(p, i, agent, lease, now).Ok? ==>
              Happens(p, Renewal(i, agent, lease, now), Renew(p, i, agent, lease, now).value)
    ensures var chosen := ExpiredLeases(p, busy, now);
            Happens(p, Reclaim(chosen), p.(items := ReturnedAll(p.items, chosen)))
    ensures var chosen := LeasesOf(p, agent, busy);
            Happens(p, Reclaim(chosen), p.(items := ReturnedAll(p.items, chosen)))
    ensures Happens(p, Release(agent, campaign, busy),
                    p.(items := ReleasedAll(p.items, WorkOf(p, agent, campaign, busy))))
    ensures var r := Complete(p, q, now, callbacks);
            r.Ok? ==> Happens(p, CompletionCall(q, now, callbacks, r.value.1), r.value.0)
    ensures var r := Skip(p, i, agent, lease, reason, now);
            r.Ok? ==> Happens(p, Skipping(i, agent, lease, reason, now), r.value)
    ensures var r := Reschedule(p, i, n, reason, now);
            r.Ok? ==> Happens(p, Rescheduling(i, n, reason, now), r.value)
    ensures var r := AllowMore(p, i, n, reason, now);
            r.Ok? ==> Happens(p, AllowingMore(i, n, reason, now), r.value)
  {
  }

  /** So is whatever a lease call answers, and closing a reviewed item as last called. */
  lemma {:induction false} AnswersHappen(p: Pool, p': Pool, agent: Uuid, w: World, r: Answer, i: Id, a: Id, now: int)
    requires PoolOk(p)
    ensures Answers(p, p', agent, w, r) ==> Happens(p, LeaseCall(agent, w, r), p')
    ensures i in p.items && p.items[i].state.Review? && Latest(p, i, a) ==>
              Happens(p, Closing(i, a, now), CloseWith(p, i, a, now))
  {
  }

  /** And so is what the operations on campaigns, contacts and outcomes do. */
  lemma {:induction false} CampaignOperationsHappen(p: Pool, campaign: Id, phones: seq<Phone>, now: int,
                                                    status: CampaignStatus, staffing: seq<Staffing>)
    requires PoolOk(p) && campaign in p.campaigns
    ensures Happens(p, Restaffing(staffing), p.(staffing := staffing))
    ensures Happens(p, Importing(campaign, phones, now), ImportAll(p, campaign, phones, now).0)
    ensures var was := p.campaigns[campaign].status;
            (was == Draft && status == Active) || (was == Active && status == Paused)
            || (was in {Active, Paused, Draft} && status == Archived) ==>
              Happens(p, SettingStatus(campaign, status),
                      p.(campaigns := p.campaigns[campaign := p.campaigns[campaign].(status := status)]))
  {
  }

  lemma {:induction false} RetentionOperationsHappen(p: Pool, now: int)
    requires PoolOk(p)
    ensures Happens(p, Marking(now), p.(campaigns := MarkedAll(p.campaigns, CompleteCampaigns(p), now)))
    ensures Happens(p, Deleting(Due(p, now)), Without(p, Due(p, now)))
  {
  }

  lemma {:induction false} DeletionHappens(p: Pool, campaign: Id)
    requires PoolOk(p) && campaign in p.campaigns && p.campaigns[campaign].status == Finished
    ensures Happens(p, Deleting({campaign}), Without(p, {campaign}))
  {
  }

  lemma {:induction false} OutcomeOperationsHappen(p: Pool, campaign: Id, x: Draftee, o: Overrides)
    requires PoolOk(p) && campaign in p.campaigns
    ensures (x.causesDnc <==> x.code == DNC_CODE) && !CodeTaken(p, campaign, x.code)
            && x.nextAction in {None, Some("complete"), Some("review"), Some("requeue")} ==>
              Happens(p, AddingOutcome(campaign, x),
                      p.(dispositions := p.dispositions[p.nextId := Plain(campaign, x)], nextId := p.nextId + 1))
    ensures p.campaigns[campaign].status == Draft && NoDispositions(p, campaign) && OverridesOk(o) ==>
              Happens(p, Installing(campaign, o), Installed(p, campaign, o))
  {
  }

  lemma {:induction false} DelayOperationHappens(p: Pool, campaign: Id, d: Id, code: string, minutes: int)
    requires PoolOk(p) && DispositionFor(p, d, campaign, code) && p.campaigns[campaign].status == Draft
    requires Editable(code) && Within(minutes)
    ensures Happens(p, SettingDelay(campaign, d, code, minutes),
                    p.(dispositions := p.dispositions[d := p.dispositions[d].(retryDelay := Some(minutes))]))
  {
  }

  /** Every operation keeps the invariant and respects what is never taken back. */
  lemma {:induction false} EventKeeps(p: Pool, e: Event, p': Pool)
    requires PoolOk(p) && Happens(p, e, p')
    ensures PoolOk(p') && Follows(p, p')
  {
    if OnWork(e) {
      WorkKeeps(p, e, p');
    } else {
      CampaignKeeps(p, e, p');
    }
  }

  lemma {:induction false} WorkKeeps(p: Pool, e: Event, p': Pool)
    requires PoolOk(p) && OnWork(e) && WorkHappens(p, e, p')
    ensures PoolOk(p') && Follows(p, p')
  {
    match e
    case LeaseCall(agent, w, r) => LeaseKeeps(p, p', agent, w, r);
    case CompletionCall(q, now, callbacks, _) => CompleteKeeps(p, p', q, now, callbacks);
    case _ => PlainKeeps(p, e, p');
  }

  lemma {:induction false} PlainKeeps(p: Pool, e: Event, p': Pool)
    requires PoolOk(p) && OnWork(e) && !e.LeaseCall? && !e.CompletionCall? && WorkHappens(p, e, p')
    ensures PoolOk(p') && Follows(p, p')
  {
    match e
    case Renewal(i, agent, lease, now) => RenewKeeps(p, i, agent, lease, now);
    case Reclaim(chosen) => ReturnedKeeps(p, chosen);
    case Release(agent, campaign, busy) => ReleasedKeeps(p, agent, campaign, busy);
    case Skipping(i, agent, lease, reason, now) => SkipKeeps(p, i, agent, lease, reason, now);
    case Rescheduling(i, retryAt, reason, now) => RescheduleKeeps(p, i, retryAt, reason, now);
    case AllowingMore(i, newMax, reason, now) => AllowMoreKeeps(p, i, newMax, reason, now);
    case Closing(i, a, now) => CloseKeeps(p, i, a, now);
  }

  lemma {:induction false} CampaignKeeps(p: Pool, e: Event, p': Pool)
    requires PoolOk(p) && !OnWork(e) && CampaignHappens(p, e, p')
    ensures PoolOk(p') && Follows(p, p')
  {
    match e
    case Importing(campaign, phones, now) => ImportKeeps(p, campaign, phones, now);
    case Marking(now) => MarkingKeeps(p, now);
    case Deleting(gone) => WithoutKeeps(p, gone);
    case AddingOutcome(campaign, x) => CreateKeeps(p, p', campaign, x);
    case Installing(campaign, o) => InstallKeeps(p, campaign, o);
    case SettingDelay(campaign, d, code, minutes) => RetryUpdateKeeps(p, p', campaign, d, code, minutes);
    case SettingStatus(campaign, status) => StatusKeeps(p, campaign, status);
    case OpeningCampaign(_, _) => CampaignsMoved(p, p');
    case Restaffing(_) => StaffingApart(p, p');
  }

  lemma {:induction false} CompleteKeeps(p: Pool, p': Pool, q: Request, now: int, callbacks: bool)
    requires PoolOk(p) && Complete(p, q, now, callbacks).Ok? && Complete(p, q, now, callbacks).value.0 == p'
    ensures PoolOk(p') && Follows(p, p')
  {
    if Existing(p, q.agent, q.key).None? {
      CompletionKeeps(p, q, now, callbacks);
    } else {
      FollowsItself(p);
    }
  }

  lemma {:induction false} StaffingApart(p: Pool, p': Pool)
    requires PoolOk(p) && p' == p.(staffing := p'.staffing)
    ensures PoolOk(p') && Follows(p, p')
  {
    DoneKept(p, p');
    SameKeeps(p, p');
    NoNewLeases(p, p');
    RowsFollow(p, p');
  }

  // ------------------------------------------------------------------------ runs

  datatype Run = Run(states: seq<Pool>, events: seq<Event>)

  /** The run starts from a database that meets the invariant, such as the empty one, and
      every state comes from the one before by its event. */
  ghost predicate IsRun(r: Run) {
    |r.states| == |r.events| + 1 && forall n: nat :: StepOf(r, n)
  }

  ghost predicate StepOf(r: Run, n: nat) {
    && (n == 0 && n < |r.states| ==> PoolOk(r.states[n]))
    && (n < |r.events| && n + 1 < |r.states| && PoolOk(r.states[n]) ==>
        Happens(r.states[n], r.events[n], r.states[n + 1]))
  }

  lemma {:induction false} InvariantAt(r: Run, n: nat)
    requires IsRun(r) && n < |r.states|
    ensures PoolOk(r.states[n])
  {
    if n == 0 {
      assert StepOf(r, 0);
    } else {
      InvariantAt(r, n - 1);
      NextOk(r, n - 1);
    }
  }

  lemma {:induction false} NextOk(r: Run, n: nat)
    requires IsRun(r) && n < |r.events| && PoolOk(r.states[n])
    ensures PoolOk(r.states[n + 1])
  {
    HappensAt(r, n);
    EventKeeps(r.states[n], r.events[n], r.states[n + 1]);
  }

  lemma {:induction false} HappensAt(r: Run, n: nat)
    requires IsRun(r) && n < |r.events| && PoolOk(r.states[n])
    ensures Happens(r.states[n], r.events[n], r.states[n + 1])
  {
    assert StepOf(r, n);
  }

  lemma {:induction false} StepFollows(r: Run, n: nat)
    requires IsRun(r) && n < |r.events|
    ensures Follows(r.states[n], r.states[n + 1])
  {
    InvariantAt(r, n);
    HappensAt(r, n);
    EventKeeps(r.states[n], r.events[n], r.states[n + 1]);
  }

  lemma {:induction false} FollowsAlong(r: Run, m: nat, n: nat)
    requires IsRun(r) && m <= n < |r.states|
    ensures Follows(r.states[m], r.states[n])
  {
    if m == n {
      FollowsItself(r.states[m]);
    } else {
      FollowsAlong(r, m, n - 1);
      StepFollows(r, n - 1);
      FollowsOn(r.states[m], r.states[n - 1], r.states[n]);
    }
  }

  // ---------------------------------------------------------------------- leases

  ghost predicate Held(p: Pool, lease: Id) {
    exists i :: HeldOn(p, i, lease)
  }

  /** The event got through on the strength of this lease. */
  ghost predicate Uses(p: Pool, e: Event, lease: Id) {
    match e
    case Renewal(_, _, l, _) => l == lease
    case Skipping(_, _, l, _, _) => l == lease
    case CompletionCall(q, _, _, _) => q.lease == lease && Existing(p, q.agent, q.key).None?
    case _ => false
  }

  /** Using a lease needs it live; a skip or a completion spends it. */
  lemma {:induction false} UseNeedsLease(p: Pool, e: Event, p': Pool, lease: Id)
    requires PoolOk(p) && Happens(p, e, p') && Uses(p, e, lease)
    ensures Held(p, lease)
    ensures !e.Renewal? ==> !Held(p', lease)
  {
    match e
    case Renewal(i, _, _, _) => assert HeldOn(p, i, lease);
    case Skipping(i, _, _, _, _) =>
      assert HeldOn(p, i, lease);
      SkipSpends(p, p', i, lease);
    case CompletionCall(q, now, callbacks, _) =>
      assert HeldOn(p, q.item, lease);
      CompletionSpends(p, p', q, now, callbacks);
  }

  lemma {:induction false} SkipSpends(p: Pool, p': Pool, i: Id, lease: Id)
    requires LeasesOk(p) && HeldOn(p, i, lease) && i in p'.items && p'.items == p.items[i := p'.items[i]]
    requires !p'.items[i].state.Leased?
    ensures !Held(p', lease)
  {
    assert forall j: Id :: HeldOn(p', j, lease) ==> HeldOn(p, j, lease) && j != i;
  }

  lemma {:induction false} CompletionSpends(p: Pool, p': Pool, q: Request, now: int, callbacks: bool)
    requires PoolOk(p) && HeldOn(p, q.item, q.lease)
    requires FirstCompletion(p, q, now, callbacks).Ok? && FirstCompletion(p, q, now, callbacks).value.0 == p'
    ensures !Held(p', q.lease)
  {
    assert q.lease < p.nextId;
    assert q.item in OpenItems(p, PhoneOf(p, q.item));
    CompletionLeases(p, p', q, now, callbacks);
    OthersUnheld(p, p', q.item, q.lease);
  }

  lemma {:induction false} OthersUnheld(p: Pool, p': Pool, i: Id, lease: Id)
    requires LeasesOk(p) && HeldOn(p, i, lease)
    requires forall j: Id :: HeldOn(p', j, lease) ==> HeldOn(p, j, lease) && j != i
    ensures !Held(p', lease)
  {
  }

  /** The completed item loses the lease, and no other item gains it. */
  lemma {:induction false} CompletionLeases(p: Pool, p': Pool, q: Request, now: int, callbacks: bool)
    requires Integrity(p) && FirstCompletion(p, q, now, callbacks).Ok?
    requires FirstCompletion(p, q, now, callbacks).value.0 == p'
    requires q.item in OpenItems(p, PhoneOf(p, q.item)) && q.lease < p.nextId
    ensures forall j: Id :: HeldOn(p', j, q.lease) ==> HeldOn(p, j, q.lease) && j != q.item
  {
  }

  /** Fencing: once an issued lease id is not live, whatever ended it, it is never live again
      and no operation ever gets through on it again. */
  lemma {:induction false} SpentForever(r: Run, m: nat, n: nat, lease: Id)
    requires IsRun(r) && m <= n < |r.states| && lease < r.states[m].nextId && !Held(r.states[m], lease)
    ensures !Held(r.states[n], lease)
    ensures n < |r.events| ==> !Uses(r.states[n], r.events[n], lease)
  {
    FollowsAlong(r, m, n);
    UnheldStays(r.states[m], r.states[n], lease);
    if n < |r.events| {
      UnheldUnused(r, n, lease);
    }
  }

  lemma {:induction false} UnheldStays(p: Pool, q: Pool, lease: Id)
    requires LeasesFollow(p, q) && lease < p.nextId && !Held(p, lease)
    ensures !Held(q, lease)
  {
  }

  lemma {:induction false} UnheldUnused(r: Run, n: nat, lease: Id)
    requires IsRun(r) && n < |r.events|
    ensures Uses(r.states[n], r.events[n], lease) ==> Held(r.states[n], lease)
  {
    if Uses(r.states[n], r.events[n], lease) {
      InvariantAt(r, n);
      HappensAt(r, n);
      UseNeedsLease(r.states[n], r.events[n], r.states[n + 1], lease);
    }
  }

  lemma {:induction false} SpentAt(r: Run, n: nat, lease: Id)
    requires IsRun(r) && n < |r.events| && Uses(r.states[n], r.events[n], lease) && !r.events[n].Renewal?
    ensures lease < r.states[n + 1].nextId && !Held(r.states[n + 1], lease)
  {
    InvariantAt(r, n);
    HappensAt(r, n);
    UseNeedsLease(r.states[n], r.events[n], r.states[n + 1], lease);
    IssuedEarlier(r.states[n], lease);
    StepFollows(r, n);
  }

  lemma {:induction false} IssuedEarlier(p: Pool, lease: Id)
    requires LeasesOk(p) && Held(p, lease)
    ensures lease < p.nextId
  {
  }

  /** At most one completion or skip ever succeeds on a lease id, and nothing after it. */
  lemma {:induction false} LeaseSpentOnce(r: Run, m: nat, n: nat, lease: Id)
    requires IsRun(r) && m < n < |r.events|
    requires Uses(r.states[m], r.events[m], lease) && !r.events[m].Renewal?
    ensures !Uses(r.states[n], r.events[n], lease)
  {
    SpentAt(r, m, lease);
    SpentForever(r, m + 1, n, lease);
  }

  // ---------------------------------------------------------------------- replay

  /** The answer of a completion is what its stored attempt replays to. */
  lemma {:induction false} AnswerIsReplay(p: Pool, p': Pool, q: Request, now: int, callbacks: bool, c: Completion)
    requires PoolOk(p) && Complete(p, q, now, callbacks) == Ok((p', c))
    ensures IsAttempt(p', c.attempt, q.agent, q.key) && Replay(p', c.attempt, q.item) == Ok(c)
  {
    if Existing(p, q.agent, q.key).None? {
      assert ItemOk(p.items[q.item]);
      assert q.item in OpenItems(p, PhoneOf(p, q.item));
      FirstAnswerIsReplay(p, p', q, now, callbacks, c);
    }
  }

  lemma {:induction false} FirstAnswerIsReplay(p: Pool, p': Pool, q: Request, now: int, callbacks: bool, c: Completion)
    requires Integrity(p) && FirstCompletion(p, q, now, callbacks) == Ok((p', c))
    requires q.item in OpenItems(p, PhoneOf(p, q.item))
    requires p.items[q.item].state.Leased?
    ensures IsAttempt(p', c.attempt, q.agent, q.key) && Replay(p', c.attempt, q.item) == Ok(c)
  {
  }

  /** A stored attempt of a launched campaign answers the same for as long as it is kept. */
  lemma {:induction false} ReplayStays(p: Pool, p': Pool, a: Id, item: Id)
    requires Integrity(p) && AttemptsOk(p) && LaunchedOk(p) && AttemptsFollow(p, p') && DispositionsFollow(p, p')
    requires a in p.attempts && a in p'.attempts
    ensures p'.attempts[a] == p.attempts[a] && Replay(p', a, item) == Replay(p, a, item)
  {
    var t := p.attempts[a];
    assert AttemptOk(p, a);
    assert a in AttemptsOf(p, t.item);
    assert p.items[t.item].attempts == |AttemptsOf(p, t.item)| > 0;
    assert Launched(p, p.dispositions[t.disposition].campaign);
  }

  lemma {:induction false} ReplayStaysAlong(r: Run, m: nat, n: nat, a: Id, item: Id)
    requires IsRun(r) && m <= n < |r.states| && a in r.states[m].attempts && a in r.states[n].attempts
    ensures Replay(r.states[n], a, item) == Replay(r.states[m], a, item)
    ensures r.states[n].attempts[a] == r.states[m].attempts[a]
  {
    InvariantAt(r, m);
    FollowsAlong(r, m, n);
    ReplayStays(r.states[m], r.states[n], a, item);
  }

  lemma {:induction false} AnswerAt(r: Run, m: nat)
    requires IsRun(r) && m < |r.events| && r.events[m].CompletionCall?
    ensures var e := r.events[m];
            && IsAttempt(r.states[m + 1], e.completion.attempt, e.request.agent, e.request.key)
            && Replay(r.states[m + 1], e.completion.attempt, e.request.item) == Ok(e.completion)
  {
    var e := r.events[m];
    InvariantAt(r, m);
    HappensAt(r, m);
    AnswerIsReplay(r.states[m], r.states[m + 1], e.request, e.now, e.callbacks, e.completion);
  }

  lemma {:induction false} StoredAnswers(p: Pool, a: Id, again: Request, now: int, callbacks: bool, c: Completion)
    requires Integrity(p) && KeysOk(p) && IsAttempt(p, a, again.agent, again.key) && Replay(p, a, again.item) == Ok(c)
    ensures Complete(p, again, now, callbacks) == Ok((p, c))
  {
  }

  /** Idempotent replay is exact: until the attempt is purged, repeating the key for the same
      item changes nothing and returns, field for field, the answer given the first time. */
  lemma {:induction false} ReplayIsExact(r: Run, m: nat, n: nat, again: Request, now: int, callbacks: bool)
    requires IsRun(r) && m < n < |r.states| && r.events[m].CompletionCall?
    requires var q := r.events[m].request; again.agent == q.agent && again.key == q.key && again.item == q.item
    requires r.events[m].completion.attempt in r.states[n].attempts
    ensures PoolOk(r.states[n])
    ensures Complete(r.states[n], again, now, callbacks) == Ok((r.states[n], r.events[m].completion))
  {
    var c := r.events[m].completion;
    AnswerAt(r, m);
    ReplayStaysAlong(r, m + 1, n, c.attempt, again.item);
    InvariantAt(r, n);
    StoredAnswers(r.states[n], c.attempt, again, now, callbacks, c);
  }

  // ------------------------------------------------------------------ do not call

  /** A number suppressed at any step has no open work item at any later step and is never
      handed to an agent again, whatever is purged and imported in between. */
  lemma {:induction false} SuppressedNeverLeased(r: Run, m: nat, n: nat, phone: Phone)
    requires IsRun(r) && m <= n < |r.states| && phone in r.states[m].suppressed
    ensures PoolOk(r.states[n])
    ensures forall i :: i in r.states[n].items && PhoneOf(r.states[n], i) == phone ==>
        Terminal(r.states[n].items[i].state)
    ensures n < |r.events| && r.events[n].LeaseCall? && (r.events[n].answer.Granted? || r.events[n].answer.Resumed?) ==>
              r.events[n].answer.grant.phone != phone
  {
    InvariantAt(r, n);
    FollowsAlong(r, m, n);
    if n < |r.events| && r.events[n].LeaseCall? {
      HappensAt(r, n);
      GrantsOpenNumbers(r.states[n], r.states[n + 1], r.events[n].leaser, r.events[n].world, r.events[n].answer);
    }
  }

  lemma {:induction false} GrantsOpenNumbers(p: Pool, p': Pool, agent: Uuid, w: World, a: Answer)
    requires PoolOk(p) && Answers(p, p', agent, w, a)
    ensures a.Granted? || a.Resumed? ==> a.grant.phone !in p.suppressed
    ensures a != Refused(SuppressedLease)
  {
    if exists i :: Resumable(p, i, agent, w.now) {
      var i :| Resumable(p, i, agent, w.now)
        && a == if PhoneOf(p, i) in p.suppressed then Refused(SuppressedLease) else Resumed(GrantOf(p, i));
    } else if a.Granted? {
      var c :| Chosen(p, agent, w, c) && Outcome(p, p', agent, w.now, c, a);
      ChosenIsOpen(p, agent, w, c.value);
    }
  }

  // ------------------------------------------------------------- attempt ceiling

  /** A first completion that puts the item back to work: queued, waiting, or redialled. */
  ghost predicate Requeues(p: Pool, e: Event, i: Id) {
    && e.CompletionCall? && e.request.item == i && Existing(p, e.request.agent, e.request.key).None?
    && (e.completion.state.Queued? || e.completion.state.RetryWait? || e.completion.state.Leased?)
  }

  predicate Raises(e: Event, i: Id) {
    e.AllowingMore? && e.item == i
  }

  ghost function RequeueCount(r: Run, n: nat, i: Id): nat
    requires n <= |r.events| && |r.states| == |r.events| + 1
  {
    if n == 0 then 0
    else RequeueCount(r, n - 1, i) + if Requeues(r.states[n - 1], r.events[n - 1], i) then 1 else 0
  }

  predicate Skips(e: Event, i: Id) {
    e.Skipping? && e.item == i
  }

  /** Only a review decision moves an item's ceiling, and only a skip its skip counter. */
  predicate LimitsKept(x: Item, e: Event, i: Id, y: Item) {
    && (!Raises(e, i) ==> y.maxAttempts == x.maxAttempts)
    && y.skips == if Skips(e, i) then x.skips + 1 else x.skips
  }

  lemma {:induction false} CeilingKept(p: Pool, e: Event, p': Pool, i: Id)
    requires PoolOk(p) && Happens(p, e, p') && i in p.items && i in p'.items
    ensures LimitsKept(p.items[i], e, i, p'.items[i])
  {
    if OnWork(e) {
      WorkCeiling(p, e, p', i);
    } else {
      if e.Importing? {
        ImportKeeps(p, e.campaign, e.phones, e.now);
      }
      CampaignLimits(p, e, p', i);
    }
  }

  lemma {:induction false} CampaignLimits(p: Pool, e: Event, p': Pool, i: Id)
    requires Integrity(p) && ItemsOk(p) && !OnWork(e) && CampaignHappens(p, e, p') && i in p.items && i in p'.items
    requires e.Importing? ==> Extends(p, p')
    ensures LimitsKept(p.items[i], e, i, p'.items[i])
  {
  }

  lemma {:induction false} WorkCeiling(p: Pool, e: Event, p': Pool, i: Id)
    requires Integrity(p) && ItemsOk(p) && OnWork(e) && WorkHappens(p, e, p') && i in p.items
    ensures i in p'.items && LimitsKept(p.items[i], e, i, p'.items[i])
  {
    match e
    case LeaseCall(agent, w, r) => LeaseTouches(p, p', agent, w, r, i);
    case CompletionCall(q, now, callbacks, _) => CompletionCeiling(p, p', q, now, callbacks, i);
    case _ => PlainCeiling(p, e, p', i);
  }

  lemma {:induction false} PlainCeiling(p: Pool, e: Event, p': Pool, i: Id)
    requires Integrity(p) && ItemsOk(p) && OnWork(e) && !e.CompletionCall? && !e.LeaseCall? && WorkHappens(p, e, p')
    requires i in p.items
    ensures i in p'.items && LimitsKept(p.items[i], e, i, p'.items[i])
  {
    if e.Reclaim? || e.Release? || e.Closing? {
      BulkCeiling(p, e, p', i);
    } else {
      SingleCeiling(p, e, p', i);
    }
  }

  lemma {:induction false} BulkCeiling(p: Pool, e: Event, p': Pool, i: Id)
    requires Integrity(p) && ItemsOk(p) && (e.Reclaim? || e.Release? || e.Closing?) && WorkHappens(p, e, p')
    requires i in p.items
    ensures i in p'.items && LimitsKept(p.items[i], e, i, p'.items[i])
  {
  }

  lemma {:induction false} SingleCeiling(p: Pool, e: Event, p': Pool, i: Id)
    requires Integrity(p) && ItemsOk(p) && (e.Renewal? || e.Skipping? || e.Rescheduling? || e.AllowingMore?)
    requires WorkHappens(p, e, p') && i in p.items
    ensures i in p'.items && LimitsKept(p.items[i], e, i, p'.items[i])
  {
  }

  lemma {:induction false} LeaseTouches(p: Pool, p': Pool, agent: Uuid, w: World, r: Answer, i: Id)
    requires Integrity(p) && ItemsOk(p) && Answers(p, p', agent, w, r) && i in p.items
    ensures i in p'.items
    ensures p'.items[i].maxAttempts == p.items[i].maxAttempts && p'.items[i].skips == p.items[i].skips
  {
  }

  lemma {:induction false} CompletionCeiling(p: Pool, p': Pool, q: Request, now: int, callbacks: bool, i: Id)
    requires Integrity(p) && ItemsOk(p) && Complete(p, q, now, callbacks).Ok?
    requires Complete(p, q, now, callbacks).value.0 == p'
    requires i in p.items
    ensures i in p'.items
    ensures p'.items[i].maxAttempts == p.items[i].maxAttempts && p'.items[i].skips == p.items[i].skips
  {
    if Existing(p, q.agent, q.key).None? {
      FirstCompletionCeiling(p, p', q, now, callbacks, i);
    }
  }

  lemma {:induction false} FirstCompletionCeiling(p: Pool, p': Pool, q: Request, now: int, callbacks: bool, i: Id)
    requires Integrity(p) && FirstCompletion(p, q, now, callbacks).Ok?
    requires FirstCompletion(p, q, now, callbacks).value.0 == p'
    requires i in p.items
    ensures i in p'.items
    ensures p'.items[i].maxAttempts == p.items[i].maxAttempts && p'.items[i].skips == p.items[i].skips
  {
  }

  /** A requeue counts one attempt and happens strictly below the ceiling. */
  lemma {:induction false} RequeueBelowCeiling(p: Pool, e: Event, p': Pool, i: Id)
    requires PoolOk(p) && Happens(p, e, p') && Requeues(p, e, i)
    ensures i in p.items && i in p'.items && p'.items[i].attempts == p.items[i].attempts + 1 < p.items[i].maxAttempts
  {
    var q := e.request;
    assert q.item in OpenItems(p, PhoneOf(p, q.item));
    FirstRequeue(p, p', q, e.now, e.callbacks, e.completion);
  }

  lemma {:induction false} FirstRequeue(p: Pool, p': Pool, q: Request, now: int, callbacks: bool, c: Completion)
    requires Integrity(p) && FirstCompletion(p, q, now, callbacks) == Ok((p', c))
    requires q.item in OpenItems(p, PhoneOf(p, q.item))
    requires c.state.Queued? || c.state.RetryWait? || c.state.Leased?
    ensures q.item in p.items && q.item in p'.items
    ensures p'.items[q.item].attempts == p.items[q.item].attempts + 1
    ensures p.items[q.item].attempts + 1 < p.items[q.item].maxAttempts || p.dispositions[q.disposition].requiresCallback
    ensures !p.dispositions[q.disposition].requiresCallback
  {
  }

  ghost function Spare(x: Item): int {
    if x.maxAttempts - 1 > x.attempts then x.maxAttempts - 1 - x.attempts else 0
  }

  /** What one step does to the ceiling, the counter and the number of requeues. */
  lemma {:induction false} CeilingStep(r: Run, n: nat, i: Id)
    requires IsRun(r) && n < |r.events| && i < r.states[n].nextId && !Raises(r.events[n], i)
    ensures i in r.states[n + 1].items ==>
              && i in r.states[n].items && r.states[n + 1].items[i].maxAttempts == r.states[n].items[i].maxAttempts
              && r.states[n + 1].items[i].attempts >= r.states[n].items[i].attempts
    ensures Requeues(r.states[n], r.events[n], i) ==>
              && i in r.states[n].items && i in r.states[n + 1].items
              && r.states[n + 1].items[i].attempts ==
                  r.states[n].items[i].attempts + 1 < r.states[n].items[i].maxAttempts
  {
    InvariantAt(r, n);
    HappensAt(r, n);
    StepFollows(r, n);
    if i in r.states[n + 1].items {
      CeilingKept(r.states[n], r.events[n], r.states[n + 1], i);
    }
    if Requeues(r.states[n], r.events[n], i) {
      RequeueBelowCeiling(r.states[n], r.events[n], r.states[n + 1], i);
    }
  }

  /** The termination measure of the call loop: without a review raising the ceiling, at
      most `maxAttempts - 1` completions of an item ever put it back to work. */
  lemma {:induction false} AttemptCeiling(r: Run, n: nat, i: Id)
    requires IsRun(r) && n <= |r.events| && i in r.states[0].items && i < r.states[0].nextId
    requires forall k :: 0 <= k < n ==> !Raises(r.events[k], i)
    ensures RequeueCount(r, n, i) <= Spare(r.states[0].items[i])
    ensures i in r.states[n].items ==>
              && r.states[n].items[i].maxAttempts == r.states[0].items[i].maxAttempts
              && RequeueCount(r, n, i) <= r.states[n].items[i].attempts - r.states[0].items[i].attempts
  {
    if n > 0 {
      AttemptCeiling(r, n - 1, i);
      IdsGrow(r, n - 1);
      CeilingStep(r, n - 1, i);
    }
  }

  /** A skip that leaves the item in the queue. */
  ghost predicate BackInQueue(e: Event, p': Pool, i: Id) {
    Skips(e, i) && i in p'.items && p'.items[i].state.Queued?
  }

  ghost function SkipCount(r: Run, n: nat, i: Id): nat
    requires n <= |r.events| && |r.states| == |r.events| + 1
  {
    if n == 0 then 0
    else SkipCount(r, n - 1, i) + if BackInQueue(r.events[n - 1], r.states[n], i) then 1 else 0
  }

  lemma {:induction false} SkipStep(r: Run, n: nat, i: Id)
    requires IsRun(r) && n < |r.events| && i < r.states[n].nextId
    ensures i in r.states[n + 1].items ==>
              i in r.states[n].items && r.states[n].items[i].skips <= r.states[n + 1].items[i].skips
    ensures BackInQueue(r.events[n], r.states[n + 1], i) ==>
              i in r.states[n].items && r.states[n].items[i].skips + 1 == r.states[n + 1].items[i].skips < MAX_SKIPS
  {
    InvariantAt(r, n);
    HappensAt(r, n);
    StepFollows(r, n);
    if i in r.states[n + 1].items {
      CeilingKept(r.states[n], r.events[n], r.states[n + 1], i);
    }
    if Skips(r.events[n], i) {
      SkippedBelow(r.states[n], r.events[n], r.states[n + 1]);
    }
  }

  lemma {:induction false} SkippedBelow(p: Pool, e: Event, p': Pool)
    requires Integrity(p) && ItemsOk(p) && e.Skipping? && WorkHappens(p, e, p')
    ensures e.item in p'.items && (p'.items[e.item].state.Queued? ==> p'.items[e.item].skips < MAX_SKIPS)
  {
  }

  /** Over a whole run, whatever reviews decide in between, at most two skips ever put an item
      back in the queue, fewer by the skips it had at the start. */
  lemma {:induction false} SkipCeiling(r: Run, n: nat, i: Id)
    requires IsRun(r) && n <= |r.events| && i in r.states[0].items && i < r.states[0].nextId
    ensures SkipCount(r, n, i) == 0 || r.states[0].items[i].skips + SkipCount(r, n, i) < MAX_SKIPS
    ensures i in r.states[n].items ==> r.states[0].items[i].skips + SkipCount(r, n, i) <= r.states[n].items[i].skips
  {
    if n > 0 {
      SkipCeiling(r, n - 1, i);
      IdsGrow(r, n - 1);
      SkipStep(r, n - 1, i);
    }
  }

  lemma {:induction false} IdsGrow(r: Run, n: nat)
    requires IsRun(r) && n < |r.states|
    ensures r.states[0].nextId <= r.states[n].nextId
  {
    FollowsAlong(r, 0, n);
  }

  // ----------------------------------------------------- contacts without an item

  ghost predicate Stranded(p: Pool, c: Id) {
    && c in p.contacts && p.contacts[c].completedAt.None? && c < p.nextId && (forall i: Id :: !ItemFor(p, i, c))
    && p.contacts[c].campaign in p.campaigns && p.campaigns[p.contacts[c].campaign].status != Finished
  }

  lemma {:induction false} StrandedStays(p: Pool, e: Event, p': Pool, c: Id)
    requires PoolOk(p) && Happens(p, e, p') && Stranded(p, c)
    ensures Stranded(p', c) && p'.contacts[c] == p.contacts[c]
  {
    NoItemThere(p, c);
    if OnWork(e) {
      StrandedWork(p, e, p', c);
    } else {
      StrandedCampaign(p, e, p', c);
    }
  }

  lemma {:induction false} StrandedCampaign(p: Pool, e: Event, p': Pool, c: Id)
    requires PoolOk(p) && !OnWork(e) && CampaignHappens(p, e, p') && Stranded(p, c)
    requires forall i: Id :: i in p.items ==> p.items[i].contact != c
    ensures Stranded(p', c) && p'.contacts[c] == p.contacts[c]
  {
    match e
    case Importing(campaign, phones, now) => StrandedImport(p, campaign, phones, now, c);
    case Marking(now) => StrandedMarking(p, p', now, c);
    case Deleting(gone) => StrandedDeleting(p, p', gone, c);
    case AddingOutcome(_, _) => StrandedKept(p, p', c);
    case Installing(_, _) => StrandedKept(p, p', c);
    case SettingDelay(_, _, _, _) => StrandedKept(p, p', c);
    case SettingStatus(_, _) => StrandedKept(p, p', c);
    case OpeningCampaign(_, _) => StrandedKept(p, p', c);
    case Restaffing(_) => StrandedKept(p, p', c);
  }

  lemma {:induction false} NoItemThere(p: Pool, c: Id)
    requires Stranded(p, c)
    ensures forall i: Id :: i in p.items ==> p.items[i].contact != c
  {
    forall i: Id | i in p.items ensures p.items[i].contact != c {
      assert !ItemFor(p, i, c);
    }
  }

  lemma {:induction false} StrandedWork(p: Pool, e: Event, p': Pool, c: Id)
    requires PoolOk(p) && OnWork(e) && WorkHappens(p, e, p') && Stranded(p, c)
    requires forall i: Id :: i in p.items ==> p.items[i].contact != c
    ensures Stranded(p', c) && p'.contacts[c] == p.contacts[c]
  {
    if e.CompletionCall? {
      StrandedCompletion(p, p', e.request, e.now, e.callbacks, c);
    } else if e.LeaseCall? {
      StrandedLease(p, p', e.leaser, e.world, e.answer, c);
    } else {
      PlainWork(p, e, p', c);
      StrandedKept(p, p', c);
    }
  }

  lemma {:induction false} PlainWork(p: Pool, e: Event, p': Pool, c: Id)
    requires Integrity(p) && ItemsOk(p) && OnWork(e) && !e.CompletionCall? && !e.LeaseCall? && WorkHappens(p, e, p')
    requires c in p.contacts
    requires forall i: Id :: i in p.items ==> p.items[i].contact != c
    ensures p'.nextId == p.nextId && p'.campaigns == p.campaigns && c in p'.contacts && p'.contacts[c] == p.contacts[c]
    ensures forall i: Id :: i in p'.items ==> i in p.items && p'.items[i].contact == p.items[i].contact
  {
    if e.Closing? {
      ClosingWork(p, p', e.item, e.last, e.now, c);
    } else {
      ItemsOnly(p, e, p');
    }
  }

  lemma {:induction false} ClosingWork(p: Pool, p': Pool, i: Id, a: Id, now: int, c: Id)
    requires Integrity(p) && i in p.items && a in p.attempts && p' == CloseWith(p, i, a, now)
    requires c in p.contacts && p.items[i].contact != c
    ensures p'.nextId == p.nextId && p'.campaigns == p.campaigns && c in p'.contacts && p'.contacts[c] == p.contacts[c]
    ensures forall j: Id :: j in p'.items ==> j in p.items && p'.items[j].contact == p.items[j].contact
  {
  }

  /** The other operations on one or several items change nothing but items. */
  lemma {:induction false} ItemsOnly(p: Pool, e: Event, p': Pool)
    requires Integrity(p) && ItemsOk(p) && OnWork(e) && !e.CompletionCall? && !e.LeaseCall? && !e.Closing?
    requires WorkHappens(p, e, p')
    ensures p' == p.(items := p'.items)
    ensures forall j: Id :: j in p'.items ==> j in p.items && p'.items[j].contact == p.items[j].contact
  {
  }

  /** Nothing happened to the contact, nor did it gain an item, nor was its campaign completed. */
  lemma {:induction false} StrandedKept(p: Pool, p': Pool, c: Id)
    requires Stranded(p, c) && p.nextId <= p'.nextId && c in p'.contacts && p'.contacts[c] == p.contacts[c]
    requires forall i: Id :: i in p'.items && p'.items[i].contact == c ==> i in p.items && p.items[i].contact == c
    requires var m := p.contacts[c].campaign; m in p'.campaigns && p'.campaigns[m].status != Finished
    ensures Stranded(p', c)
  {
    assert forall i: Id :: ItemFor(p', i, c) ==> ItemFor(p, i, c);
  }

  lemma {:induction false} StrandedMarking(p: Pool, p': Pool, now: int, c: Id)
    requires Stranded(p, c) && p' == p.(campaigns := MarkedAll(p.campaigns, CompleteCampaigns(p), now))
    ensures Stranded(p', c) && p'.contacts[c] == p.contacts[c]
  {
    StrandedOutstanding(p, c);
    StrandedKept(p, p', c);
  }

  lemma {:induction false} StrandedDeleting(p: Pool, p': Pool, gone: set<Id>, c: Id)
    requires Stranded(p, c) && p' == Without(p, gone)
    requires forall m :: m in gone ==> m in p.campaigns && p.campaigns[m].status == Finished
    ensures Stranded(p', c) && p'.contacts[c] == p.contacts[c]
  {
    StrandedKept(p, p', c);
  }

  lemma {:induction false} StrandedOutstanding(p: Pool, c: Id)
    requires Stranded(p, c)
    ensures !IsComplete(p, p.contacts[c].campaign)
  {
    assert c in Outstanding(p, p.contacts[c].campaign);
  }

  lemma {:induction false} StrandedCompletion(p: Pool, p': Pool, q: Request, now: int, callbacks: bool, c: Id)
    requires PoolOk(p) && Stranded(p, c) && Complete(p, q, now, callbacks).Ok?
    requires Complete(p, q, now, callbacks).value.0 == p'
    requires forall i: Id :: i in p.items ==> p.items[i].contact != c
    ensures Stranded(p', c) && p'.contacts[c] == p.contacts[c]
  {
    if Existing(p, q.agent, q.key).None? {
      CompletionLeavesContact(p, p', q, now, callbacks, c);
      StrandedKept(p, p', c);
    }
  }

  lemma {:induction false} CompletionLeavesContact(p: Pool, p': Pool, q: Request, now: int, callbacks: bool, c: Id)
    requires Integrity(p) && FirstCompletion(p, q, now, callbacks).Ok?
    requires FirstCompletion(p, q, now, callbacks).value.0 == p'
    requires c in p.contacts && forall i: Id :: i in p.items ==> p.items[i].contact != c
    ensures c in p'.contacts && p'.contacts[c] == p.contacts[c] && p'.campaigns == p.campaigns && p.nextId <= p'.nextId
    ensures forall i: Id :: i in p'.items ==> i in p.items && p'.items[i].contact == p.items[i].contact
  {
  }

  lemma {:induction false} StrandedLease(p: Pool, p': Pool, agent: Uuid, w: World, r: Answer, c: Id)
    requires PoolOk(p) && Stranded(p, c) && Answers(p, p', agent, w, r)
    requires forall i: Id :: i in p.items ==> p.items[i].contact != c
    ensures Stranded(p', c) && p'.contacts[c] == p.contacts[c]
  {
    LeaseKeepsRows(p, p', agent, w, r);
    StrandedKept(p, p', c);
  }

  lemma {:induction false} LeaseKeepsRows(p: Pool, p': Pool, agent: Uuid, w: World, r: Answer)
    requires Integrity(p) && ItemsOk(p) && Answers(p, p', agent, w, r)
    ensures p'.contacts == p.contacts && p'.campaigns == p.campaigns && p.nextId <= p'.nextId
    ensures forall i: Id :: i in p'.items ==> i in p.items && p'.items[i].contact == p.items[i].contact
  {
  }

  lemma {:induction false} StrandedImport(p: Pool, campaign: Id, phones: seq<Phone>, now: int, c: Id)
    requires PoolOk(p) && Stranded(p, c) && campaign in p.campaigns
    ensures var p' := ImportAll(p, campaign, phones, now).0; Stranded(p', c) && p'.contacts[c] == p.contacts[c]
  {
    if phones != [] {
      StrandedImport(p, campaign, phones[..|phones| - 1], now, c);
      var q := ImportAll(p, campaign, phones[..|phones| - 1], now).0;
      var p' := ImportAll(p, campaign, phones, now).0;
      assert forall i: Id :: ItemFor(p', i, c) ==> ItemFor(q, i, c);
    }
  }

  /** Being stuck is decided when the contact enters: between any two states of a run, a contact
      that was there is stuck at the end exactly if it was at the start. Its campaign is then
      never completed and its data never deleted, and no other contact ever gets stuck. */
  lemma {:induction false} StrandedForever(r: Run, m: nat, n: nat, c: Id)
    requires IsRun(r) && m <= n < |r.states| && c in r.states[m].contacts
    ensures Stranded(r.states[n], c) <==> Stranded(r.states[m], c)
    ensures Stranded(r.states[m], c) ==> r.states[n].contacts[c] == r.states[m].contacts[c]
  {
    if Stranded(r.states[m], c) {
      StrandedOn(r, m, n, c);
    }
    if Stranded(r.states[n], c) {
      InvariantAt(r, m);
      FollowsAlong(r, m, n);
      StrandedBefore(r.states[m], r.states[n], c);
    }
  }

  lemma {:induction false} StrandedOn(r: Run, m: nat, n: nat, c: Id)
    requires IsRun(r) && m <= n < |r.states| && Stranded(r.states[m], c)
    ensures Stranded(r.states[n], c) && r.states[n].contacts[c] == r.states[m].contacts[c]
  {
    if m < n {
      StrandedOn(r, m, n - 1, c);
      StrandedAt(r, n - 1, c);
    }
  }

  lemma {:induction false} StrandedBefore(p: Pool, q: Pool, c: Id)
    requires Integrity(p) && DoneOk(p) && c in p.contacts && Follows(p, q) && Stranded(q, c)
    ensures Stranded(p, c)
  {
    forall i: Id ensures !ItemFor(p, i, c) {
      assert ItemFor(p, i, c) ==> ItemFor(q, i, c);
    }
    assert !HasItem(p, c);
  }

  lemma {:induction false} StrandedAt(r: Run, n: nat, c: Id)
    requires IsRun(r) && n < |r.events| && Stranded(r.states[n], c)
    ensures Stranded(r.states[n + 1], c) && r.states[n + 1].contacts[c] == r.states[n].contacts[c]
  {
    InvariantAt(r, n);
    HappensAt(r, n);
    StrandedStays(r.states[n], r.events[n], r.states[n + 1], c);
  }

  /** A number added to a campaign that is not completed gets stuck exactly if it is suppressed. */
  lemma {:induction false} ImportStrandsIffSuppressed(p: Pool, campaign: Id, phone: Phone, now: int)
    requires PoolOk(p) && campaign in p.campaigns && p.campaigns[campaign].status != Finished
    requires !InCampaignAlready(p, campaign, phone)
    ensures Stranded(ImportAll(p, campaign, [phone], now).0, p.nextId) <==> phone in p.suppressed
  {
    assert [phone][..0] == [];
    assert ImportAll(p, campaign, [], now) == (p, Tally(0, 0));
    var p' := ImportAll(p, campaign, [phone], now).0;
    assert p' == Added(p, campaign, phone, now);
    if phone in p.suppressed {
      assert forall i: Id :: i in p'.items ==> p'.items[i].contact < p.nextId;
    } else {
      assert ItemFor(p', p.nextId + 1, p.nextId);
    }
  }

  // -------------------------------------------------------------------- outcomes

  /** In every reachable state a completion that passes its guards goes through: neither the
      missing-delay error nor the unknown-action error can occur. */
  lemma {:induction false} LateErrorsUnreachable(r: Run, n: nat, q: Request, now: int, callbacks: bool)
    requires IsRun(r) && n < |r.states|
    ensures PoolOk(r.states[n])
    ensures Refusal(r.states[n], q, now, callbacks).None? ==> FirstCompletion(r.states[n], q, now, callbacks).Ok?
  {
    InvariantAt(r, n);
    if Refusal(r.states[n], q, now, callbacks).None? {
      NoLateMismatch(r.states[n], q, now, callbacks);
    }
  }

  predicate AddsOutcome(e: Event, campaign: Id) {
    e.AddingOutcome? && e.campaign == campaign
  }

  /** Work on items leaves every outcome definition as it is. */
  lemma {:induction false} WorkLeavesOutcomes(p: Pool, e: Event, p': Pool)
    requires Integrity(p) && ItemsOk(p) && OnWork(e) && WorkHappens(p, e, p')
    ensures p'.dispositions == p.dispositions
  {
    if e.CompletionCall? {
      CompletionLeavesOutcomes(p, p', e.request, e.now, e.callbacks);
    } else if e.LeaseCall? {
      LeaseLeavesOutcomes(p, p', e.leaser, e.world, e.answer);
    } else {
      PlainLeavesOutcomes(p, e, p');
    }
  }

  lemma {:induction false} CompletionLeavesOutcomes(p: Pool, p': Pool, q: Request, now: int, callbacks: bool)
    requires Integrity(p) && Complete(p, q, now, callbacks).Ok? && Complete(p, q, now, callbacks).value.0 == p'
    ensures p'.dispositions == p.dispositions
  {
  }

  lemma {:induction false} LeaseLeavesOutcomes(p: Pool, p': Pool, agent: Uuid, w: World, r: Answer)
    requires Integrity(p) && ItemsOk(p) && Answers(p, p', agent, w, r)
    ensures p'.dispositions == p.dispositions
  {
  }

  lemma {:induction false} PlainLeavesOutcomes(p: Pool, e: Event, p': Pool)
    requires Integrity(p) && ItemsOk(p) && OnWork(e) && !e.CompletionCall? && !e.LeaseCall? && WorkHappens(p, e, p')
    ensures p'.dispositions == p.dispositions
  {
    if !e.Closing? {
      ItemsOnly(p, e, p');
    }
  }

  lemma {:induction false} SameOutcomesConform(p: Pool, p': Pool, campaign: Id)
    requires Conforms(p, campaign)
    requires forall d: Id, code :: ActiveRow(p', d, campaign, code) <==> ActiveRow(p, d, campaign, code)
    requires forall d: Id, code :: ActiveRow(p, d, campaign, code) ==>
        d in p'.dispositions && p'.dispositions[d] == p.dispositions[d]
    ensures Conforms(p', campaign)
  {
    forall n | 0 <= n < |MANIFEST| ensures EntryMet(p', campaign, MANIFEST[n]) {
      assert EntryMet(p, campaign, MANIFEST[n]);
      var d :| ActiveRow(p, d, campaign, MANIFEST[n].code) && Matches(p.dispositions[d], MANIFEST[n]);
      assert ActiveRow(p', d, campaign, MANIFEST[n].code);
    }
  }

  lemma {:induction false} ConformsKept(p: Pool, e: Event, p': Pool, campaign: Id)
    requires PoolOk(p) && Happens(p, e, p') && Conforms(p, campaign) && !AddsOutcome(e, campaign)
    ensures Conforms(p', campaign)
  {
    if OnWork(e) {
      WorkLeavesOutcomes(p, e, p');
      SameOutcomesConform(p, p', campaign);
    } else {
      CampaignConforms(p, e, p', campaign);
    }
  }

  lemma {:induction false} CampaignConforms(p: Pool, e: Event, p': Pool, campaign: Id)
    requires Integrity(p) && UniqueKeys(p) && ItemsOk(p) && !OnWork(e) && CampaignHappens(p, e, p')
    requires Conforms(p, campaign) && !AddsOutcome(e, campaign)
    ensures Conforms(p', campaign)
  {
    match e
    case SettingDelay(there, d, code, minutes) => DelayConforms(p, p', there, d, code, minutes, campaign);
    case Installing(there, o) => InstallElsewhere(p, p', there, o, campaign);
    case Importing(there, phones, now) =>
      ImportLeavesOutcomes(p, there, phones, now);
      SameOutcomesConform(p, p', campaign);
    case AddingOutcome(there, x) => AddedElsewhere(p, p', there, x, campaign);
    case _ => SameOutcomesConform(p, p', campaign);
  }

  lemma {:induction false} AddedElsewhere(p: Pool, p': Pool, there: Id, x: Draftee, campaign: Id)
    requires Integrity(p) && p'.dispositions == p.dispositions[p.nextId := Plain(there, x)] && there != campaign
    requires Conforms(p, campaign)
    ensures Conforms(p', campaign)
  {
    SameOutcomesConform(p, p', campaign);
  }

  lemma {:induction false} ImportLeavesOutcomes(p: Pool, campaign: Id, phones: seq<Phone>, now: int)
    ensures ImportAll(p, campaign, phones, now).0.dispositions == p.dispositions
  {
    if phones != [] {
      ImportLeavesOutcomes(p, campaign, phones[..|phones| - 1], now);
    }
  }

  lemma {:induction false} DelayConforms(p: Pool, p': Pool, there: Id, d: Id, code: string, minutes: int, campaign: Id)
    requires UniqueKeys(p) && DispositionFor(p, d, there, code) && Editable(code) && Within(minutes)
    requires p'.dispositions == p.dispositions[d := p.dispositions[d].(retryDelay := Some(minutes))]
    requires Conforms(p, campaign)
    ensures Conforms(p', campaign)
  {
    if there == campaign {
      RetryUpdateConforms(p, p', campaign, d, code, minutes);
    } else {
      SameOutcomesConform(p, p', campaign);
    }
  }

  /** An installation elsewhere; one here would need a campaign without outcomes. */
  lemma {:induction false} InstallElsewhere(p: Pool, p': Pool, there: Id, o: Overrides, campaign: Id)
    requires Integrity(p) && there in p.campaigns && NoDispositions(p, there) && p' == Installed(p, there, o)
    requires Conforms(p, campaign)
    ensures Conforms(p', campaign)
  {
    assert EntryMet(p, campaign, MANIFEST[0]);
    assert there != campaign;
    InstalledApart(p, p', there, o);
    SameOutcomesConform(p, p', campaign);
  }

  /** The old rows stay; the new ones belong to the campaign installed. */
  lemma {:induction false} InstalledApart(p: Pool, p': Pool, there: Id, o: Overrides)
    requires Integrity(p) && there in p.campaigns && p' == Installed(p, there, o)
    ensures forall d :: d in p.dispositions ==> d in p'.dispositions && p'.dispositions[d] == p.dispositions[d]
    ensures forall d :: d in p'.dispositions && d !in p.dispositions ==> p'.dispositions[d].campaign == there
  {
    RowsAre(p.dispositions, there, o, p.nextId, |MANIFEST|);
    forall d | d in p'.dispositions && d !in p.dispositions ensures p'.dispositions[d].campaign == there {
      assert p'.dispositions[p.nextId + (d - p.nextId)] == Locked(there, MANIFEST[d - p.nextId], o);
    }
  }

  /** A campaign with the manifest installed still validates for launch at any later time,
      whatever delays were set and whatever else happened, as long as nobody adds a free-form
      outcome to it. */
  lemma {:induction false} InstalledStaysValid(r: Run, m: nat, n: nat, campaign: Id)
    requires IsRun(r) && m < n < |r.states| && r.events[m].Installing? && r.events[m].campaign == campaign
    requires forall k :: m < k < n ==> !AddsOutcome(r.events[k], campaign)
    ensures Conforms(r.states[n], campaign)
  {
    if n == m + 1 {
      InstalledAt(r, m);
    } else {
      InstalledStaysValid(r, m, n - 1, campaign);
      ConformsAt(r, n - 1, campaign);
    }
  }

  lemma {:induction false} InstalledAt(r: Run, m: nat)
    requires IsRun(r) && m < |r.events| && r.events[m].Installing?
    ensures Conforms(r.states[m + 1], r.events[m].campaign)
  {
    InvariantAt(r, m);
    HappensAt(r, m);
    InstallConforms(r.states[m], r.events[m].campaign, r.events[m].overrides);
  }

  lemma {:induction false} ConformsAt(r: Run, n: nat, campaign: Id)
    requires IsRun(r) && n < |r.events| && Conforms(r.states[n], campaign) && !AddsOutcome(r.events[n], campaign)
    ensures Conforms(r.states[n + 1], campaign)
  {
    InvariantAt(r, n);
    HappensAt(r, n);
    ConformsKept(r.states[n], r.events[n], r.states[n + 1], campaign);
  }
}
