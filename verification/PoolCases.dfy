/** Concrete runs from the empty database: two in which an expired lease is taken back and the
    item does not return to the state it was leased from, with the exact condition, and one
    that leaves an active campaign nobody can ever complete. */
module PoolCases {
  import opened Basics
  import opened WorkStates
  import opened PoolState
  import opened WorkRules
  import opened Leasing
  import opened Offers
  import opened ContactImport
  import opened Retention
  import opened Dispositions
  import opened PoolRuns

  const AGENT: Uuid := 9
  const PHONE: Phone := 7
  const EMPTY := Pool(map[], map[], {}, map[], {}, map[], map[], [], 0)
  const CONTACT: Id := 3
  const ITEM: Id := 4
  const REASON := "-"
  const REVIEW := Draftee("Needs review", "needs_review", Some("review"), false, false, true, false)
  const CALLBACK := Draftee("Call back", "call_back", None, false, true, true, false)
  const NO_CALLS := Draftee("Do not call", DNC_CODE, None, false, false, true, true)
  const NEW_CAMPAIGN := Campaign(Draft, None, None, false, true)
  const CALLER := Staffing(AGENT, 0, true, true, true, 0, None)

  const OUTCOMES: map<Id, Disposition> := map[0 := Plain(0, REVIEW), 1 := Plain(0, CALLBACK), 2 := Plain(0, NO_CALLS)]

  function Calm(now: int): World {
    World(now, true, true, {}, {}, {})
  }

  // -------------------------------------------------------------- building runs

  ghost predicate EndsIn(r: Run, p: Pool) {
    |r.states| == |r.events| + 1 && r.states[0] == EMPTY && r.states[|r.events|] == p && IsRun(r)
  }

  lemma {:induction false} Extended(r: Run, p: Pool, e: Event, p': Pool) returns (s: Run)
    requires EndsIn(r, p) && (PoolOk(p) ==> Happens(p, e, p'))
    ensures EndsIn(s, p') && s.states == r.states + [p'] && s.events == r.events + [e]
  {
    s := Run(r.states + [p'], r.events + [e]);
    forall n: nat ensures StepOf(s, n) {
      if n < |r.events| {
        StepAgain(r, s, n);
      } else {
        LastStep(s, n, p, e, p');
      }
    }
  }

  lemma {:induction false} StepAgain(r: Run, s: Run, n: nat)
    requires IsRun(r) && r.states <= s.states && r.events <= s.events && n < |r.events| && n + 1 < |r.states|
    ensures StepOf(s, n)
  {
    assert s.states[n] == r.states[n] && s.events[n] == r.events[n] && s.states[n + 1] == r.states[n + 1];
    assert StepOf(r, n);
  }

  lemma {:induction false} LastStep(s: Run, n: nat, p: Pool, e: Event, p': Pool)
    requires |s.states| == |s.events| + 1 && |s.events| <= n + 1
    requires n + 1 == |s.events| ==> s.states[n] == p && s.events[n] == e && s.states[n + 1] == p'
    requires (n == 0 ==> PoolOk(s.states[n])) && (PoolOk(p) ==> Happens(p, e, p'))
    ensures StepOf(s, n)
  {
  }

  // -------------------------------------------------------- one number, one agent

  /** The database while the one number of the one campaign is called by the one agent. */
  predicate Alone(p: Pool, x: Item) {
    && p.items == map[ITEM := x] && x.contact == CONTACT && p.suppressed == {} && p.staffing == [CALLER]
    && p.contacts == map[CONTACT := CampaignContact(0, PHONE, ToCall, None, None, None)]
    && p.campaigns == map[0 := NEW_CAMPAIGN.(status := Active)]
    && p.dispositions == OUTCOMES
  }

  /** From nothing to a campaign in which the agent calls the number. */
  lemma {:induction false} Opened() returns (r: Run, p: Pool)
    ensures EndsIn(r, p) && Alone(p, NewItem(CONTACT, 0)) && p.attempts == map[] && p.nextId == 5
  {
    r, p := Run([EMPTY], []), EMPTY;
    assert PoolOk(EMPTY);
    r, p := CampaignOpened(r, p, 0);
    r, p := OutcomesAdded(r, p);
    r, p := NumberImported(r, p);
    r, p := Started(r, p);
  }

  lemma {:induction false} CampaignOpened(r: Run, p: Pool, m: Id) returns (s: Run, p': Pool)
    requires EndsIn(r, p) && m !in p.campaigns
    ensures EndsIn(s, p') && p' == p.(campaigns := p.campaigns[m := NEW_CAMPAIGN])
  {
    p' := p.(campaigns := p.campaigns[m := NEW_CAMPAIGN]);
    s := Extended(r, p, OpeningCampaign(m, true), p');
  }

  lemma {:induction false} OutcomesAdded(r: Run, p: Pool) returns (s: Run, p': Pool)
    requires EndsIn(r, p) && p == EMPTY.(campaigns := map[0 := NEW_CAMPAIGN])
    ensures EndsIn(s, p')
    ensures p' == p.(dispositions := OUTCOMES, nextId := 3)
  {
    s, p' := OutcomeAdded(r, p, REVIEW);
    s, p' := OutcomeAdded(s, p', CALLBACK);
    s, p' := OutcomeAdded(s, p', NO_CALLS);
  }

  lemma {:induction false} OutcomeAdded(r: Run, p: Pool, x: Draftee) returns (s: Run, p': Pool)
    requires EndsIn(r, p) && 0 in p.campaigns && (x.causesDnc <==> x.code == DNC_CODE)
    requires !CodeTaken(p, 0, x.code) && x.nextAction in {None, Some("review")}
    ensures EndsIn(s, p')
    ensures p' == p.(dispositions := p.dispositions[p.nextId := Plain(0, x)], nextId := p.nextId + 1)
  {
    p' := p.(dispositions := p.dispositions[p.nextId := Plain(0, x)], nextId := p.nextId + 1);
    s := Extended(r, p, AddingOutcome(0, x), p');
  }

  lemma {:induction false} NumberImported(r: Run, p: Pool) returns (s: Run, p': Pool)
    requires EndsIn(r, p) && p.nextId == 3 && p.contacts == map[] && p.items == map[] && p.suppressed == {}
    requires 0 in p.campaigns
    ensures EndsIn(s, p') && p' == Added(p, 0, PHONE, 0)
  {
    OneImported(p, 0, 0);
    p' := Added(p, 0, PHONE, 0);
    s := Extended(r, p, Importing(0, [PHONE], 0), p');
  }

  lemma {:induction false} Started(r: Run, p: Pool) returns (s: Run, p': Pool)
    requires EndsIn(r, p) && p.campaigns == map[0 := NEW_CAMPAIGN]
    ensures EndsIn(s, p')
    ensures p' == p.(campaigns := map[0 := NEW_CAMPAIGN.(status := Active)], staffing := [CALLER])
  {
    var q := p.(campaigns := map[0 := NEW_CAMPAIGN.(status := Active)]);
    s := Extended(r, p, SettingStatus(0, Active), q);
    p' := q.(staffing := [CALLER]);
    s := Extended(s, q, Restaffing([CALLER]), p');
  }

  // ------------------------------------------------------------------- the steps

  lemma {:induction false} FreeOf(p: Pool, x: Item, kind: Kind, other: Kind, now: int)
    requires Alone(p, x) && Integrity(p) && StillWaiting(x, AGENT, kind, now) && 0 <= now
    ensures FreeCandidates(p, AGENT, other, 0, Calm(now)) == if other == kind then {ITEM} else {}
  {
    assert Current(p.staffing[0], AGENT, now);
  }

  /** Whatever the item waits for, the call takes it. */
  lemma {:induction false} OnlyOneToLease(p: Pool, x: Item, kind: Kind, now: int)
    requires Alone(p, x) && Integrity(p) && StillWaiting(x, AGENT, kind, now) && 0 <= now
    ensures Chosen(p, AGENT, Calm(now), Some(Choice(ITEM, kind)))
  {
    FreeOf(p, x, kind, CallbackKind, now);
    if kind.CallbackKind? {
      BestOfOne(p, x, kind, now);
    } else {
      assert PrimaryAt(p, AGENT, now, 0);
      assert IsPrimary(p, AGENT, now, Some(0));
      SharedChoice(p, x, kind, now);
    }
  }

  lemma {:induction false} BestOfOne(p: Pool, x: Item, kind: Kind, now: int)
    requires Alone(p, x) && Integrity(p) && StillWaiting(x, AGENT, kind, now) && 0 <= now
    ensures Best(p.items, FreeCandidates(p, AGENT, kind, 0, Calm(now)), kind, ITEM)
  {
    FreeOf(p, x, kind, kind, now);
  }

  lemma {:induction false} SharedChoice(p: Pool, x: Item, kind: Kind, now: int)
    requires Alone(p, x) && Integrity(p) && StillWaiting(x, AGENT, kind, now) && 0 <= now && !kind.CallbackKind?
    ensures ChosenShared(p, AGENT, Calm(now), Some(0), Some(Choice(ITEM, kind)))
  {
    FreeOf(p, x, kind, RetryKind, now);
    FreeOf(p, x, kind, FreshKind, now);
    BestOfOne(p, x, kind, now);
  }

  lemma {:induction false} Leased(r: Run, p: Pool, x: Item, kind: Kind, now: int) returns (s: Run, p': Pool, y: Item)
    requires EndsIn(r, p) && Alone(p, x) && StillWaiting(x, AGENT, kind, now) && 0 <= now
    ensures EndsIn(s, p') && Alone(p', y) && y == Taken(x, AGENT, p.nextId, ReasonFor(kind), now)
    ensures p'.attempts == p.attempts && p'.nextId == p.nextId + 1
    ensures s.states == r.states + [p'] && |s.events| == |r.events| + 1
    ensures var e := s.events[|r.events|]; e.LeaseCall? && e.answer.Granted? && e.answer.grant.item == ITEM
  {
    y := Taken(x, AGENT, p.nextId, ReasonFor(kind), now);
    p' := Lease(p, Choice(ITEM, kind), AGENT, now);
    if PoolOk(p) {
      LeaseAnswers(p, x, kind, now);
    }
    s := Extended(r, p, LeaseCall(AGENT, Calm(now), GrantFor(p, kind, now)), p');
  }

  function GrantFor(p: Pool, kind: Kind, now: int): Answer {
    Granted(Grant(ITEM, p.nextId, now + LEASE_SECONDS, 0, PHONE, ReasonFor(kind)))
  }

  lemma {:induction false} LeaseAnswers(p: Pool, x: Item, kind: Kind, now: int)
    requires Integrity(p) && ItemsOk(p) && Alone(p, x) && StillWaiting(x, AGENT, kind, now) && 0 <= now
    ensures Answers(p, Lease(p, Choice(ITEM, kind), AGENT, now), AGENT, Calm(now), GrantFor(p, kind, now))
  {
    OnlyOneToLease(p, x, kind, now);
    var c := Choice(ITEM, kind);
    assert Outcome(p, Lease(p, c, AGENT, now), AGENT, now, Some(c), GrantFor(p, kind, now));
  }

  /** The first call ends with one of the two outcomes. */
  lemma {:induction false} Completed(r: Run, p: Pool, x: Item, q: Request, now: int)
    returns (s: Run, p': Pool, y: Item)
    requires EndsIn(r, p) && Alone(p, x) && Holds(p, ITEM, AGENT, q.lease, now) && p.attempts == map[]
    requires q.item == ITEM && q.agent == AGENT && q.duration.None? && q.disposition in {0, 1}
    requires if q.disposition == 0 then q.callbackAt.None? else q.callbackAt.Some? && now < q.callbackAt.value
    ensures EndsIn(s, p') && Alone(p', y) && p'.nextId == p.nextId + 2
    ensures y == Counted(CalledOnce(x, q))
  {
    var done := Conclude(p, q, p.dispositions[q.disposition], p.items[ITEM := CalledOnce(x, q)], p.contacts,
                         p.suppressed, now);
    p', y := done.0, Counted(CalledOnce(x, q));
    if PoolOk(p) {
      CompletionAnswers(p, x, q, now);
    }
    s := Extended(r, p, CompletionCall(q, now, true, done.1), p');
  }

  function CalledOnce(x: Item, q: Request): Item {
    if q.disposition == 0 then Unleased(x).(state := Review)
    else Unleased(x).(state := CallbackWait, due := q.callbackAt, keptBy := Some(q.agent))
  }

  lemma {:induction false} CompletionAnswers(p: Pool, x: Item, q: Request, now: int)
    requires Integrity(p) && Alone(p, x) && Holds(p, ITEM, AGENT, q.lease, now) && p.attempts == map[]
    requires q.item == ITEM && q.agent == AGENT && q.duration.None? && q.disposition in {0, 1}
    requires if q.disposition == 0 then q.callbackAt.None? else q.callbackAt.Some? && now < q.callbackAt.value
    ensures Complete(p, q, now, true) ==
            Ok(Conclude(p, q, p.dispositions[q.disposition], p.items[ITEM := CalledOnce(x, q)], p.contacts,
                        p.suppressed, now))
  {
    assert Existing(p, AGENT, q.key).None?;
    assert Worked(x, p.dispositions[q.disposition], q, x.attempts + 1, now, p.nextId + 1) == Ok(CalledOnce(x, q));
  }

  lemma {:induction false} Reclaimed(r: Run, p: Pool, x: Item) returns (s: Run, p': Pool)
    requires EndsIn(r, p) && Alone(p, x) && x.state.Leased?
    ensures EndsIn(s, p') && Alone(p', Returned(x))
    ensures s.states == r.states + [p'] && s.events == r.events + [Reclaim({ITEM})]
  {
    p' := p.(items := ReturnedAll(p.items, {ITEM}));
    s := Extended(r, p, Reclaim({ITEM}), p');
  }

  // ------------------------------------------------------------------- the cases

  predicate OnlyExpired(p: Pool, now: int, i: Id) {
    ExpiredLeases(p, {}, now) == {i}
  }

  /** At some time the job finds exactly this item. */
  ghost predicate RunsOut(p: Pool, i: Id) {
    exists now :: OnlyExpired(p, now, i)
  }

  /** From the empty database, item `i` is leased at step `n`, runs out untouched, and is the one
      item the job then takes back. */
  ghost predicate LeasedAndReclaimed(r: Run, n: nat, i: Id) {
    && |r.states| == |r.events| + 1 && n + 1 < |r.events| && r.states[0] == EMPTY && IsRun(r)
    && r.events[n].LeaseCall? && r.events[n].answer.Granted? && r.events[n].answer.grant.item == i
    && r.events[n + 1] == Reclaim({i}) && i in r.states[n].items && i in r.states[n + 2].items
    && RunsOut(r.states[n + 1], i)
  }

  /** Leased and taken back at once, a waiting item of the one number. */
  lemma {:induction false} LeasedThenReclaimed(r: Run, p: Pool, x: Item, kind: Kind, now: int)
    returns (s: Run, p': Pool, y: Item)
    requires EndsIn(r, p) && Alone(p, x) && StillWaiting(x, AGENT, kind, now) && 0 <= now
    ensures LeasedAndReclaimed(s, |r.events|, ITEM) && s.states[|r.events|].items[ITEM] == x
    ensures s.states[|r.events| + 2].items[ITEM] == Returned(Taken(x, AGENT, p.nextId, ReasonFor(kind), now))
  {
    s, p', y := Leased(r, p, x, kind, now);
    assert OnlyExpired(p', now + LEASE_SECONDS + 1, ITEM);
    s, p' := Reclaimed(s, p', y);
  }

  /** A due retry: called, sent to review, rescheduled, leased again. It waited for its time
      ahead of the queue, and comes back as one of the queue. */
  lemma {:induction false} RetryIsQueued() returns (r: Run, n: nat, i: Id)
    ensures LeasedAndReclaimed(r, n, i)
    ensures r.states[n].items[i].state.RetryWait? && r.states[n + 2].items[i].state.Queued?
  {
    var s, p := Opened();
    var x;
    assert REASON[0] == '-';
    s, p, x := Leased(s, p, NewItem(CONTACT, 0), FreshKind, 100);
    s, p, x := Completed(s, p, x, Request(ITEM, AGENT, ITEM + 1, 0, "", None, None, "first"), 200);
    s, p, x := Rescheduled(s, p, x, 400, REASON, 300);
    n, i := |s.events|, ITEM;
    r, p, x := LeasedThenReclaimed(s, p, x, RetryKind, 500);
  }

  lemma {:induction false} Rescheduled(r: Run, p: Pool, x: Item, retryAt: int, reason: string, now: int)
    returns (s: Run, p': Pool, y: Item)
    requires EndsIn(r, p) && Alone(p, x) && x.state.Review? && now < retryAt && !Blank(reason)
    ensures EndsIn(s, p') && Alone(p', y) && y == x.(state := RetryWait, due := Some(retryAt), keptBy := None)
  {
    y := x.(state := RetryWait, due := Some(retryAt), keptBy := None);
    p' := WithItem(p, ITEM, y);
    s := Extended(r, p, Rescheduling(ITEM, retryAt, reason, now), p');
  }

  lemma {:induction false} Skipped(r: Run, p: Pool, x: Item, reason: string, now: int)
    returns (s: Run, p': Pool, y: Item)
    requires EndsIn(r, p) && Alone(p, x) && x.leaseId.Some? && Holds(p, ITEM, AGENT, x.leaseId.value, now)
    requires !Blank(reason) && x.skips + 1 < MAX_SKIPS
    ensures EndsIn(s, p') && Alone(p', y) && y == SkippedOnce(x)
  {
    y := SkippedOnce(x);
    p' := WithItem(p, ITEM, y);
    SkipAnswers(p, x, reason, now);
    s := Extended(r, p, Skipping(ITEM, AGENT, x.leaseId.value, reason, now), p');
  }

  function SkippedOnce(x: Item): Item {
    Unleased(x).(skips := x.skips + 1, state := Queued)
  }

  lemma {:induction false} SkipAnswers(p: Pool, x: Item, reason: string, now: int)
    requires Alone(p, x) && x.leaseId.Some? && Holds(p, ITEM, AGENT, x.leaseId.value, now)
    requires !Blank(reason) && x.skips + 1 < MAX_SKIPS
    ensures Skip(p, ITEM, AGENT, x.leaseId.value, reason, now) == Ok(WithItem(p, ITEM, SkippedOnce(x)))
    ensures Alone(WithItem(p, ITEM, SkippedOnce(x)), SkippedOnce(x))
  {
  }

  /** A skipped callback: called, kept by the agent for a callback, leased for it, skipped into
      the queue, leased from there. It was anyone's, and comes back as the agent's own. */
  lemma {:induction false} SkippedCallbackIsKept() returns (r: Run, n: nat, i: Id)
    ensures LeasedAndReclaimed(r, n, i)
    ensures r.states[n].items[i].state.Queued? && r.states[n + 2].items[i].state.CallbackWait?
  {
    var s, p := Opened();
    var x;
    assert REASON[0] == '-';
    s, p, x := Leased(s, p, NewItem(CONTACT, 0), FreshKind, 100);
    s, p, x := Completed(s, p, x, Request(ITEM, AGENT, ITEM + 1, 1, "", Some(300), None, "first"), 200);
    s, p, x := Leased(s, p, x, CallbackKind, 400);
    s, p, x := Skipped(s, p, x, REASON, 500);
    n, i := |s.events|, ITEM;
    r, p, x := LeasedThenReclaimed(s, p, x, FreshKind, 600);
  }

  // --------------------------------------------------------------- the condition

  /** In any run, a lease granted and at once taken back restores the item's state exactly if it
      was granted for a callback, or from the queue for an item that no agent keeps. */
  lemma {:induction false} ReclaimRestoresExactly(r: Run, n: nat, i: Id)
    requires IsRun(r) && n + 1 < |r.events| && r.events[n].LeaseCall? && r.events[n].answer.Granted?
    requires r.events[n].answer.grant.item == i && r.events[n + 1].Reclaim? && i in r.events[n + 1].chosen
    ensures i in r.states[n].items && i in r.states[n + 2].items
    ensures var reason, x := r.events[n].answer.grant.reason, r.states[n].items[i];
            r.states[n + 2].items[i].state == x.state <==>
              reason == ScheduledCallback || (reason == Normal && x.keptBy.None?)
  {
    GrantAt(r, n, i);
    ReclaimAt(r, n + 1, i);
  }

  lemma {:induction false} GrantAt(r: Run, n: nat, i: Id)
    requires IsRun(r) && n < |r.events| && r.events[n].LeaseCall? && r.events[n].answer.Granted?
    requires r.events[n].answer.grant.item == i
    ensures i in r.states[n].items && i in r.states[n + 1].items
    ensures RestoredIff(r.states[n].items[i], r.states[n + 1].items[i], r.events[n].answer.grant.reason)
  {
    var e := r.events[n];
    InvariantAt(r, n);
    HappensAt(r, n);
    GrantRestores(r.states[n], r.states[n + 1], e.leaser, e.world, e.answer);
  }

  ghost predicate RestoredIff(x: Item, leased: Item, reason: Reason) {
    Returned(leased).state == x.state <==> reason == ScheduledCallback || (reason == Normal && x.keptBy.None?)
  }

  lemma {:induction false} GrantRestores(p: Pool, p': Pool, agent: Uuid, w: World, a: Answer)
    requires PoolOk(p) && Answers(p, p', agent, w, a) && a.Granted?
    ensures a.grant.item in p.items && a.grant.item in p'.items
    ensures RestoredIff(p.items[a.grant.item], p'.items[a.grant.item], a.grant.reason)
  {
    var c :| Chosen(p, agent, w, c) && Outcome(p, p', agent, w.now, c, a);
    ReclaimRestoresIff(p, agent, w, c.value);
  }

  lemma {:induction false} ReclaimAt(r: Run, n: nat, i: Id)
    requires IsRun(r) && n < |r.events| && r.events[n].Reclaim? && i in r.events[n].chosen && i in r.states[n].items
    ensures i in r.states[n + 1].items && r.states[n + 1].items[i] == Returned(r.states[n].items[i])
  {
    InvariantAt(r, n);
    HappensAt(r, n);
  }

  // ------------------------------------------------- a campaign nobody can finish

  /** The number asks not to be called, and is then imported into a second campaign, which is
      launched: there is a contact and no item, and there never will be one. */
  lemma {:induction false} SuppressedImportIsStuck() returns (r: Run, p: Pool, c: Id)
    ensures EndsIn(r, p) && Stranded(p, c)
    ensures p.campaigns[p.contacts[c].campaign].status == Active && ContactsIn(p, p.contacts[c].campaign) == {c}
  {
    var x;
    r, p := Opened();
    r, p, x := Leased(r, p, NewItem(CONTACT, 0), FreshKind, 100);
    r, p := Refused(r, p, x, 200);
    r, p := SecondImport(r, p);
    c := p.nextId - 2;
    var q := p.(campaigns := p.campaigns[1 := p.campaigns[1].(status := Active)]);
    r := Extended(r, p, SettingStatus(1, Active), q);
    StrandedForever(r, |r.events| - 1, |r.events|, c);
    p := q;
  }

  lemma {:induction false} Refused(r: Run, p: Pool, x: Item, now: int) returns (s: Run, p': Pool)
    requires EndsIn(r, p) && Alone(p, x) && Holds(p, ITEM, AGENT, ITEM + 1, now) && p.attempts == map[]
    ensures EndsIn(s, p') && p'.suppressed == {PHONE} && p'.campaigns == p.campaigns && p'.contacts.Keys == {CONTACT}
    ensures p'.contacts[CONTACT].campaign == 0
  {
    InvariantAt(r, |r.events|);
    var c;
    p', c := RefusalAnswers(p, x, now);
    s := Extended(r, p, CompletionCall(Request(ITEM, AGENT, ITEM + 1, 2, "", None, None, "first"), now, true, c), p');
  }

  lemma {:induction false} RefusalAnswers(p: Pool, x: Item, now: int) returns (p': Pool, c: Completion)
    requires Integrity(p) && Alone(p, x) && Holds(p, ITEM, AGENT, ITEM + 1, now) && p.attempts == map[]
    ensures Complete(p, Request(ITEM, AGENT, ITEM + 1, 2, "", None, None, "first"), now, true) == Ok((p', c))
    ensures p'.suppressed == {PHONE} && p'.campaigns == p.campaigns && p'.contacts.Keys == {CONTACT}
    ensures p'.contacts[CONTACT].campaign == 0
  {
    var q := Request(ITEM, AGENT, ITEM + 1, 2, "", None, None, "first");
    assert Existing(p, AGENT, q.key).None?;
    p', c := Complete(p, q, now, true).value.0, Complete(p, q, now, true).value.1;
  }

  lemma {:induction false} SecondImport(r: Run, p: Pool) returns (s: Run, p': Pool)
    requires EndsIn(r, p) && p.suppressed == {PHONE} && 1 !in p.campaigns
    requires forall c :: c in p.contacts ==> p.contacts[c].campaign == 0
    ensures EndsIn(s, p') && 2 <= p'.nextId && Stranded(p', p'.nextId - 2)
    ensures 1 in p'.campaigns && p'.campaigns[1].status == Draft && p'.contacts[p'.nextId - 2].campaign == 1
    ensures ContactsIn(p', 1) == {p'.nextId - 2}
  {
    var q;
    s, q := CampaignOpened(r, p, 1);
    s, p' := StuckImport(s, q);
  }

  lemma {:induction false} StuckImport(r: Run, p: Pool) returns (s: Run, p': Pool)
    requires EndsIn(r, p) && p.suppressed == {PHONE} && 1 in p.campaigns && p.campaigns[1].status == Draft
    requires forall c :: c in p.contacts ==> p.contacts[c].campaign != 1
    ensures EndsIn(s, p') && p' == Added(p, 1, PHONE, 300) && Stranded(p', p.nextId)
  {
    InvariantAt(r, |r.events|);
    ImportStrandsIffSuppressed(p, 1, PHONE, 300);
    OneImported(p, 1, 300);
    p' := Added(p, 1, PHONE, 300);
    s := Extended(r, p, Importing(1, [PHONE], 300), p');
  }

  lemma {:induction false} OneImported(p: Pool, campaign: Id, now: int)
    requires !InCampaignAlready(p, campaign, PHONE)
    ensures ImportAll(p, campaign, [PHONE], now).0 == Added(p, campaign, PHONE, now)
  {
    assert [PHONE][..0] == [];
    assert ImportAll(p, campaign, [], now) == (p, Tally(0, 0));
  }
}
