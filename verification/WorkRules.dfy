/** What each work operation means, as a function of the whole database value. */
module WorkRules {
  import opened Basics
  import opened WorkStates
  import opened PoolState

  datatype WorkError =
    | LeaseConflict | DispositionMismatch | MissingField | KeyReused | NotInReview
    | CallbacksDisabled | NoAttempts

  function Unleased(x: Item): Item {
    x.(owner := None, leaseId := None, expires := None)
  }

  /** The item is leased to this agent under this lease and the lease has not run out. */
  predicate Holds(p: Pool, i: Id, agent: Uuid, lease: Id, now: int) {
    && i in p.items && p.items[i].state.Leased? && p.items[i].owner == Some(agent) && p.items[i].leaseId == Some(lease)
    && !(p.items[i].expires.Some? && p.items[i].expires.value <= now)
  }

  function WithItem(p: Pool, i: Id, x: Item): Pool {
    p.(items := p.items[i := x])
  }

  function Renew(p: Pool, i: Id, agent: Uuid, lease: Id, now: int): Result<Pool, WorkError> {
    if !Holds(p, i, agent, lease, now) || p.items[i].expires.None? then Err(LeaseConflict)
    else Ok(WithItem(p, i, p.items[i].(expires := Some(now + LEASE_SECONDS))))
  }

  /** Where an item goes when its lease is taken back. */
  function Returned(x: Item): Item {
    Unleased(x).(state := if x.keptBy.Some? then CallbackWait else Queued)
  }

  function Released(x: Item): Item {
    Unleased(x).(state := Queued, keptBy := None, due := None)
  }

  function ReturnedAll(items: map<Id, Item>, chosen: set<Id>): map<Id, Item> {
    map i | i in items :: if i in chosen then Returned(items[i]) else items[i]
  }

  function ReleasedAll(items: map<Id, Item>, chosen: set<Id>): map<Id, Item> {
    map i | i in items :: if i in chosen then Released(items[i]) else items[i]
  }

  /** Leases past their expiry whose row no other transaction has locked. */
  function ExpiredLeases(p: Pool, busy: set<Id>, now: int): set<Id> {
    set i | i in p.items && p.items[i].state.Leased? && p.items[i].expires.Some? && p.items[i].expires.value < now
        && i !in busy
  }

  function LeasesOf(p: Pool, agent: Uuid, busy: set<Id>): set<Id> {
    set i | i in p.items && p.items[i].state.Leased? && p.items[i].owner == Some(agent) && i !in busy
  }

  /** What the agent holds in one campaign: live leases and callbacks of their own. */
  function WorkOf(p: Pool, agent: Uuid, campaign: Id, busy: set<Id>): set<Id> {
    set i | i in p.items && p.items[i].contact in p.contacts && CampaignOf(p, i) == campaign && i !in busy
         && ((p.items[i].state.Leased? && p.items[i].owner == Some(agent))
             || (p.items[i].state.CallbackWait? && p.items[i].keptBy == Some(agent)))
  }

  // ------------------------------------------------------------- do not call sweep

  function ClosedBySweep(x: Item, now: int): Item {
    Unleased(x).(state := Suppressed, completedAt := Some(now))
  }

  function BlockedContact(c: CampaignContact, agent: Uuid, now: int): CampaignContact {
    c.(status := Blocked, completedAt := Some(now), completedBy := Some(agent), finalCode := Some(DNC_CODE))
  }

  /** Every open item of the number, in whichever campaign. */
  function OpenItems(p: Pool, phone: Phone): set<Id> {
    set i | i in p.items && p.items[i].contact in p.contacts && PhoneOf(p, i) == phone && !Terminal(p.items[i].state)
  }

  function SweptItems(items: map<Id, Item>, chosen: set<Id>, now: int): map<Id, Item> {
    map i | i in items :: if i in chosen then ClosedBySweep(items[i], now) else items[i]
  }

  function SweptContacts(contacts: map<Id, CampaignContact>, touched: set<Id>, agent: Uuid, now: int)
    : map<Id, CampaignContact> {
    map c | c in contacts :: if c in touched then BlockedContact(contacts[c], agent, now) else contacts[c]
  }

  function ContactsOf(items: map<Id, Item>, chosen: set<Id>): set<Id> {
    set i | i in chosen && i in items :: items[i].contact
  }

  // ------------------------------------------------------------------- completion

  datatype Request = Request(
    item: Id, agent: Uuid, lease: Id, disposition: Id, notes: string,
    callbackAt: Option<int>, duration: Option<int>, key: string)

  datatype Step = DoneStep | RetryScheduled | CallbackScheduled | RedialReady | ReviewStep | SuppressedStep

  datatype Completion = Completion(
    attempt: Id, state: WorkState, outcome: string, callbackAt: Option<int>, retryAt: Option<int>,
    redialLease: Option<Id>, redialExpires: Option<int>, next: Step)

  function NextStep(s: WorkState): Step {
    match s
    case RetryWait => RetryScheduled
    case Queued => RetryScheduled
    case CallbackWait => CallbackScheduled
    case Leased => RedialReady
    case Review => ReviewStep
    case Suppressed => SuppressedStep
    case _ => DoneStep
  }

  /** A repeated key answers from the stored attempt; the retry time is recomputed. */
  function Replay(p: Pool, a: Id, item: Id): Result<Completion, WorkError>
    requires a in p.attempts
  {
    var t := p.attempts[a];
    if t.item != item then Err(KeyReused)
    else
      var delay := if t.result.RetryWait? && t.disposition in p.dispositions
          then p.dispositions[t.disposition].retryDelay else None;
      Ok(Completion(a, t.result, t.outcome, t.callbackAt,
                    if delay.None? then None else Some(t.created + delay.value * 60),
                    t.resultLease, t.resultExpires, NextStep(t.result)))
  }

  /** The guards before anything is written, in order. */
  function Refusal(p: Pool, q: Request, now: int, callbacksEnabled: bool): Option<WorkError>
    requires q.item in p.items ==> p.items[q.item].contact in p.contacts
  {
    if !Holds(p, q.item, q.agent, q.lease, now) then Some(LeaseConflict)
    else if q.disposition !in p.dispositions || p.dispositions[q.disposition].campaign != CampaignOf(p, q.item)
        then Some(DispositionMismatch)
    else
      var d := p.dispositions[q.disposition];
      if !d.active then Some(DispositionMismatch)
      else if d.requiresNotes && q.notes == "" then Some(MissingField)
      else if q.callbackAt.Some? && !callbacksEnabled then Some(CallbacksDisabled)
      else if d.requiresCallback && (q.callbackAt.None? || q.callbackAt.value <= now) then Some(MissingField)
      else if q.duration.Some? && q.duration.value < 0 then Some(MissingField)
      else None
  }

  /** The item after an ordinary outcome; `n` counts this attempt. */
  function Worked(x: Item, d: Disposition, q: Request, n: nat, now: int, redial: Id): Result<Item, WorkError> {
    if d.requiresCallback then
      Ok(Unleased(x).(state := CallbackWait, due := q.callbackAt, keptBy := Some(q.agent)))
    else if Action(d) == "review" then Ok(Unleased(x).(state := Review))
    else if Action(d) == "complete" then Ok(Unleased(x).(state := Completed, completedAt := Some(now)))
    else if Action(d) !in {"requeue", "retry_wait", "immediate_redial"} then Err(DispositionMismatch)
    else if n >= x.maxAttempts then Ok(Unleased(x).(state := Review))
    else if Action(d) == "requeue" then Ok(Unleased(x).(state := Queued))
    else if Action(d) == "retry_wait" then
      if d.retryDelay.None? then Err(DispositionMismatch)
      else Ok(Unleased(x).(state := RetryWait, due := Some(now + d.retryDelay.value * 60), keptBy := None))
    else
      Ok(x.(state := Leased, owner := Some(q.agent), leaseId := Some(redial),
            expires := Some(now + LEASE_SECONDS), reason := Some(ImmediateRedial)))
  }

  function CalledContact(c: CampaignContact, agent: Uuid, code: string, now: int): CampaignContact {
    c.(status := Called, completedAt := Some(now), completedBy := Some(agent), finalCode := Some(code))
  }

  /** A finished item also finishes its contact. */
  function ContactsAfter(contacts: map<Id, CampaignContact>, x: Item, agent: Uuid, code: string, now: int)
    : map<Id, CampaignContact>
    requires x.contact in contacts
  {
    if x.state.Completed? then contacts[x.contact := CalledContact(contacts[x.contact], agent, code, now)] else contacts
  }

  /** The item with one more attempt counted on it. */
  function Counted(x: Item): Item {
    x.(attempts := x.attempts + 1)
  }

  function AttemptFor(x: Item, y: Item, d: Disposition, q: Request, now: int): Attempt {
    Attempt(q.item, q.agent, q.key, q.disposition, d.code, d.causesDnc,
            if d.requiresCallback then q.callbackAt else None, now, x.reason,
            y.state, if y.state.Leased? then y.leaseId else None, if y.state.Leased? then y.expires else None)
  }

  function Answer(a: Id, t: Attempt, y: Item): Completion {
    Completion(a, y.state, t.outcome, t.callbackAt, if y.state.RetryWait? then y.due else None,
               t.resultLease, t.resultExpires, NextStep(y.state))
  }

  /** The attempt logged against the item's new state and counted on it. The attempt and a
      renewed lease take the next two identifiers. */
  function Conclude(p: Pool, q: Request, d: Disposition, items: map<Id, Item>, contacts: map<Id, CampaignContact>,
                    suppressed: set<Phone>, now: int): (Pool, Completion)
    requires q.item in p.items && q.item in items
  {
    var y := items[q.item];
    var t := AttemptFor(p.items[q.item], y, d, q, now);
    (p.(items := items[q.item := Counted(y)], contacts := contacts, suppressed := suppressed,
        attempts := p.attempts[p.nextId := t], nextId := p.nextId + 2),
     Answer(p.nextId, t, y))
  }

  /** A first completion: a do-not-call request closes the number's open work everywhere and
      suppresses it, any other outcome moves the item. */
  function FirstCompletion(p: Pool, q: Request, now: int, callbacksEnabled: bool): Result<(Pool, Completion), WorkError>
    requires Integrity(p)
  {
    if Refusal(p, q, now, callbacksEnabled).Some? then Err(Refusal(p, q, now, callbacksEnabled).value)
    else
      var x, d := p.items[q.item], p.dispositions[q.disposition];
      if d.causesDnc then
        var chosen := OpenItems(p, PhoneOf(p, q.item));
        Ok(Conclude(p, q, d, SweptItems(p.items, chosen, now),
                    SweptContacts(p.contacts, ContactsOf(p.items, chosen), q.agent, now),
                    p.suppressed + {PhoneOf(p, q.item)}, now))
      else
        match Worked(x, d, q, x.attempts + 1, now, p.nextId + 1)
        case Err(e) => Err(e)
        case Ok(y) =>
          Ok(Conclude(p, q, d, p.items[q.item := y], ContactsAfter(p.contacts, y, q.agent, d.code, now), p.suppressed,
              now))
  }

  /** The attempt already stored for the agent's key. */
  ghost function Existing(p: Pool, agent: Uuid, key: string): (r: Option<Id>)
    ensures r.Some? ==> IsAttempt(p, r.value, agent, key)
    ensures r.None? ==> forall a :: !IsAttempt(p, a, agent, key)
  {
    if a :| IsAttempt(p, a, agent, key) then Some(a) else None
  }

  ghost function Complete(p: Pool, q: Request, now: int, callbacksEnabled: bool): Result<(Pool, Completion), WorkError>
    requires Integrity(p)
  {
    var stored := Existing(p, q.agent, q.key);
    if stored.None? then FirstCompletion(p, q, now, callbacksEnabled)
    else match Replay(p, stored.value, q.item)
         case Err(e) => Err(e)
         case Ok(c) => Ok((p, c))
  }

  // ------------------------------------------------------------- skips and reviews

  predicate Blank(reason: string) {
    forall i :: 0 <= i < |reason| ==> reason[i] in {' ', '\t', '\n', '\r'}
  }

  function Skip(p: Pool, i: Id, agent: Uuid, lease: Id, reason: string, now: int): Result<Pool, WorkError> {
    if Blank(reason) then Err(MissingField)
    else if !Holds(p, i, agent, lease, now) then Err(LeaseConflict)
    else
      var x := p.items[i];
      Ok(WithItem(p, i, Unleased(x).(skips := x.skips + 1, state := if x.skips + 1 >= MAX_SKIPS then Review
          else Queued)))
  }

  function Reschedule(p: Pool, i: Id, retryAt: int, reason: string, now: int): Result<Pool, WorkError> {
    if Blank(reason) || retryAt <= now then Err(MissingField)
    else if i !in p.items || !p.items[i].state.Review? then Err(NotInReview)
    else Ok(WithItem(p, i, p.items[i].(state := RetryWait, due := Some(retryAt), keptBy := None)))
  }

  function AllowMore(p: Pool, i: Id, newMax: int, reason: string, now: int): Result<Pool, WorkError> {
    if Blank(reason) then Err(MissingField)
    else if i !in p.items || !p.items[i].state.Review? then Err(NotInReview)
    else if newMax <= p.items[i].attempts then Err(MissingField)
    else Ok(WithItem(p, i, p.items[i].(maxAttempts := newMax, state := RetryWait, due := Some(now), keptBy := None)))
  }

  /** The most recent attempt of the item; the query breaks ties as it likes. */
  predicate Latest(p: Pool, i: Id, a: Id) {
    && a in p.attempts && p.attempts[a].item == i
    && forall b :: b in p.attempts && p.attempts[b].item == i ==> p.attempts[b].created <= p.attempts[a].created
  }

  function CloseWith(p: Pool, i: Id, a: Id, now: int): Pool
    requires i in p.items && p.items[i].contact in p.contacts && a in p.attempts
  {
    var y := p.items[i].(state := Completed, completedAt := Some(now));
    p.(items := p.items[i := y], contacts := ContactsAfter(p.contacts, y, p.attempts[a].agent, p.attempts[a].outcome,
        now))
  }
}
