/** The calling database: campaigns and their dispositions, contacts, work items and call
    attempts, as one value, with the invariant every operation keeps. */
module PoolState {
  import opened Basics
  import opened WorkStates

  type Id = nat

  /** A phone fingerprint: an opaque value with a total order. */
  type Phone = nat

  const LEASE_SECONDS := 15 * 60
  const MAX_SKIPS := 3
  const DEFAULT_MAX_ATTEMPTS := 5
  const DNC_CODE := "explicit_dnc"

  datatype Reason = Normal | ScheduledCallback | DelayedRetry | ImmediateRedial

  datatype Item = Item(
    contact: Id, state: WorkState, priority: int, created: int,
    keptBy: Option<Uuid>, due: Option<int>,
    attempts: nat, maxAttempts: int, skips: nat,
    owner: Option<Uuid>, leaseId: Option<Id>, expires: Option<int>, reason: Option<Reason>,
    completedAt: Option<int>)

  datatype ContactStatus = ToCall | Called | Blocked

  datatype CampaignContact = CampaignContact(
    campaign: Id, phone: Phone, status: ContactStatus,
    completedAt: Option<int>, completedBy: Option<Uuid>, finalCode: Option<string>)

  datatype Attempt = Attempt(
    item: Id, agent: Uuid, key: string, disposition: Id, outcome: string, dnc: bool,
    callbackAt: Option<int>, created: int, source: Option<Reason>,
    result: WorkState, resultLease: Option<Id>, resultExpires: Option<int>)

  datatype CampaignStatus = Draft | Active | Paused | Finished | Archived

  datatype Campaign = Campaign(
    status: CampaignStatus, completedAt: Option<int>, deleteAfter: Option<int>,
    policy: bool, provenance: bool)

  datatype Disposition = Disposition(
    campaign: Id, code: string, title: string, order: int, active: bool, standard: bool,
    nextAction: Option<string>, causesDnc: bool, requiresCallback: bool, requiresNotes: bool,
    connected: bool, redial: bool, retryDelay: Option<int>)

  datatype Staffing = Staffing(
    agent: Uuid, campaign: Id, calls: bool, primary: bool, active: bool, since: int, until: Option<int>)

  datatype Pool = Pool(
    items: map<Id, Item>, contacts: map<Id, CampaignContact>, people: set<Phone>,
    attempts: map<Id, Attempt>, suppressed: set<Phone>,
    campaigns: map<Id, Campaign>, dispositions: map<Id, Disposition>,
    staffing: seq<Staffing>, nextId: Id)

  // --------------------------------------------------------------- the invariant

  /** What every single work item obeys, whatever has happened to it. */
  ghost predicate ItemOk(x: Item) {
    && (x.owner.Some? <==> x.state.Leased?)
    && (x.leaseId.Some? <==> x.state.Leased?)
    && (x.expires.Some? <==> x.state.Leased?)
    && (x.state.CallbackWait? ==> x.keptBy.Some?)
    && (x.state.RetryWait? ==> x.due.Some? && x.keptBy.None?)
    && (x.keptBy.Some? ==> x.due.Some?)
    && (x.completedAt.Some? <==> x.state.Completed? || x.state.Suppressed?)
    && (x.state.Leased? && x.reason == Some(ImmediateRedial) ==> x.attempts < x.maxAttempts)
  }

  ghost predicate ItemsOk(p: Pool) {
    forall i :: i in p.items ==> ItemOk(p.items[i])
  }

  ghost predicate ItemFor(p: Pool, i: Id, contact: Id) {
    i in p.items && p.items[i].contact == contact
  }

  ghost predicate ContactFor(p: Pool, c: Id, campaign: Id, phone: Phone) {
    c in p.contacts && p.contacts[c].campaign == campaign && p.contacts[c].phone == phone
  }

  ghost predicate DispositionFor(p: Pool, d: Id, campaign: Id, code: string) {
    d in p.dispositions && p.dispositions[d].campaign == campaign && p.dispositions[d].code == code
  }

  /** A contact has one work item, a campaign one contact per number and one disposition per code. */
  ghost predicate UniqueKeys(p: Pool) {
    && (forall i: Id, j: Id, c: Id :: ItemFor(p, i, c) && ItemFor(p, j, c) ==> i == j)
    && (forall c: Id, d: Id, m: Id, n: Phone :: ContactFor(p, c, m, n) && ContactFor(p, d, m, n) ==> c == d)
    && (forall d: Id, e: Id, m: Id, code :: DispositionFor(p, d, m, code) && DispositionFor(p, e, m, code) ==> d == e)
  }

  /** Foreign keys. */
  ghost predicate Integrity(p: Pool) {
    && (forall i :: i in p.items ==> i < p.nextId && p.items[i].contact in p.contacts)
    && (forall c :: c in p.contacts ==>
          c < p.nextId && p.contacts[c].campaign in p.campaigns && p.contacts[c].phone in p.people)
    && (forall d :: d in p.dispositions ==> d < p.nextId && p.dispositions[d].campaign in p.campaigns)
    && (forall a :: a in p.attempts ==> a < p.nextId && p.attempts[a].item in p.items)
  }

  function PhoneOf(p: Pool, i: Id): Phone
    requires i in p.items && p.items[i].contact in p.contacts
  {
    p.contacts[p.items[i].contact].phone
  }

  function CampaignOf(p: Pool, i: Id): Id
    requires i in p.items && p.items[i].contact in p.contacts
  {
    p.contacts[p.items[i].contact].campaign
  }

  ghost predicate LeasedTo(p: Pool, i: Id, agent: Uuid) {
    i in p.items && p.items[i].state.Leased? && p.items[i].owner == Some(agent)
  }

  /** The lease id is live, on item `i`. */
  ghost predicate HeldOn(p: Pool, i: Id, lease: Id) {
    i in p.items && p.items[i].state.Leased? && p.items[i].leaseId == Some(lease)
  }

  /** One live lease per agent, and lease ids that name one item each. */
  ghost predicate LeasesOk(p: Pool) {
    && (forall i: Id, j: Id, agent :: LeasedTo(p, i, agent) && LeasedTo(p, j, agent) ==> i == j)
    && (forall i: Id, j: Id, lease: Id :: HeldOn(p, i, lease) && HeldOn(p, j, lease) ==> i == j)
    && (forall i: Id, lease: Id :: HeldOn(p, i, lease) ==> lease < p.nextId)
  }

  function AttemptsOf(p: Pool, i: Id): set<Id> {
    set a | a in p.attempts && p.attempts[a].item == i
  }

  ghost predicate IsAttempt(p: Pool, a: Id, agent: Uuid, key: string) {
    a in p.attempts && p.attempts[a].agent == agent && p.attempts[a].key == key
  }

  /** The counter counts the attempt rows; an agent's key names one attempt; each attempt
      is against a disposition of its item's campaign. */
  ghost predicate AttemptsOk(p: Pool)
    requires Integrity(p)
  {
    && (forall i :: i in p.items ==> p.items[i].attempts == |AttemptsOf(p, i)|)
    && KeysOk(p)
    && (forall a :: a in p.attempts ==> AttemptOk(p, a))
  }

  ghost predicate KeysOk(p: Pool) {
    forall a: Id, b: Id, agent, key :: IsAttempt(p, a, agent, key) && IsAttempt(p, b, agent, key) ==> a == b
  }

  ghost predicate AttemptOk(p: Pool, a: Id)
    requires Integrity(p) && a in p.attempts
  {
    && p.attempts[a].disposition in p.dispositions
    && p.dispositions[p.attempts[a].disposition].campaign == CampaignOf(p, p.attempts[a].item)
  }

  /** A contact with a work item is done exactly when the item is completed or suppressed. */
  ghost predicate ClosedOk(p: Pool)
    requires Integrity(p)
  {
    forall i :: i in p.items ==> (p.contacts[p.items[i].contact].completedAt.Some? <==> p.items[i].completedAt.Some?)
  }

  ghost predicate HasItem(p: Pool, c: Id) {
    exists i: Id :: ItemFor(p, i, c)
  }

  /** Only a contact with a work item is ever done. */
  ghost predicate DoneOk(p: Pool) {
    forall c :: c in p.contacts && p.contacts[c].completedAt.Some? ==> HasItem(p, c)
  }

  /** No open work item for a suppressed number. */
  ghost predicate DncOk(p: Pool)
    requires Integrity(p)
  {
    forall i :: i in p.items && PhoneOf(p, i) in p.suppressed ==> Terminal(p.items[i].state)
  }

  /** An item that is leased or was ever called belongs to a campaign that has launched. */
  ghost predicate LaunchedOk(p: Pool)
    requires Integrity(p)
  {
    forall i :: i in p.items && (p.items[i].state.Leased? || p.items[i].attempts > 0) ==>
      p.campaigns[CampaignOf(p, i)].status != Draft
  }

  const MIN_RETRY := 5
  const MAX_RETRY := 10080

  /** The next action completion will act on; absent and empty both mean complete. */
  function Action(d: Disposition): string {
    if d.nextAction.None? || d.nextAction.value == "" then "complete" else d.nextAction.value
  }

  predicate ActionHandled(d: Disposition) {
    Action(d) in {"complete", "review", "requeue", "retry_wait", "immediate_redial"}
  }

  /** What every stored disposition obeys. */
  ghost predicate DispositionOk(d: Disposition) {
    && (d.causesDnc <==> d.code == DNC_CODE)
    && ActionHandled(d)
    && (Action(d) == "retry_wait" ==> d.retryDelay.Some?)
    && (d.retryDelay.Some? ==> MIN_RETRY <= d.retryDelay.value <= MAX_RETRY)
  }

  ghost predicate DispositionsOk(p: Pool) {
    forall d :: d in p.dispositions ==> DispositionOk(p.dispositions[d])
  }

  ghost predicate PoolOk(p: Pool) {
    && Integrity(p) && UniqueKeys(p) && ItemsOk(p) && LeasesOk(p) && AttemptsOk(p)
    && ClosedOk(p) && DoneOk(p) && DncOk(p) && LaunchedOk(p) && DispositionsOk(p)
  }

  // ---------------------------------------------------------------- the database

  /** The tables, updated in place inside one transaction. */
  class Database {
    var items: map<Id, Item>
    var contacts: map<Id, CampaignContact>
    var people: set<Phone>
    var attempts: map<Id, Attempt>
    var suppressed: set<Phone>
    var campaigns: map<Id, Campaign>
    var dispositions: map<Id, Disposition>
    var staffing: seq<Staffing>
    var nextId: Id

    function Contents(): Pool
      reads this
    {
      Pool(items, contacts, people, attempts, suppressed, campaigns, dispositions, staffing, nextId)
    }

    constructor ()
      ensures Contents() == Pool(map[], map[], {}, map[], {}, map[], map[], [], 0)
      ensures PoolOk(Contents())
    {
      items, contacts, people, attempts := map[], map[], {}, map[];
      suppressed, campaigns, dispositions, staffing, nextId := {}, map[], map[], [], 0;
    }

    /** An exception rolls the whole transaction back. */
    method Rollback(p: Pool)
      modifies this
      ensures Contents() == p
    {
      items, contacts, people, attempts := p.items, p.contacts, p.people, p.attempts;
      suppressed, campaigns, dispositions, staffing, nextId := p.suppressed, p.campaigns, p.dispositions, p.staffing,
          p.nextId;
    }
  }
}
