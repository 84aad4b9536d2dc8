/** Campaign lifecycle and call outcomes: the free-form ones, and the locked manifest of seven
    with its two adjustable retry delays. */
module Dispositions {
  import opened Basics
  import opened PoolState
  import opened WorkInvariant
  import opened Retention

  datatype PolicyError =
    | ProtectedCode | UnknownAction | DuplicateCode | NotDraft | AlreadyInstalled | BadDelay | NotConfigurable
    | NotLaunchable | NotConfigured | FeatureOff

  datatype Standard = Standard(
    order: int, title: string, code: string, nextAction: Option<string>,
    causesDnc: bool, requiresCallback: bool, connected: bool, redial: bool,
    editable: bool, defaultDelay: Option<int>)

  const MANIFEST: seq<Standard> := [
    Standard(10, "Connected", "connected", Some("complete"), false, false, true, false, false, None),
    Standard(20, "No Answer", "no_answer", Some("retry_wait"), false, false, false, false, true, Some(60)),
    Standard(30, "Call Back Later", "callback_later", None, false, true, false, false, false, None),
    Standard(40, "Hung Up", "hung_up", Some("immediate_redial"), false, false, false, true, false, None),
    Standard(50, "Number Disconnected", "number_disconnected", Some("complete"), false, false, false, false, false,
             None),
    Standard(60, "Do Not Call", DNC_CODE, None, true, false, false, false, false, None),
    Standard(70, "Unavailable", "unavailable", Some("retry_wait"), false, false, false, false, true, Some(30))
  ]

  predicate Within(minutes: int) {
    MIN_RETRY <= minutes <= MAX_RETRY
  }

  // ------------------------------------------------------------------- free form

  datatype Draftee = Draftee(
    title: string, code: string, nextAction: Option<string>, requiresNotes: bool, requiresCallback: bool,
    connected: bool, causesDnc: bool)

  function Plain(campaign: Id, x: Draftee): Disposition {
    Disposition(campaign, x.code, x.title, 0, true, false, x.nextAction, x.causesDnc, x.requiresCallback,
                x.requiresNotes, x.connected, false, None)
  }

  predicate CodeTaken(p: Pool, campaign: Id, code: string) {
    exists d :: d in p.dispositions && p.dispositions[d].campaign == campaign && p.dispositions[d].code == code
  }

  method CreateDisposition(db: Database, campaign: Id, x: Draftee) returns (r: Result<Id, PolicyError>)
    requires campaign in db.campaigns
    modifies db`dispositions, db`nextId
    ensures r.Err? ==> db.Contents() == old(db.Contents())
    ensures r.Ok? ==>
              && r.value == old(db.nextId) && db.nextId == old(db.nextId) + 1
              && db.dispositions == old(db.dispositions)[r.value :=
                   Disposition(campaign, x.code, x.title, 0, true, false, x.nextAction, x.causesDnc, x.requiresCallback,
                               x.requiresNotes, x.connected, false, None)]
    ensures r.Ok? <==>
              && (x.causesDnc <==> x.code == DNC_CODE)
              && x.nextAction in {None, Some("complete"), Some("review"), Some("requeue")}
              && !old(CodeTaken(db.Contents(), campaign, x.code))
  {
    if x.causesDnc && x.code != DNC_CODE {
      return Err(ProtectedCode);
    }
    if x.code == DNC_CODE && !x.causesDnc {
      return Err(ProtectedCode);
    }
    if x.nextAction !in {None, Some("complete"), Some("review"), Some("requeue")} {
      return Err(UnknownAction);
    }
    if CodeTaken(db.Contents(), campaign, x.code) {
      return Err(DuplicateCode);
    }
    r := Ok(db.nextId);
    db.dispositions := db.dispositions[db.nextId := Plain(campaign, x)];
    db.nextId := db.nextId + 1;
  }

  // --------------------------------------------------------------- the manifest

  datatype Overrides = Overrides(noAnswer: Option<int>, unavailable: Option<int>)

  function OverrideFor(o: Overrides, code: string): Option<int> {
    if code == "no_answer" then o.noAnswer else if code == "unavailable" then o.unavailable else None
  }

  predicate OverridesOk(o: Overrides) {
    && (o.noAnswer.Some? ==> Within(o.noAnswer.value))
    && (o.unavailable.Some? ==> Within(o.unavailable.value))
  }

  function Locked(campaign: Id, e: Standard, o: Overrides): Disposition {
    var chosen := OverrideFor(o, e.code);
    Disposition(campaign, e.code, e.title, e.order, true, true, e.nextAction, e.causesDnc, e.requiresCallback, false,
                e.connected, e.redial, if e.editable && chosen.Some? then chosen else e.defaultDelay)
  }

  /** The first `n` manifest rows added under consecutive identifiers from `id`. */
  function WithRows(dispositions: map<Id, Disposition>, campaign: Id, o: Overrides, id: Id, n: nat)
    : map<Id, Disposition>
    requires n <= |MANIFEST|
  {
    if n == 0 then dispositions
    else WithRows(dispositions, campaign, o, id, n - 1)[id + n - 1 := Locked(campaign, MANIFEST[n - 1], o)]
  }

  predicate NoDispositions(p: Pool, campaign: Id) {
    forall d :: d in p.dispositions ==> p.dispositions[d].campaign != campaign
  }

  method InstallStandardDispositions(db: Database, campaign: Id, o: Overrides) returns (r: Result<nat, PolicyError>)
    requires campaign in db.campaigns
    modifies db`dispositions, db`campaigns, db`nextId
    ensures r.Err? ==> db.Contents() == old(db.Contents())
    ensures r.Ok? <==>
              && old(db.campaigns[campaign].status) == Draft && !old(db.campaigns[campaign].policy)
              && old(NoDispositions(db.Contents(), campaign)) && OverridesOk(o)
    ensures r.Ok? ==> db.Contents() == Installed(old(db.Contents()), campaign, o)
  {
    if db.campaigns[campaign].status != Draft {
      return Err(NotDraft);
    }
    if db.campaigns[campaign].policy {
      return Err(AlreadyInstalled);
    }
    if !NoDispositions(db.Contents(), campaign) {
      return Err(AlreadyInstalled);
    }
    if !OverridesOk(o) {
      return Err(BadDelay);
    }
    ghost var p := db.Contents();
    var n := 0;
    while n < |MANIFEST|
      invariant 0 <= n <= |MANIFEST|
      invariant db.dispositions == WithRows(p.dispositions, campaign, o, p.nextId, n) && db.nextId == p.nextId + n
      invariant db.campaigns == p.campaigns
    {
      var e := MANIFEST[n];
      var delay := e.defaultDelay;
      if e.editable {
        var chosen := OverrideFor(o, e.code);
        if chosen.Some? {
          delay := chosen;
        }
      }
      var row := Disposition(campaign, e.code, e.title, e.order, true, true, e.nextAction, e.causesDnc,
                             e.requiresCallback, false, e.connected, e.redial, delay);
      db.dispositions := db.dispositions[db.nextId := row];
      db.nextId := db.nextId + 1;
      n := n + 1;
    }
    db.campaigns := db.campaigns[campaign := db.campaigns[campaign].(policy := true)];
    r := Ok(n);
  }

  function Installed(p: Pool, campaign: Id, o: Overrides): Pool
    requires campaign in p.campaigns
  {
    p.(dispositions := WithRows(p.dispositions, campaign, o, p.nextId, |MANIFEST|), nextId := p.nextId + |MANIFEST|,
       campaigns := p.campaigns[campaign := p.campaigns[campaign].(policy := true)])
  }

  predicate Editable(code: string) {
    exists n :: 0 <= n < |MANIFEST| && MANIFEST[n].code == code && MANIFEST[n].editable
  }

  lemma {:induction false} TwoAreEditable(code: string)
    ensures Editable(code) <==> code in {"no_answer", "unavailable"}
  {
    assert MANIFEST[1].editable && MANIFEST[6].editable;
  }

  method UpdateRetryPolicy(db: Database, campaign: Id, code: string, minutes: int) returns (r: Result<Id, PolicyError>)
    requires UniqueKeys(db.Contents()) && campaign in db.campaigns
    modifies db`dispositions
    ensures r.Err? ==> db.Contents() == old(db.Contents())
    ensures r.Ok? ==>
              && r.value in old(db.dispositions) && DispositionFor(old(db.Contents()), r.value, campaign, code)
              && db.dispositions ==
                 old(db.dispositions)[r.value := old(db.dispositions[r.value]).(retryDelay := Some(minutes))]
    ensures r.Ok? <==>
              && code in {"no_answer", "unavailable"} && MIN_RETRY <= minutes <= MAX_RETRY
              && old(db.campaigns[campaign].status) == Draft && old(CodeTaken(db.Contents(), campaign, code))
  {
    TwoAreEditable(code);
    if !Editable(code) {
      return Err(NotConfigurable);
    }
    if db.campaigns[campaign].status != Draft {
      return Err(NotDraft);
    }
    if !Within(minutes) {
      return Err(BadDelay);
    }
    var rows := set d | d in db.dispositions && db.dispositions[d].campaign == campaign
        && db.dispositions[d].code == code;
    if rows == {} {
      assert forall d ::
          d in db.dispositions && db.dispositions[d].campaign == campaign && db.dispositions[d].code == code ==>
            d in rows;
      return Err(NotConfigured);
    }
    var d :| d in rows;
    db.dispositions := db.dispositions[d := db.dispositions[d].(retryDelay := Some(minutes))];
    r := Ok(d);
  }

  // ------------------------------------------------------------------- validation

  ghost predicate ActiveRow(p: Pool, d: Id, campaign: Id, code: string) {
    DispositionFor(p, d, campaign, code) && p.dispositions[d].active
  }

  predicate Matches(row: Disposition, e: Standard) {
    && row.title == e.title && row.order == e.order && row.standard && row.nextAction == e.nextAction
    && row.causesDnc == e.causesDnc && row.requiresCallback == e.requiresCallback
    && row.connected == e.connected && row.redial == e.redial
    && (if e.editable then row.retryDelay.Some? && Within(row.retryDelay.value) else row.retryDelay.None?)
  }

  predicate InManifest(code: string) {
    exists n :: 0 <= n < |MANIFEST| && MANIFEST[n].code == code
  }

  /** The active outcomes are exactly the manifest's, as locked but for the two delays. */
  ghost predicate Conforms(p: Pool, campaign: Id) {
    && (forall d, code :: ActiveRow(p, d, campaign, code) ==> InManifest(code))
    && (forall n :: 0 <= n < |MANIFEST| ==> EntryMet(p, campaign, MANIFEST[n]))
  }

  ghost predicate EntryMet(p: Pool, campaign: Id, e: Standard) {
    exists d :: ActiveRow(p, d, campaign, e.code) && Matches(p.dispositions[d], e)
  }

  datatype Problem = Unexpected(code: string) | Missing(code: string) | Differs(code: string)

  method ValidateStandardDispositions(db: Database, campaign: Id) returns (problems: seq<Problem>)
    requires UniqueKeys(db.Contents())
    ensures problems == [] <==> Conforms(db.Contents(), campaign)
  {
    ghost var p := db.Contents();
    problems := UnexpectedOutcomes(db, campaign);
    ghost var expected := problems == [];
    var n := 0;
    while n < |MANIFEST|
      invariant 0 <= n <= |MANIFEST|
      invariant problems == [] <==> expected && forall k :: 0 <= k < n ==> EntryMet(p, campaign, MANIFEST[k])
    {
      var e := MANIFEST[n];
      var rows := ActiveRows(db.Contents(), campaign, e.code);
      EntryDecided(p, campaign, e);
      if rows == {} {
        problems := problems + [Missing(e.code)];
      } else {
        var d :| d in rows;
        if !Matches(db.dispositions[d], e) {
          problems := problems + [Differs(e.code)];
        }
      }
      n := n + 1;
    }
  }

  function ActiveRows(p: Pool, campaign: Id, code: string): set<Id> {
    set d | d in p.dispositions && p.dispositions[d].campaign == campaign && p.dispositions[d].active
        && p.dispositions[d].code == code
  }

  method UnexpectedOutcomes(db: Database, campaign: Id) returns (problems: seq<Problem>)
    ensures problems == [] <==> forall d, code :: ActiveRow(db.Contents(), d, campaign, code) ==> InManifest(code)
  {
    ghost var p := db.Contents();
    var active := set d | d in db.dispositions && db.dispositions[d].campaign == campaign && db.dispositions[d].active;
    problems := [];
    var todo := active;
    while todo != {}
      invariant todo <= active
      invariant problems == [] <==> forall d :: d in active - todo ==> InManifest(db.dispositions[d].code)
    {
      var d :| d in todo;
      if !InManifest(db.dispositions[d].code) {
        problems := problems + [Unexpected(db.dispositions[d].code)];
      }
      todo := todo - {d};
    }
    assert forall d: Id, code :: ActiveRow(p, d, campaign, code) <==> d in active && p.dispositions[d].code == code;
    assert forall d: Id :: d in active ==> ActiveRow(p, d, campaign, p.dispositions[d].code);
    assert active - todo == active;
  }

  lemma {:induction false} EntryDecided(p: Pool, campaign: Id, e: Standard)
    requires UniqueKeys(p)
    ensures ActiveRows(p, campaign, e.code) == {} ==> !EntryMet(p, campaign, e)
    ensures forall d :: d in ActiveRows(p, campaign, e.code) ==>
        (EntryMet(p, campaign, e) <==> Matches(p.dispositions[d], e))
  {
    assert forall d: Id :: ActiveRow(p, d, campaign, e.code) <==> d in ActiveRows(p, campaign, e.code);
  }

  // -------------------------------------------------------------------- lifecycle

  method LaunchCampaign(db: Database, campaign: Id, launchEnabled: bool) returns (r: Result<Id, PolicyError>)
    requires UniqueKeys(db.Contents()) && campaign in db.campaigns
    modifies db`campaigns
    ensures r == Err(FeatureOff) <==> !launchEnabled
    ensures r.Ok? <==>
              && launchEnabled && old(db.campaigns[campaign].status) == Draft && old(db.campaigns[campaign].provenance)
              && ContactsIn(old(db.Contents()), campaign) != {}
              && (old(db.campaigns[campaign].policy) ==> Conforms(old(db.Contents()), campaign))
    ensures db.campaigns ==
              if r.Ok? then old(db.campaigns)[campaign := old(db.campaigns[campaign]).(status := Active)]
              else old(db.campaigns)
  {
    if !launchEnabled {
      return Err(FeatureOff);
    }
    if db.campaigns[campaign].status != Draft || !db.campaigns[campaign].provenance {
      return Err(NotLaunchable);
    }
    if ContactsIn(db.Contents(), campaign) == {} {
      return Err(NotLaunchable);
    }
    if db.campaigns[campaign].policy {
      var problems := ValidateStandardDispositions(db, campaign);
      if problems != [] {
        return Err(NotLaunchable);
      }
    }
    db.campaigns := db.campaigns[campaign := db.campaigns[campaign].(status := Active)];
    r := Ok(campaign);
  }

  method PauseCampaign(db: Database, campaign: Id) returns (r: Result<Id, PolicyError>)
    requires campaign in db.campaigns
    modifies db`campaigns
    ensures r.Ok? <==> old(db.campaigns[campaign].status) == Active
    ensures db.campaigns ==
              if r.Ok? then old(db.campaigns)[campaign := old(db.campaigns[campaign]).(status := Paused)]
              else old(db.campaigns)
  {
    if db.campaigns[campaign].status != Active {
      return Err(NotLaunchable);
    }
    db.campaigns := db.campaigns[campaign := db.campaigns[campaign].(status := Paused)];
    r := Ok(campaign);
  }

  method ArchiveCampaign(db: Database, campaign: Id) returns (r: Result<Id, PolicyError>)
    requires campaign in db.campaigns
    modifies db`campaigns
    ensures r.Ok? <==> old(db.campaigns[campaign].status) in {Active, Paused, Draft}
    ensures db.campaigns ==
              if r.Ok? then old(db.campaigns)[campaign := old(db.campaigns[campaign]).(status := Archived)]
              else old(db.campaigns)
  {
    if db.campaigns[campaign].status !in {Active, Paused, Draft} {
      return Err(NotLaunchable);
    }
    db.campaigns := db.campaigns[campaign := db.campaigns[campaign].(status := Archived)];
    r := Ok(campaign);
  }

  // ------------------------------------------------------------------- the proof

  /** A freshly installed campaign validates for launch, whatever delays were chosen. */
  lemma {:induction false} InstallConforms(p: Pool, campaign: Id, o: Overrides)
    requires Integrity(p) && campaign in p.campaigns && NoDispositions(p, campaign) && OverridesOk(o)
    ensures Conforms(Installed(p, campaign, o), campaign)
  {
    RowsAre(p.dispositions, campaign, o, p.nextId, |MANIFEST|);
    LockedConform(p, Installed(p, campaign, o), campaign, o);
  }

  /** The two adjustable outcomes wait the chosen minutes, or an hour and half an hour; no other
      outcome has a delay. */
  lemma {:induction false} InstalledDelays(p: Pool, campaign: Id, o: Overrides)
    requires Integrity(p) && campaign in p.campaigns
    ensures var q := Installed(p, campaign, o);
            forall d :: d in q.dispositions && d !in p.dispositions ==>
              q.dispositions[d].retryDelay ==
                match q.dispositions[d].code
                case "no_answer" => if o.noAnswer.Some? then o.noAnswer else Some(60)
                case "unavailable" => if o.unavailable.Some? then o.unavailable else Some(30)
                case _ => None
  {
    RowsAre(p.dispositions, campaign, o, p.nextId, |MANIFEST|);
    var rows := Installed(p, campaign, o).dispositions;
    forall d | d in rows && d !in p.dispositions ensures rows[d] == Locked(campaign, MANIFEST[d - p.nextId], o) {
      assert rows[p.nextId + (d - p.nextId)] == Locked(campaign, MANIFEST[d - p.nextId], o);
    }
  }

  lemma {:induction false} LockedConform(p: Pool, q: Pool, campaign: Id, o: Overrides)
    requires NoDispositions(p, campaign) && OverridesOk(o)
    requires forall d: Id :: d in q.dispositions <==> d in p.dispositions || p.nextId <= d < p.nextId + |MANIFEST|
    requires forall d :: d in p.dispositions ==> q.dispositions[d] == p.dispositions[d]
    requires forall k :: 0 <= k < |MANIFEST| ==> q.dispositions[p.nextId + k] == Locked(campaign, MANIFEST[k], o)
    ensures Conforms(q, campaign)
  {
    forall n | 0 <= n < |MANIFEST| ensures EntryMet(q, campaign, MANIFEST[n]) {
      LockedMatches(campaign, n, o);
      assert ActiveRow(q, p.nextId + n, campaign, MANIFEST[n].code);
    }
    forall d: Id, code | ActiveRow(q, d, campaign, code) ensures InManifest(code) {
      if d !in p.dispositions {
        assert q.dispositions[p.nextId + (d - p.nextId)] == Locked(campaign, MANIFEST[d - p.nextId], o);
      }
    }
  }

  lemma {:induction false} LockedMatches(campaign: Id, n: nat, o: Overrides)
    requires n < |MANIFEST| && OverridesOk(o)
    ensures Matches(Locked(campaign, MANIFEST[n], o), MANIFEST[n])
  {
  }

  /** The installed rows are the manifest in order; the others stay. */
  lemma {:induction false} RowsAre(dispositions: map<Id, Disposition>, campaign: Id, o: Overrides, id: Id, n: nat)
    requires n <= |MANIFEST| && forall d :: d in dispositions ==> d < id
    ensures var rows := WithRows(dispositions, campaign, o, id, n);
            && (forall d: Id :: d in rows <==> d in dispositions || id <= d < id + n)
            && (forall d :: d in dispositions ==> rows[d] == dispositions[d])
            && (forall k :: 0 <= k < n ==> rows[id + k] == Locked(campaign, MANIFEST[k], o))
  {
    if n > 0 {
      RowsAre(dispositions, campaign, o, id, n - 1);
    }
  }

  /** A retry-delay change within bounds keeps a conforming campaign conforming. */
  lemma {:induction false} RetryUpdateConforms(p: Pool, q: Pool, campaign: Id, d: Id, code: string, minutes: int)
    requires UniqueKeys(p) && Conforms(p, campaign) && DispositionFor(p, d, campaign, code) && Editable(code)
    requires Within(minutes)
    requires q.dispositions == p.dispositions[d := p.dispositions[d].(retryDelay := Some(minutes))]
    ensures Conforms(q, campaign)
  {
    assert forall k: Id, c :: ActiveRow(q, k, campaign, c) <==> ActiveRow(p, k, campaign, c);
    forall n | 0 <= n < |MANIFEST| ensures EntryMet(q, campaign, MANIFEST[n]) {
      assert EntryMet(p, campaign, MANIFEST[n]);
      var k :| ActiveRow(p, k, campaign, MANIFEST[n].code) && Matches(p.dispositions[k], MANIFEST[n]);
      CodesDistinct(n, code);
      assert k == d ==> MANIFEST[n].code == code;
      assert ActiveRow(q, k, campaign, MANIFEST[n].code) && Matches(q.dispositions[k], MANIFEST[n]);
    }
  }

  /** The manifest names each code once. */
  lemma {:induction false} CodesDistinct(n: nat, code: string)
    requires n < |MANIFEST| && Editable(code)
    ensures MANIFEST[n].code == code ==> MANIFEST[n].editable
  {
  }

  /** Rows added, or changed in a draft campaign, keep the invariant. */
  lemma {:induction false} DispositionsMoved(p: Pool, q: Pool)
    requires PoolOk(p) && q == p.(dispositions := q.dispositions, campaigns := q.campaigns, nextId := q.nextId)
    requires p.nextId <= q.nextId && CampaignsFollow(p, q) && DispositionsFollow(p, q) && DispositionsOk(q)
    requires forall d :: d in q.dispositions ==> d < q.nextId && q.dispositions[d].campaign in q.campaigns
    requires forall d: Id, e: Id, m: Id, code :: DispositionFor(q, d, m, code) && DispositionFor(q, e, m, code) ==>
        d == e
    ensures PoolOk(q) && Follows(p, q)
  {
    MovedKeys(p, q);
    DoneKept(p, q);
    assert forall j: Id, who :: LeasedTo(q, j, who) <==> LeasedTo(p, j, who);
    assert forall j: Id, lease: Id :: HeldOn(q, j, lease) <==> HeldOn(p, j, lease);
    assert forall i :: i in p.items ==> CampaignOf(q, i) == CampaignOf(p, i) && PhoneOf(q, i) == PhoneOf(p, i);
  }

  lemma {:induction false} MovedKeys(p: Pool, q: Pool)
    requires Integrity(p) && UniqueKeys(p) && AttemptsOk(p)
    requires q == p.(dispositions := q.dispositions, campaigns := q.campaigns, nextId := q.nextId)
    requires p.nextId <= q.nextId
    requires CampaignsFollow(p, q) && DispositionsFollow(p, q)
    requires forall d :: d in q.dispositions ==> d < q.nextId && q.dispositions[d].campaign in q.campaigns
    requires forall d: Id, e: Id, m: Id, code :: DispositionFor(q, d, m, code) && DispositionFor(q, e, m, code) ==>
        d == e
    ensures Integrity(q) && UniqueKeys(q) && AttemptsOk(q)
  {
    assert forall i: Id, c: Id :: ItemFor(q, i, c) <==> ItemFor(p, i, c);
    assert forall c: Id, m: Id, n: Phone :: ContactFor(q, c, m, n) <==> ContactFor(p, c, m, n);
    assert forall a: Id, agent, key :: IsAttempt(q, a, agent, key) <==> IsAttempt(p, a, agent, key);
    assert forall i :: i in p.items ==> AttemptsOf(q, i) == AttemptsOf(p, i);
    assert forall a :: a in p.attempts ==> AttemptOk(p, a);
  }

  /** A created outcome passes every guard, so it is one completion can handle. */
  lemma {:induction false} CreateKeeps(p: Pool, q: Pool, campaign: Id, x: Draftee)
    requires PoolOk(p) && campaign in p.campaigns && !CodeTaken(p, campaign, x.code)
    requires x.causesDnc <==> x.code == DNC_CODE
    requires x.nextAction in {None, Some("complete"), Some("review"), Some("requeue")}
    requires q == p.(dispositions := p.dispositions[p.nextId := Plain(campaign, x)], nextId := p.nextId + 1)
    ensures PoolOk(q) && Follows(p, q)
  {
    CreatedOnce(p, q, campaign, x);
    DispositionsMoved(p, q);
  }

  lemma {:induction false} CreatedOnce(p: Pool, q: Pool, campaign: Id, x: Draftee)
    requires Integrity(p) && UniqueKeys(p) && !CodeTaken(p, campaign, x.code)
    requires q.dispositions == p.dispositions[p.nextId := Plain(campaign, x)]
    ensures forall d: Id, e: Id, m: Id, code :: DispositionFor(q, d, m, code) && DispositionFor(q, e, m, code) ==>
        d == e
  {
    assert forall d: Id, m: Id, code :: DispositionFor(q, d, m, code) ==>
      (d == p.nextId && m == campaign && code == x.code) || (d != p.nextId && DispositionFor(p, d, m, code));
  }

  lemma {:induction false} LockedOk(campaign: Id, n: nat, o: Overrides)
    requires n < |MANIFEST| && OverridesOk(o)
    ensures DispositionOk(Locked(campaign, MANIFEST[n], o))
    ensures forall m :: 0 <= m < |MANIFEST| && MANIFEST[m].code == MANIFEST[n].code ==> m == n
  {
  }

  lemma {:induction false} InstallKeeps(p: Pool, campaign: Id, o: Overrides)
    requires PoolOk(p) && campaign in p.campaigns && p.campaigns[campaign].status == Draft
    requires NoDispositions(p, campaign) && OverridesOk(o)
    ensures PoolOk(Installed(p, campaign, o)) && Follows(p, Installed(p, campaign, o))
  {
    var q := Installed(p, campaign, o);
    InstalledRows(p, q, campaign, o);
    forall d: Id, e: Id, m: Id, code | DispositionFor(q, d, m, code) && DispositionFor(q, e, m, code) ensures d == e {
      InstalledOnce(p, q, campaign, o, d, e, m, code);
    }
    DispositionsMoved(p, q);
  }

  lemma {:induction false} InstalledRows(p: Pool, q: Pool, campaign: Id, o: Overrides)
    requires Integrity(p) && DispositionsOk(p) && campaign in p.campaigns && OverridesOk(o)
    requires q == Installed(p, campaign, o)
    ensures forall d :: d in q.dispositions ==> d < q.nextId && q.dispositions[d].campaign in q.campaigns
    ensures DispositionsOk(q)
    ensures forall d :: d in p.dispositions ==> d in q.dispositions && q.dispositions[d] == p.dispositions[d]
  {
    RowsAre(p.dispositions, campaign, o, p.nextId, |MANIFEST|);
    forall d | d in q.dispositions ensures DispositionOk(q.dispositions[d])
        && q.dispositions[d].campaign in q.campaigns {
      if d !in p.dispositions {
        LockedOk(campaign, d - p.nextId, o);
        assert q.dispositions[p.nextId + (d - p.nextId)] == Locked(campaign, MANIFEST[d - p.nextId], o);
      }
    }
  }

  lemma {:induction false} InstalledOnce(p: Pool, q: Pool, campaign: Id, o: Overrides, d: Id, e: Id, m: Id,
                                         code: string)
    requires Integrity(p) && UniqueKeys(p) && NoDispositions(p, campaign) && OverridesOk(o)
    requires q.dispositions == WithRows(p.dispositions, campaign, o, p.nextId, |MANIFEST|)
    requires DispositionFor(q, d, m, code) && DispositionFor(q, e, m, code)
    ensures d == e
  {
    RowsAre(p.dispositions, campaign, o, p.nextId, |MANIFEST|);
    assert forall k: Id :: k in q.dispositions && k !in p.dispositions ==>
      q.dispositions[p.nextId + (k - p.nextId)] == Locked(campaign, MANIFEST[k - p.nextId], o);
    assert d in p.dispositions <==> m != campaign;
    assert e in p.dispositions <==> m != campaign;
    if d in p.dispositions {
      assert DispositionFor(p, d, m, code) && DispositionFor(p, e, m, code);
    } else {
      LockedOk(campaign, d - p.nextId, o);
    }
  }

  lemma {:induction false} RetryUpdateKeeps(p: Pool, q: Pool, campaign: Id, d: Id, code: string, minutes: int)
    requires PoolOk(p) && DispositionFor(p, d, campaign, code) && p.campaigns[campaign].status == Draft
    requires Within(minutes)
    requires q == p.(dispositions := p.dispositions[d := p.dispositions[d].(retryDelay := Some(minutes))])
    ensures PoolOk(q) && Follows(p, q)
  {
    assert DispositionOk(p.dispositions[d]);
    assert forall e: Id, m: Id, c :: DispositionFor(q, e, m, c) <==> DispositionFor(p, e, m, c);
    DispositionsMoved(p, q);
  }

  /** Launching, pausing and archiving never turn a launched campaign back into a draft. */
  lemma {:induction false} StatusKeeps(p: Pool, campaign: Id, status: CampaignStatus)
    requires PoolOk(p) && campaign in p.campaigns && p.campaigns[campaign].status != Finished
    requires status in {Active, Paused, Archived}
    ensures var q := p.(campaigns := p.campaigns[campaign := p.campaigns[campaign].(status := status)]);
            PoolOk(q) && Follows(p, q)
  {
    CampaignsMoved(p, p.(campaigns := p.campaigns[campaign := p.campaigns[campaign].(status := status)]));
  }
}
