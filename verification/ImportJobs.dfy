/** The life of one workforce import: parsing, versioned decisions in two tiers, the commit
    as the approvers, and the compensating reversal. */
module ImportJobs {
  import opened Basics
  import opened Tables
  import opened Capabilities
  import opened Authz
  import opened BulkAuthority
  import opened ImportRows
  import opened Workforce
  import opened ImportEffects
  import opened ImportReversal
  import A = ImportAccess
  import C = ImportClassify

  datatype Vote = Approve | Reject | Cancel

  datatype Tier = StandardTier | HighRiskTier

  datatype Decision = Decision(version: nat, vote: Vote, tier: Tier, approver: Uuid)

  datatype JobError =
    | NotAllowed | NotReady | NothingHighRisk | OwnImport | InvalidRowsLeft | WarningsLeft | Stale | NotApproved
    | RowFailed(cause: ServiceError)

  datatype Counters = Counters(total: nat, valid: nat, warning: nat, invalid: nat, highRisk: nat)

  /** One job. `appliedAs` is who each committed row was applied as, as the audit trail has it. */
  datatype Ticket = Ticket(
    id: Uuid, uploader: Uuid, kind: ImportType, state: A.JobState,
    rows: seq<ImportRow>, footprint: Option<A.Footprint>, counters: Counters,
    decisions: seq<Decision>, key: Option<string>,
    records: seq<Record>, appliedAs: seq<Uuid>, reversed: bool, undone: set<nat>)

  const PARSE_BATCH_SIZE := 500

  // ------------------------------------------------------------- selecting rows

  datatype Selector = With(validation: Validation) | Committable(risk: Risk)

  predicate Selected(row: ImportRow, s: Selector) {
    match s
    case With(v) => row.validation == v
    case Committable(risk) => row.validation == Valid && row.risk == risk
  }

  function Select(rows: seq<ImportRow>, s: Selector): (r: seq<ImportRow>)
    ensures forall row :: row in r <==> row in rows && Selected(row, s)
  {
    if rows == [] then []
    else
      var n := |rows| - 1;
      assert rows == rows[..n] + [rows[n]];
      Select(rows[..n], s) + if Selected(rows[n], s) then [rows[n]] else []
  }

  predicate Counted(rows: seq<ImportRow>, c: Counters) {
    && c.total == |rows| && c.valid == |Select(rows, With(Valid))| && c.warning == |Select(rows, With(Warning))|
    && c.invalid == |Select(rows, With(Invalid))| && c.highRisk == |Select(rows, Committable(HighRisk))|
  }

  // ------------------------------------------------------------------ the checks

  function View(t: Ticket): A.Job {
    A.Job(t.id, t.uploader, t.kind, t.state, t.rows, t.footprint)
  }

  /** Live authority over the effect of every committable row of one risk level. */
  predicate Authorized(t: Ticket, a: Authority, now: int, actor: Uuid, risk: Risk) {
    A.AllHold(a, now, actor, RowRequirements(t.kind, Select(t.rows, Committable(risk))))
  }

  /** Separation of duties, and authority over every high-risk row. */
  function QualifiedNo(t: Ticket, a: Authority, now: int, actor: Uuid): Option<JobError> {
    if actor == t.uploader then Some(OwnImport)
    else if !Authorized(t, a, now, actor, HighRisk) then Some(NotAllowed)
    else None
  }

  function LatestOf(decisions: seq<Decision>, tier: Tier): Option<Decision> {
    if decisions == [] then None
    else if decisions[|decisions| - 1].tier == tier then Some(decisions[|decisions| - 1])
    else LatestOf(decisions[..|decisions| - 1], tier)
  }

  function DecisionNo(t: Ticket, a: Authority, now: int, approver: Uuid, vote: Vote, tier: Tier, ack: bool)
    : Option<JobError> {
    if !A.CanAccess(a, now, approver, View(t)) then Some(NotAllowed)
    else if t.state != A.Parsed then Some(NotReady)
    else if tier == HighRiskTier && t.counters.highRisk == 0 then Some(NothingHighRisk)
    else if tier == HighRiskTier && vote == Approve && QualifiedNo(t, a, now, approver).Some?
        then QualifiedNo(t, a, now, approver)
    else if tier == StandardTier && vote == Approve && !Authorized(t, a, now, approver, Routine) then Some(NotAllowed)
    else if vote == Approve && t.counters.invalid > 0 then Some(InvalidRowsLeft)
    else if vote == Approve && t.counters.warning > 0 && !ack then Some(WarningsLeft)
    else None
  }

  function Decided(t: Ticket, approver: Uuid, vote: Vote, tier: Tier): Ticket {
    t.(decisions := t.decisions + [Decision(|t.decisions| + 1, vote, tier, approver)])
  }

  predicate ApprovedBy(t: Ticket, tier: Tier) {
    LatestOf(t.decisions, tier).Some? && LatestOf(t.decisions, tier).value.vote == Approve
  }

  /** Why a parsed job may not be committed now, with both approvals re-checked live. */
  function CommitNo(t: Ticket, a: Authority, now: int, actor: Uuid, version: nat): Option<JobError> {
    if !A.CanAccess(a, now, actor, View(t)) then Some(NotAllowed)
    else if t.state != A.Parsed then Some(NotReady)
    else if version != |t.decisions| then Some(Stale)
    else if t.counters.invalid > 0 then Some(InvalidRowsLeft)
    else if !ApprovedBy(t, StandardTier) then Some(NotApproved)
    else if !Authorized(t, a, now, LatestOf(t.decisions, StandardTier).value.approver, Routine) then Some(NotAllowed)
    else if t.counters.highRisk > 0 && !ApprovedBy(t, HighRiskTier) then Some(NotApproved)
    else if t.counters.highRisk > 0 then QualifiedNo(t, a, now, LatestOf(t.decisions, HighRiskTier).value.approver)
    else None
  }

  // ------------------------------------------------------------------- the commit

  /** Who a row is applied as. */
  function ActorFor(t: Ticket, row: ImportRow): Uuid
    requires ApprovedBy(t, StandardTier) && (t.counters.highRisk > 0 ==> ApprovedBy(t, HighRiskTier))
  {
    if row.risk == HighRisk && t.counters.highRisk > 0 then LatestOf(t.decisions, HighRiskTier).value.approver
    else LatestOf(t.decisions, StandardTier).value.approver
  }

  predicate ReadyToApply(t: Ticket, ids: seq<Uuid>) {
    && ApprovedBy(t, StandardTier) && (t.counters.highRisk > 0 ==> ApprovedBy(t, HighRiskTier))
    && |ids| == |Select(t.rows, With(Valid))|
  }

  /** The valid rows in row order, each with its approver; `ids` are the identifiers created
      users would get. */
  function TasksOf(t: Ticket, ids: seq<Uuid>): (r: seq<Task>)
    requires ReadyToApply(t, ids)
    ensures |r| == |ids|
    ensures forall i :: 0 <= i < |r| ==>
              r[i] == Task(Select(t.rows, With(Valid))[i], ActorFor(t, Select(t.rows, With(Valid))[i]), ids[i])
  {
    var rows := Select(t.rows, With(Valid));
    seq(|ids|, i requires 0 <= i < |ids| => Task(rows[i], ActorFor(t, rows[i]), ids[i]))
  }

  function ActorsOf(tasks: seq<Task>): (r: seq<Uuid>)
    ensures |r| == |tasks| && forall i :: 0 <= i < |r| ==> r[i] == tasks[i].actor
  {
    seq(|tasks|, i requires 0 <= i < |tasks| => tasks[i].actor)
  }

  /** What a caller sees: the outcome of each row that had one, and the one-time tokens. */
  datatype Answer = Answer(outcomes: seq<(nat, Outcome)>, tokens: set<string>)

  function OutcomesOf(recs: seq<Record>): seq<(nat, Outcome)> {
    if recs == [] then []
    else
      var rec := recs[|recs| - 1];
      OutcomesOf(recs[..|recs| - 1]) + if rec.outcome == NoOutcome then [] else [(rec.row.number, rec.outcome)]
  }

  function TokensOf(recs: seq<Record>): set<string> {
    set rec | rec in recs && rec.token && rec.row.ext != "" :: rec.row.ext
  }

  function CommittedTicket(t: Ticket, tasks: seq<Task>, recs: seq<Record>, key: string): Ticket {
    t.(state := A.Committed, key := Some(key), records := recs, appliedAs := ActorsOf(tasks))
  }

  /** A repeat under the key of a committed job answers from what is stored, without tokens. */
  function Commit(t: Ticket, d: Directory, a: Authority, now: int, actor: Uuid, version: nat, key: string, env: Env,
                  ids: seq<Uuid>)
    : Result<(Ticket, Directory, Answer), JobError>
    requires CommitNo(t, a, now, actor, version).None? ==> ReadyToApply(t, ids) && AllFit(d, t.kind, TasksOf(t, ids))
  {
    if !A.CanAccess(a, now, actor, View(t)) then Err(NotAllowed)
    else if t.state == A.Committed then
      if t.key == Some(key) then Ok((t, d, Answer(OutcomesOf(t.records), {}))) else Err(NotReady)
    else if CommitNo(t, a, now, actor, version).Some? then Err(CommitNo(t, a, now, actor, version).value)
    else
      var tasks := TasksOf(t, ids);
      match CommitAll(d, t.kind, tasks, env)
      case Err(e) => Err(RowFailed(e))
      case Ok((d', recs)) => Ok((CommittedTicket(t, tasks, recs, key), d', Answer(OutcomesOf(recs), TokensOf(recs))))
  }

  function ReverseNo(t: Ticket, a: Authority, now: int, actor: Uuid): Option<JobError> {
    if !A.CanAccess(a, now, actor, View(t)) then Some(NotAllowed)
    else if t.state != A.Committed || t.reversed then Some(NotReady)
    else if t.counters.highRisk > 0 && QualifiedNo(t, a, now, actor).Some? then QualifiedNo(t, a, now, actor)
    else if !Authorized(t, a, now, actor, Routine) then Some(NotAllowed)
    else None
  }

  function Reverse(t: Ticket, d: Directory, a: Authority, now: int, actor: Uuid, env: Env, order: seq<nat>)
    : Result<(Ticket, Directory), JobError>
    requires ReverseNo(t, a, now, actor).None? ==> Applicable(d, t.records, order)
  {
    if ReverseNo(t, a, now, actor).Some? then Err(ReverseNo(t, a, now, actor).value)
    else match ReverseAll(d, t.records, order, actor, env)
         case Err(e) => Err(RowFailed(e))
         case Ok((d', undone)) => Ok((t.(reversed := true, undone := undone), d'))
  }

  // ------------------------------------------------------------ who is asked to look

  const UPLOAD_CAPABILITIES: set<Capability> := APPOINTMENT_CAPABILITIES + {AssignCampaignAgent}

  /** The job is parsed and holds what parsing stored. */
  ghost predicate FromFile(t: Ticket) {
    && t.state == A.Parsed && t.rows != [] && Counted(t.rows, t.counters)
    && t.footprint.Some? && (exists cap :: A.StandsFor(t.footprint.value, t.kind, t.rows, cap))
    && (forall row :: row in t.rows && row.risk == HighRisk ==> t.kind in {DeactivationRows, RoleRows})
  }

  /** High-risk rows, or routine rows the uploader may not approve. */
  predicate NeedsOthers(t: Ticket, a: Authority, now: int) {
    t.counters.highRisk > 0 || !Authorized(t, a, now, t.uploader, Routine)
  }

  /** Meeting any real requirement of a row takes one of the upload capabilities. */
  lemma {:induction false} RequirementNeedsCapability(kind: ImportType, row: ImportRow, a: Authority, now: int, u: Uuid)
    requires RowRequirement(kind, row).Some? && A.Holds(a, now, u, RowRequirement(kind, row))
    ensures HoldsAny(a, now, UPLOAD_CAPABILITIES, u)
  {
    match RowRequirement(kind, row).value
    case MayManage(target) => ManagingNeedsCapability(a, now, u, target);
    case MayScope(cap, scope) => ScopeNeedsCapability(kind, row, a, now, u);
    case MayStaff(c) => NoGrantNoCampaign(a, now, u, c);
    case Deny =>
  }

  lemma {:induction false} ManagingNeedsCapability(a: Authority, now: int, u: Uuid, target: Uuid)
    requires CanManage(a, now, u, target)
    ensures HoldsAny(a, now, UPLOAD_CAPABILITIES, u)
  {
    if RolesOf(a, now, target) == {} {
      var c :| c in APPOINTMENT_CAPABILITIES && HasAssigned(a, now, u, c);
      assert c in UPLOAD_CAPABILITIES;
    } else {
      var k :| k in RolesOf(a, now, target) && Appointment(k.role).Some?
          && HasScope(a, now, u, Appointment(k.role).value, k.scope);
      assert HasAssigned(a, now, u, Appointment(k.role).value) && Appointment(k.role).value in UPLOAD_CAPABILITIES;
    }
  }

  lemma {:induction false} ScopeNeedsCapability(kind: ImportType, row: ImportRow, a: Authority, now: int, u: Uuid)
    requires RowRequirement(kind, row).Some? && RowRequirement(kind, row).value.MayScope?
    requires A.Holds(a, now, u, RowRequirement(kind, row))
    ensures HoldsAny(a, now, UPLOAD_CAPABILITIES, u)
  {
    var cap := RowRequirement(kind, row).value.cap;
    assert cap in APPOINTMENT_CAPABILITIES;
    assert HasAssigned(a, now, u, cap) && cap in UPLOAD_CAPABILITIES;
  }

  lemma {:induction false} NoGrantNoCampaign(a: Authority, now: int, u: Uuid, c: Uuid)
    requires HasCampaign(a, now, u, AssignCampaignAgent, c)
    ensures HasAssigned(a, now, u, AssignCampaignAgent) && AssignCampaignAgent in UPLOAD_CAPABILITIES
  {
    FilterIsPerGrant(a, now, GrantScopes(a, now, u, AssignCampaignAgent), c);
  }

  /** The coarse candidate set misses nobody: when a job needs others, whoever could reach it
      holds an upload capability. */
  lemma {:induction false} AccessNeedsCapability(t: Ticket, a: Authority, now: int, u: Uuid)
    requires FromFile(t) && NeedsOthers(t, a, now) && u != t.uploader && A.CanAccess(a, now, u, View(t))
    ensures HoldsAny(a, now, UPLOAD_CAPABILITIES, u)
  {
    var cap :| A.StandsFor(t.footprint.value, t.kind, t.rows, cap);
    A.FootprintAgreesWithRows(a, now, u, View(t), cap);
    var row := DemandingRow(t, a, now);
    var k :| 0 <= k < |t.rows| && t.rows[k] == row;
    assert A.Holds(a, now, u, RowRequirements(t.kind, t.rows)[k]);
    RequirementNeedsCapability(t.kind, row, a, now, u);
  }

  lemma {:induction false} DemandingRow(t: Ticket, a: Authority, now: int) returns (row: ImportRow)
    requires FromFile(t) && NeedsOthers(t, a, now)
    ensures row in t.rows && RowRequirement(t.kind, row).Some?
  {
    if t.counters.highRisk > 0 {
      row := HighRiskRow(t);
    } else {
      row := UnmetRow(t.kind, Select(t.rows, Committable(Routine)), a, now, t.uploader);
    }
  }

  lemma {:induction false} HighRiskRow(t: Ticket) returns (row: ImportRow)
    requires Counted(t.rows, t.counters) && t.counters.highRisk > 0
    requires forall r :: r in t.rows && r.risk == HighRisk ==> t.kind in {DeactivationRows, RoleRows}
    ensures row in t.rows && RowRequirement(t.kind, row).Some?
  {
    row := SelectedRow(t.rows, Committable(HighRisk));
  }

  lemma {:induction false} SelectedRow(rows: seq<ImportRow>, s: Selector) returns (row: ImportRow)
    requires |Select(rows, s)| > 0
    ensures row in rows && Selected(row, s)
  {
    row := Select(rows, s)[0];
    assert row in Select(rows, s);
  }

  lemma {:induction false} UnmetRow(kind: ImportType, rows: seq<ImportRow>, a: Authority, now: int, u: Uuid)
    returns (row: ImportRow)
    requires !A.AllHold(a, now, u, RowRequirements(kind, rows))
    ensures row in rows && RowRequirement(kind, row).Some?
  {
    var rs := RowRequirements(kind, rows);
    var i :| 0 <= i < |rs| && !A.Holds(a, now, u, rs[i]);
    row := rows[i];
  }

  // -------------------------------------------------------------------- the code

  /** The rest of the database a job's operations read and write. */
  class Site {
    var directory: Directory
    var delegations: seq<Delegation>
    var campaigns: map<Uuid, CampaignInfo>

    function Live(): Authority
      reads this
    {
      Authority(directory.roles, delegations, directory.teams, campaigns)
    }

    constructor (directory: Directory, delegations: seq<Delegation>, campaigns: map<Uuid, CampaignInfo>)
      ensures this.directory == directory && this.delegations == delegations && this.campaigns == campaigns
    {
      this.directory, this.delegations, this.campaigns := directory, delegations, campaigns;
    }
  }

  class ImportJob {
    const id: Uuid
    const uploader: Uuid
    const kind: ImportType
    var state: A.JobState
    var rows: seq<ImportRow>
    var footprint: Option<A.Footprint>
    var counters: Counters
    var decisions: seq<Decision>
    var key: Option<string>
    var records: seq<Record>
    var appliedAs: seq<Uuid>
    var reversed: bool
    var undone: set<nat>

    function Contents(): Ticket
      reads this
    {
      Ticket(id, uploader, kind, state, rows, footprint, counters, decisions, key, records, appliedAs, reversed, undone)
    }

    constructor (id: Uuid, uploader: Uuid, kind: ImportType)
      ensures Contents() == Ticket(id, uploader, kind, A.Quarantined, [], None, Counters(0, 0, 0, 0, 0), [], None, [],
          [], false, {})
    {
      this.id, this.uploader, this.kind := id, uploader, kind;
      state, rows, footprint, counters := A.Quarantined, [], None, Counters(0, 0, 0, 0, 0);
      decisions, key, records, appliedAs, reversed, undone := [], None, [], [], false, {};
    }

    /** Rows, counters and footprint from the lines of the file. The reader yields `lines` and
        then ends, or breaks off with an error; after an error the full batches of rows stay. */
    method Parse(l: C.Lookups, lines: seq<C.Line>, headerOk: bool, broken: bool, cap: nat)
      requires kind != CampaignRows
      modifies this`state, this`rows, this`footprint, this`counters
      ensures old(state) != A.Quarantined ==> Contents() == old(Contents())
      ensures old(state) == A.Quarantined ==> state == if headerOk && !broken && lines != [] then A.Parsed else A.Failed
      ensures old(state) == A.Quarantined && state == A.Parsed ==>
                && rows == C.Rows(l, kind, lines) && FromFile(Contents())
                && A.StandsFor(footprint.value, kind, rows, cap)
      ensures old(state) == A.Quarantined && state == A.Failed ==>
                && footprint == old(footprint) && counters == old(counters)
                && rows ==
                   if headerOk then C.Rows(l, kind, lines)[..|lines| - |lines| % PARSE_BATCH_SIZE] else old(rows)
    {
      if state != A.Quarantined {
        return;
      }
      if !headerOk {
        state := A.Failed;
        return;
      }
      var batch, counts := ClassifyLines(l, kind, lines);
      if broken || lines == [] {
        rows, state := batch[..|batch| - |batch| % PARSE_BATCH_SIZE], A.Failed;
        return;
      }
      var fp := A.BuildFootprint(kind, batch, cap);
      rows, counters, footprint, state := batch, counts, Some(fp), A.Parsed;
      ParsedIsFromFile(l, lines, Contents(), cap);
    }

    /** Who is told that a parsed job waits for them: nobody if the uploader can carry it alone,
        otherwise everyone the access check lets in, found by narrowing a coarse candidate set. */
    method NotifyPendingApprovers(site: Site, now: int) returns (told: set<Uuid>)
      requires FromFile(Contents())
      ensures !NeedsOthers(Contents(), site.Live(), now) ==> told == {}
      ensures NeedsOthers(Contents(), site.Live(), now) ==>
                forall u :: u in told <==> u != uploader && A.CanAccess(site.Live(), now, u, View(Contents()))
    {
      var a := site.Live();
      told := {};
      if counters.highRisk == 0 {
        var alone := A.AuthorityOver(a, now, uploader, RowRequirements(kind, Select(rows, Committable(Routine))));
        if alone {
          return;
        }
      }
      var todo := UsersWithAny(a, now, UPLOAD_CAPABILITIES);
      forall u | u != uploader && A.CanAccess(a, now, u, View(Contents())) ensures u in todo {
        AccessNeedsCapability(Contents(), a, now, u);
      }
      ghost var all := todo;
      while todo != {}
        invariant forall u :: u in told + todo ==> u in all
        invariant forall u :: u in all && u !in todo ==>
            (u in told <==> u != uploader && A.CanAccess(a, now, u, View(Contents())))
        invariant told !! todo
      {
        var u :| u in todo;
        todo := todo - {u};
        if u != uploader {
          var accessible := A.CanAccessJob(a, now, u, View(Contents()));
          if accessible {
            told := told + {u};
          }
        }
      }
    }

    method RecordDecision(site: Site, now: int, approver: Uuid, vote: Vote, tier: Tier, ack: bool)
      returns (r: Result<nat, JobError>)
      modifies this`decisions
      ensures var no := DecisionNo(old(Contents()), site.Live(), now, approver, vote, tier, ack);
              if no.Some? then r == Err(no.value) && decisions == old(decisions)
              else r == Ok(|decisions|) && Contents() == Decided(old(Contents()), approver, vote, tier)
    {
      var a := site.Live();
      var t := Contents();
      var accessible := A.CanAccessJob(a, now, approver, View(t));
      if !accessible {
        return Err(NotAllowed);
      }
      if state != A.Parsed {
        return Err(NotReady);
      }
      if tier == HighRiskTier {
        if counters.highRisk == 0 {
          return Err(NothingHighRisk);
        }
        if vote == Approve {
          var no := AssertQualified(a, now, approver);
          if no.Some? {
            return Err(no.value);
          }
        }
      } else if vote == Approve {
        var authorized := A.AuthorityOver(a, now, approver, RowRequirements(kind, Select(rows, Committable(Routine))));
        if !authorized {
          return Err(NotAllowed);
        }
      }
      if vote == Approve {
        if counters.invalid > 0 {
          return Err(InvalidRowsLeft);
        }
        if counters.warning > 0 && !ack {
          return Err(WarningsLeft);
        }
      }
      decisions := decisions + [Decision(|decisions| + 1, vote, tier, approver)];
      r := Ok(|decisions|);
    }

    method AssertQualified(a: Authority, now: int, approver: Uuid) returns (no: Option<JobError>)
      ensures no == QualifiedNo(Contents(), a, now, approver)
    {
      if approver == uploader {
        return Some(OwnImport);
      }
      var authorized := A.AuthorityOver(a, now, approver, RowRequirements(kind, Select(rows, Committable(HighRisk))));
      no := if authorized then None else Some(NotAllowed);
    }

    /** The guards of a commit, each re-checked against live state. */
    method CheckCommit(a: Authority, now: int, actor: Uuid, version: nat) returns (no: Option<JobError>)
      requires A.CanAccess(a, now, actor, View(Contents()))
      ensures no == CommitNo(Contents(), a, now, actor, version)
    {
      if state != A.Parsed {
        return Some(NotReady);
      }
      if version != |decisions| {
        return Some(Stale);
      }
      if counters.invalid > 0 {
        return Some(InvalidRowsLeft);
      }
      var standard := LatestOf(decisions, StandardTier);
      if standard.None? || standard.value.vote != Approve {
        return Some(NotApproved);
      }
      var authorized := A.AuthorityOver(a, now, standard.value.approver,
          RowRequirements(kind, Select(rows, Committable(Routine))));
      if !authorized {
        return Some(NotAllowed);
      }
      if counters.highRisk > 0 {
        var high := LatestOf(decisions, HighRiskTier);
        if high.None? || high.value.vote != Approve {
          return Some(NotApproved);
        }
        no := AssertQualified(a, now, high.value.approver);
        return;
      }
      no := None;
    }

    method CommitJob(site: Site, now: int, actor: Uuid, version: nat, newKey: string, env: Env, ids: seq<Uuid>)
      returns (r: Result<Answer, JobError>)
      requires CommitNo(Contents(), site.Live(), now, actor, version).None? ==>
                 ReadyToApply(Contents(), ids) && AllFit(site.directory, kind, TasksOf(Contents(), ids))
      modifies this`state, this`key, this`records, this`appliedAs, site`directory
      ensures match Commit(old(Contents()), old(site.directory), old(site.Live()), now, actor, version, newKey, env,
          ids)
              case Ok(done) => r == Ok(done.2) && Contents() == done.0 && site.directory == done.1
              case Err(e) => r == Err(e) && Contents() == old(Contents()) && site.directory == old(site.directory)
    {
      var a := site.Live();
      var accessible := A.CanAccessJob(a, now, actor, View(Contents()));
      if !accessible {
        return Err(NotAllowed);
      }
      if state == A.Committed {
        if key == Some(newKey) {
          return Ok(Answer(OutcomesOf(records), {}));
        }
        return Err(NotReady);
      }
      var no := CheckCommit(a, now, actor, version);
      if no.Some? {
        return Err(no.value);
      }
      r := ApplyTasks(site, TasksOf(Contents(), ids), newKey, env);
    }

    /** The rows applied and the job marked, or nothing. */
    method ApplyTasks(site: Site, tasks: seq<Task>, newKey: string, env: Env) returns (r: Result<Answer, JobError>)
      requires AllFit(site.directory, kind, tasks)
      modifies this`state, this`key, this`records, this`appliedAs, site`directory
      ensures match CommitAll(old(site.directory), kind, tasks, env)
              case Ok((d, recs)) =>
                && r == Ok(Answer(OutcomesOf(recs), TokensOf(recs))) && site.directory == d
                && Contents() == CommittedTicket(old(Contents()), tasks, recs, newKey)
              case Err(e) =>
                r == Err(RowFailed(e)) && Contents() == old(Contents()) && site.directory == old(site.directory)
    {
      ghost var t := Contents();
      var applied := ApplyRows(site, kind, tasks, env);
      if applied.Err? {
        return Err(RowFailed(applied.error));
      }
      state, key, records, appliedAs := A.Committed, Some(newKey), applied.value, ActorsOf(tasks);
      assert Contents() == CommittedTicket(t, tasks, applied.value, newKey);
      r := Ok(Answer(OutcomesOf(applied.value), TokensOf(applied.value)));
    }

    method ReverseJob(site: Site, now: int, actor: Uuid, env: Env, order: seq<nat>)
      returns (r: Result<set<nat>, JobError>)
      requires ReverseNo(Contents(), site.Live(), now, actor).None? ==> Applicable(site.directory, records, order)
      modifies this`reversed, this`undone, site`directory
      ensures match Reverse(old(Contents()), old(site.directory), old(site.Live()), now, actor, env, order)
              case Ok(done) => r == Ok(done.0.undone) && Contents() == done.0 && site.directory == done.1
              case Err(e) => r == Err(e) && Contents() == old(Contents()) && site.directory == old(site.directory)
    {
      var a := site.Live();
      var accessible := A.CanAccessJob(a, now, actor, View(Contents()));
      if !accessible {
        return Err(NotAllowed);
      }
      if state != A.Committed {
        return Err(NotReady);
      }
      if reversed {
        return Err(NotReady);
      }
      if counters.highRisk > 0 {
        var no := AssertQualified(a, now, actor);
        if no.Some? {
          return Err(no.value);
        }
      }
      var authorized := A.AuthorityOver(a, now, actor, RowRequirements(kind, Select(rows, Committable(Routine))));
      if !authorized {
        return Err(NotAllowed);
      }
      var done := UndoRows(site, records, order, actor, env);
      if done.Err? {
        return Err(RowFailed(done.error));
      }
      reversed, undone := true, done.value;
      r := Ok(done.value);
    }
  }

  /** Classify the lines one by one with the set of keys claimed so far, counting as it goes. */
  method ClassifyLines(l: C.Lookups, kind: ImportType, lines: seq<C.Line>)
    returns (batch: seq<ImportRow>, counts: Counters)
    requires kind != CampaignRows
    ensures batch == C.Rows(l, kind, lines) && Counted(batch, counts)
  {
    batch, counts := [], Counters(0, 0, 0, 0, 0);
    var seen: set<string> := {};
    var n := 0;
    NothingParsed(l, kind, lines);
    while n < |lines|
      invariant 0 <= n <= |lines|
      invariant ParsedSoFar(l, kind, lines, n, batch, seen, counts)
    {
      batch, seen, counts := ClassifyNext(l, kind, lines, n, batch, seen, counts);
      n := n + 1;
    }
    assert lines[..n] == lines;
  }

  /** The state of the parse loop after `n` lines. */
  ghost predicate ParsedSoFar(l: C.Lookups, kind: ImportType, lines: seq<C.Line>, n: nat,
                              batch: seq<ImportRow>, seen: set<string>, counts: Counters)
    requires kind != CampaignRows && n <= |lines|
  {
    batch == C.Rows(l, kind, lines[..n]) && seen == C.SeenBefore(l, kind, lines[..n]) && Counted(batch, counts)
  }

  lemma {:induction false} NothingParsed(l: C.Lookups, kind: ImportType, lines: seq<C.Line>)
    requires kind != CampaignRows
    ensures ParsedSoFar(l, kind, lines, 0, [], {}, Counters(0, 0, 0, 0, 0))
  {
    assert lines[..0] == [];
  }

  /** Classify one line, claim its key, and count it. */
  method ClassifyNext(l: C.Lookups, kind: ImportType, lines: seq<C.Line>, n: nat,
                      batch: seq<ImportRow>, seen: set<string>, counts: Counters)
    returns (batch': seq<ImportRow>, seen': set<string>, counts': Counters)
    requires kind != CampaignRows && n < |lines| && ParsedSoFar(l, kind, lines, n, batch, seen, counts)
    ensures ParsedSoFar(l, kind, lines, n + 1, batch', seen', counts')
  {
    var result := C.Classify(l, kind, lines[n], seen);
    RowsGrow(l, kind, lines, n, result);
    CountsGrow(batch, result.row, counts);
    seen' := seen;
    if result.claims.Some? {
      seen' := seen' + {result.claims.value};
    }
    batch' := batch + [result.row];
    counts' := Tally(counts, result.row);
  }

  method Tally(c: Counters, row: ImportRow) returns (r: Counters)
    ensures r == CountOne(c, row)
  {
    r := c.(total := c.total + 1);
    if row.validation == Invalid {
      r := r.(invalid := r.invalid + 1);
    } else if row.validation == Warning {
      r := r.(warning := r.warning + 1);
    } else {
      r := r.(valid := r.valid + 1);
    }
    if row.risk == HighRisk && row.validation == Valid {
      r := r.(highRisk := r.highRisk + 1);
    }
  }

  lemma {:induction false} RowsGrow(l: C.Lookups, kind: ImportType, lines: seq<C.Line>, n: nat, v: C.Verdict)
    requires kind != CampaignRows && n < |lines|
    requires v == C.Classify(l, kind, lines[n], C.SeenBefore(l, kind, lines[..n]))
    ensures C.Rows(l, kind, lines[..n + 1]) == C.Rows(l, kind, lines[..n]) + [v.row]
    ensures C.SeenBefore(l, kind, lines[..n + 1]) ==
            C.SeenBefore(l, kind, lines[..n]) + if v.claims.Some? then {v.claims.value} else {}
  {
    assert lines[..n + 1][..n] == lines[..n] && lines[..n + 1][n] == lines[n];
    SeenGrows(l, kind, lines, n, v);
  }

  /** What parsing leaves behind is a job from a file. */
  lemma {:induction false} ParsedIsFromFile(l: C.Lookups, lines: seq<C.Line>, t: Ticket, cap: nat)
    requires t.kind != CampaignRows && t.state == A.Parsed && t.rows == C.Rows(l, t.kind, lines) && lines != []
    requires Counted(t.rows, t.counters) && t.footprint.Some? && A.StandsFor(t.footprint.value, t.kind, t.rows, cap)
    ensures FromFile(t)
  {
    forall row | row in t.rows && row.risk == HighRisk ensures t.kind in {DeactivationRows, RoleRows} {
      var n :| 0 <= n < |lines| && t.rows[n] == row;
      RiskOf(l, t.kind, lines, n);
    }
  }

  lemma {:induction false} RiskOf(l: C.Lookups, kind: ImportType, lines: seq<C.Line>, n: nat)
    requires kind != CampaignRows && n < |lines| && C.Rows(l, kind, lines)[n].risk == HighRisk
    ensures kind in {DeactivationRows, RoleRows}
  {
    C.RowsAt(l, kind, lines, n);
    C.HighRiskKinds(l, kind, lines[n], C.SeenBefore(l, kind, lines[..n]));
  }

  function CountOne(c: Counters, row: ImportRow): Counters {
    Counters(c.total + 1,
             c.valid + if row.validation == Valid then 1 else 0,
             c.warning + if row.validation == Warning then 1 else 0,
             c.invalid + if row.validation == Invalid then 1 else 0,
             c.highRisk + if row.validation == Valid && row.risk == HighRisk then 1 else 0)
  }

  lemma {:induction false} CountsGrow(rows: seq<ImportRow>, row: ImportRow, c: Counters)
    requires Counted(rows, c)
    ensures Counted(rows + [row], CountOne(c, row))
  {
    SelectOneMore(rows, row, With(Valid));
    SelectOneMore(rows, row, With(Warning));
    SelectOneMore(rows, row, With(Invalid));
    SelectOneMore(rows, row, Committable(HighRisk));
  }

  lemma {:induction false} SelectOneMore(rows: seq<ImportRow>, row: ImportRow, s: Selector)
    ensures |Select(rows + [row], s)| == |Select(rows, s)| + if Selected(row, s) then 1 else 0
  {
    assert (rows + [row])[..|rows|] == rows;
  }

  lemma {:induction false} SeenGrows(l: C.Lookups, kind: ImportType, lines: seq<C.Line>, n: nat, v: C.Verdict)
    requires kind != CampaignRows && n < |lines|
    requires v == C.Classify(l, kind, lines[n], C.SeenBefore(l, kind, lines[..n]))
    ensures C.SeenBefore(l, kind, lines[..n + 1]) ==
            C.SeenBefore(l, kind, lines[..n]) + if v.claims.Some? then {v.claims.value} else {}
  {
    var before, after := C.SeenBefore(l, kind, lines[..n]), C.SeenBefore(l, kind, lines[..n + 1]);
    var key := C.KeyOf(l, kind, lines[n]);
    assert lines[..n + 1][n] == lines[n];
    assert forall i :: 0 <= i < n ==> lines[..n][i] == lines[i] && lines[..n + 1][i] == lines[i];
    forall k ensures k in after <==> k in before || key == Some(k) {
      if k in after {
        var i :| 0 <= i < n + 1 && C.KeyOf(l, kind, lines[..n + 1][i]) == Some(k);
        assert i < n ==> C.KeyOf(l, kind, lines[..n][i]) == Some(k);
      }
      if k in before {
        var i :| 0 <= i < n && C.KeyOf(l, kind, lines[..n][i]) == Some(k);
        assert C.KeyOf(l, kind, lines[..n + 1][i]) == Some(k);
      }
      if key == Some(k) {
        assert C.KeyOf(l, kind, lines[..n + 1][n]) == Some(k);
      }
    }
  }

  /** Apply the rows in order inside one transaction. */
  method ApplyRows(site: Site, kind: ImportType, tasks: seq<Task>, env: Env)
    returns (r: Result<seq<Record>, ServiceError>)
    requires AllFit(site.directory, kind, tasks)
    modifies site`directory
    ensures match CommitAll(old(site.directory), kind, tasks, env)
            case Ok(done) => r == Ok(done.1) && site.directory == done.0
            case Err(e) => r == Err(e) && site.directory == old(site.directory)
  {
    var before := site.directory;
    var recs: seq<Record> := [];
    var i := 0;
    while i < |tasks|
      invariant 0 <= i <= |tasks|
      invariant CommitAll(before, kind, tasks[..i], env) == Ok((site.directory, recs))
    {
      var t := tasks[i];
      OneMoreApplied(before, kind, tasks, i, env, site.directory, recs);
      var one := CommitRow(site.directory, kind, t.row, t.actor, env, t.newId);
      if one.Err? {
        FailsThrough(before, kind, tasks, i + 1, env);
        site.directory := before;
        return Err(one.error);
      }
      site.directory := one.value.0;
      recs := recs + [one.value.1];
      i := i + 1;
    }
    assert tasks[..i] == tasks;
    r := Ok(recs);
  }

  lemma {:induction false} OneMoreApplied(d: Directory, kind: ImportType, tasks: seq<Task>, i: nat, env: Env,
                                          d1: Directory, recs: seq<Record>)
    requires AllFit(d, kind, tasks) && i < |tasks| && CommitAll(d, kind, tasks[..i], env) == Ok((d1, recs))
    ensures Fits(d1, kind, tasks[i].row)
    ensures var one := CommitRow(d1, kind, tasks[i].row, tasks[i].actor, env, tasks[i].newId);
            CommitAll(d, kind, tasks[..i + 1], env) == match one
              case Err(e) => Err(e)
              case Ok((d2, rec)) => Ok((d2, recs + [rec]))
  {
    assert tasks[..i + 1][..i] == tasks[..i];
    assert Fits(d, kind, tasks[i].row);
  }

  /** An error in a prefix is the error of the whole. */
  lemma {:induction false} FailsThrough(d: Directory, kind: ImportType, tasks: seq<Task>, i: nat, env: Env)
    requires AllFit(d, kind, tasks) && i <= |tasks| && CommitAll(d, kind, tasks[..i], env).Err?
    ensures CommitAll(d, kind, tasks, env) == Err(CommitAll(d, kind, tasks[..i], env).error)
    decreases |tasks|
  {
    if i < |tasks| {
      var n := |tasks| - 1;
      assert tasks[..n][..i] == tasks[..i];
      FailsThrough(d, kind, tasks[..n], i, env);
    } else {
      assert tasks[..i] == tasks;
    }
  }

  /** Undo the linked rows, in whatever order they come. */
  method UndoRows(site: Site, recs: seq<Record>, order: seq<nat>, actor: Uuid, env: Env)
    returns (r: Result<set<nat>, ServiceError>)
    requires Applicable(site.directory, recs, order)
    modifies site`directory
    ensures match ReverseAll(old(site.directory), recs, order, actor, env)
            case Ok(done) => r == Ok(done.1) && site.directory == done.0
            case Err(e) => r == Err(e) && site.directory == old(site.directory)
  {
    var before := site.directory;
    var undone: set<nat> := {};
    var i := 0;
    while i < |order|
      invariant 0 <= i <= |order|
      invariant ReverseAll(before, recs, order[..i], actor, env) == Ok((site.directory, undone))
    {
      assert order[..i + 1][..i] == order[..i];
      var k := order[i];
      assert Linked(before, recs[order[i]]);
      var one := ReverseRow(site.directory, recs[k], actor, env);
      if one.Err? {
        UndoFailsThrough(before, recs, order, i + 1, actor, env);
        site.directory := before;
        return Err(one.error);
      }
      if one.value.Some? {
        site.directory := one.value.value;
        undone := undone + {k};
      }
      i := i + 1;
    }
    assert order[..i] == order;
    r := Ok(undone);
  }

  lemma {:induction false} UndoFailsThrough(d: Directory, recs: seq<Record>, order: seq<nat>, i: nat, actor: Uuid,
                                            env: Env)
    requires Applicable(d, recs, order) && i <= |order| && ReverseAll(d, recs, order[..i], actor, env).Err?
    ensures ReverseAll(d, recs, order, actor, env) == Err(ReverseAll(d, recs, order[..i], actor, env).error)
    decreases |order|
  {
    if i < |order| {
      var n := |order| - 1;
      assert order[..n][..i] == order[..i];
      UndoFailsThrough(d, recs, order[..n], i, actor, env);
    } else {
      assert order[..i] == order;
    }
  }
}
