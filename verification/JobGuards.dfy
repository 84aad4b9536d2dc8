/** Who may decide on, commit and reverse a workforce job, row by row, and what a caller is shown. */
module JobGuards {
  import opened Basics
  import opened Tables
  import opened Capabilities
  import opened Authz
  import opened BulkAuthority
  import opened ImportRows
  import opened ImportEffects
  import opened ImportReversal
  import opened ImportJobs
  import opened ScopeReach
  import A = ImportAccess

  // ----------------------------------------------------------- authority over a row

  /** A role row of the user that counts now. */
  predicate HasRoleRow(a: Authority, k: nat, now: int, u: Uuid) {
    && k < |a.roles| && a.roles[k].key.user == u && a.roles[k].active && a.roles[k].since <= now
    && (a.roles[k].until.None? || now < a.roles[k].until.value)
  }

  /** A role row or a running delegation gives the user the capability, wherever. */
  ghost predicate HoldsSomewhere(a: Authority, now: int, u: Uuid, cap: Capability) {
    || (exists k: nat :: Grants(a, k, now, u, cap))
    || (exists j: nat :: LentBy(a, j, now, u, cap))
  }

  /** The capability it takes to put someone into the role. */
  predicate Appoints(cap: Capability, r: Role) {
    match r
    case Manager => cap == CreateManager
    case TeamLeader => cap == AppointTeamLeader
    case TeamCaptain => cap == AppointTeamCaptain
    case Agent => cap == CreateAgent
    case Viewer => cap == ManageRoles
    case _ => false
  }

  /** The actor could have appointed the target into one of their roles; one without any role may be
      managed by whoever may appoint anyone anywhere. */
  ghost predicate Manages(a: Authority, now: int, actor: Uuid, target: Uuid) {
    if exists k: nat :: HasRoleRow(a, k, now, target) then
      exists k: nat, cap :: && HasRoleRow(a, k, now, target) && Appoints(cap, a.roles[k].key.role)
                            && HasScope(a, now, actor, cap, a.roles[k].key.scope)
    else exists cap, r :: Appoints(cap, r) && HoldsSomewhere(a, now, actor, cap)
  }

  lemma {:induction false} HeldSomewhereIff(a: Authority, now: int, u: Uuid, cap: Capability)
    ensures HasAssigned(a, now, u, cap) <==> HoldsSomewhere(a, now, u, cap)
  {
    if HasAssigned(a, now, u, cap) {
      var g :| g in GrantScopes(a, now, u, cap);
      RoleRowOf(a, now, u, cap, g);
      LentScope(a, now, u, cap, g);
    }
    if k: nat :| Grants(a, k, now, u, cap) {
      RoleRowOf(a, now, u, cap, a.roles[k].key.scope);
    }
    if j: nat :| LentBy(a, j, now, u, cap) {
      LentScope(a, now, u, cap, a.delegations[j].scope);
    }
  }

  lemma {:induction false} AppointsIff(cap: Capability, r: Role)
    ensures Appoints(cap, r) <==> Appointment(r) == Some(cap)
    ensures cap in APPOINTMENT_CAPABILITIES <==> exists x :: Appoints(cap, x)
  {
    if cap in APPOINTMENT_CAPABILITIES {
      assert Appoints(cap, match cap
                           case CreateManager => Manager
                           case AppointTeamLeader => TeamLeader
                           case AppointTeamCaptain => TeamCaptain
                           case CreateAgent => Agent
                           case _ => Viewer);
    }
  }

  /** Someone holding the role may appoint others into role `r`. */
  predicate CanAppoint(holder: Role, r: Role) {
    exists cap :: cap in RoleCapabilities(holder) && Appoints(cap, r)
  }

  /** Appointments only go down: a manager appoints leaders, captains, agents and viewers, a leader
      captains and agents, a captain agents; only a super administrator appoints managers, and nobody
      a super administrator. */
  lemma {:induction false} AppointmentsGoDown(holder: Role, r: Role)
    ensures CanAppoint(holder, r) <==>
              match holder
              case SuperAdmin => r in {Manager, Viewer}
              case Manager => r in {TeamLeader, TeamCaptain, Agent, Viewer}
              case TeamLeader => r in {TeamCaptain, Agent}
              case TeamCaptain => r == Agent
              case _ => false
  {
    match r
    case Manager => assert CreateManager in RoleCapabilities(holder) <==> CanAppoint(holder, r);
    case TeamLeader => assert AppointTeamLeader in RoleCapabilities(holder) <==> CanAppoint(holder, r);
    case TeamCaptain => assert AppointTeamCaptain in RoleCapabilities(holder) <==> CanAppoint(holder, r);
    case Agent => assert CreateAgent in RoleCapabilities(holder) <==> CanAppoint(holder, r);
    case Viewer => assert ManageRoles in RoleCapabilities(holder) <==> CanAppoint(holder, r);
    case _ =>
  }

  lemma {:induction false} RoleRowsOf(a: Authority, now: int, u: Uuid, key: RoleKey)
    ensures key in RolesOf(a, now, u) <==> exists k: nat :: HasRoleRow(a, k, now, u) && a.roles[k].key == key
  {
    if key in RolesOf(a, now, u) {
      var r: RoleRow :| r in a.roles && Effective(r, now) && r.key.user == u && r.key == key;
      var k :| 0 <= k < |a.roles| && a.roles[k] == r;
      assert HasRoleRow(a, k, now, u);
    }
    if k: nat :| HasRoleRow(a, k, now, u) && a.roles[k].key == key {
      assert a.roles[k] in a.roles;
    }
  }

  lemma {:induction false} AppointsSomewhereIff(a: Authority, now: int, u: Uuid)
    ensures HoldsAnyAppointment(a, now, u) <==> exists cap, r :: Appoints(cap, r) && HoldsSomewhere(a, now, u, cap)
  {
    if cap :| cap in APPOINTMENT_CAPABILITIES && HasAssigned(a, now, u, cap) {
      AppointsIff(cap, Manager);
      HeldSomewhereIff(a, now, u, cap);
    }
    if cap, r :| Appoints(cap, r) && HoldsSomewhere(a, now, u, cap) {
      AppointsIff(cap, r);
      HeldSomewhereIff(a, now, u, cap);
    }
  }

  lemma {:induction false} ManagesIff(a: Authority, now: int, actor: Uuid, target: Uuid)
    ensures CanManage(a, now, actor, target) <==> Manages(a, now, actor, target)
  {
    AppointsSomewhereIff(a, now, actor);
    ManagesInRole(a, now, actor, target);
    if key :| key in RolesOf(a, now, target) {
      RoleRowsOf(a, now, target, key);
    }
    if k: nat :| HasRoleRow(a, k, now, target) {
      RoleRowsOf(a, now, target, a.roles[k].key);
    }
  }

  lemma {:induction false} ManagesInRole(a: Authority, now: int, actor: Uuid, target: Uuid)
    ensures (exists key :: key in RolesOf(a, now, target) && Appointment(key.role).Some?
                           && HasScope(a, now, actor, Appointment(key.role).value, key.scope))
            <==> exists k: nat, cap :: && HasRoleRow(a, k, now, target) && Appoints(cap, a.roles[k].key.role)
                                       && HasScope(a, now, actor, cap, a.roles[k].key.scope)
  {
    if key :| key in RolesOf(a, now, target) && Appointment(key.role).Some?
              && HasScope(a, now, actor, Appointment(key.role).value, key.scope) {
      RoleRowsOf(a, now, target, key);
      AppointsIff(Appointment(key.role).value, key.role);
    }
    if k: nat, cap :| HasRoleRow(a, k, now, target) && Appoints(cap, a.roles[k].key.role)
                      && HasScope(a, now, actor, cap, a.roles[k].key.scope) {
      RoleRowsOf(a, now, target, a.roles[k].key);
      AppointsIff(cap, a.roles[k].key.role);
    }
  }

  /** Whether the user may act on the row: manage the person it is about, appoint captains in its
      team, appoint its role at its scope, or staff its campaign. Any user may see a valid creation
      through, and none an unresolved row. */
  ghost predicate MayAct(a: Authority, now: int, u: Uuid, kind: ImportType, row: ImportRow) {
    match kind
    case UserRows =>
      if row.action == Creating then row.validation == Valid
      else row.action in {Updating, Reactivating} && row.identity.Some? && Manages(a, now, u, row.identity.value)
    case DeactivationRows => row.identity.Some? && Manages(a, now, u, row.identity.value)
    case ReportingRows => row.identity.Some? && Manages(a, now, u, row.identity.value)
    case MembershipRows =>
      row.values.OfTeam? && HasScope(a, now, u, AppointTeamCaptain, Scope(Team, Some(row.values.team)))
    case RoleRows =>
      row.values.OfRole? && exists cap :: && Appoints(cap, row.values.role)
                                          && HasScope(a, now, u, cap, row.values.scope)
    case CampaignRows => row.values.OfCampaign? && HasCampaign(a, now, u, AssignCampaignAgent, row.values.campaign)
  }

  lemma {:induction false} RequirementIs(a: Authority, now: int, u: Uuid, kind: ImportType, row: ImportRow)
    ensures A.Holds(a, now, u, RowRequirement(kind, row)) <==> MayAct(a, now, u, kind, row)
  {
    if row.identity.Some? {
      ManagesIff(a, now, u, row.identity.value);
    }
    if kind == RoleRows && row.values.OfRole? {
      forall cap ensures Appoints(cap, row.values.role) <==> Appointment(row.values.role) == Some(cap) {
        AppointsIff(cap, row.values.role);
      }
    }
  }

  ghost predicate MayActOnAll(t: Ticket, a: Authority, now: int, u: Uuid, risk: Risk) {
    forall row :: row in t.rows && row.validation == Valid && row.risk == risk ==> MayAct(a, now, u, t.kind, row)
  }

  lemma {:induction false} AllHoldIff(a: Authority, now: int, u: Uuid, kind: ImportType, rows: seq<ImportRow>)
    ensures A.AllHold(a, now, u, RowRequirements(kind, rows)) <==>
              forall row :: row in rows ==> MayAct(a, now, u, kind, row)
  {
    var rs := RowRequirements(kind, rows);
    forall i | 0 <= i < |rows| ensures A.Holds(a, now, u, rs[i]) <==> MayAct(a, now, u, kind, rows[i]) {
      RequirementIs(a, now, u, kind, rows[i]);
    }
  }

  lemma {:induction false} AuthorizedIff(t: Ticket, a: Authority, now: int, u: Uuid, risk: Risk)
    ensures Authorized(t, a, now, u, risk) <==> MayActOnAll(t, a, now, u, risk)
  {
    AllHoldIff(a, now, u, t.kind, Select(t.rows, Committable(risk)));
  }

  /** While a job from a file waits, its uploader may enter it, and whoever may act on all its rows. */
  lemma {:induction false} EntersIff(t: Ticket, a: Authority, now: int, u: Uuid)
    requires FromFile(t)
    ensures A.CanAccess(a, now, u, View(t)) <==>
              u == t.uploader || forall row :: row in t.rows ==> MayAct(a, now, u, t.kind, row)
  {
    if u != t.uploader {
      var cap :| A.StandsFor(t.footprint.value, t.kind, t.rows, cap);
      A.FootprintAgreesWithRows(a, now, u, View(t), cap);
      AllHoldIff(a, now, u, t.kind, t.rows);
    }
  }

  // ------------------------------------------------------------------- the checks

  /** The tier's decision that no later one of the tier supersedes. */
  predicate LastVote(ds: seq<Decision>, tier: Tier, x: Decision) {
    exists i :: 0 <= i < |ds| && ds[i] == x && x.tier == tier && forall j :: i < j < |ds| ==> ds[j].tier != tier
  }

  lemma {:induction false} LatestIs(ds: seq<Decision>, tier: Tier)
    ensures forall x :: LatestOf(ds, tier) == Some(x) <==> LastVote(ds, tier, x)
  {
    if ds != [] {
      var n := |ds| - 1;
      LatestIs(ds[..n], tier);
      forall x ensures LatestOf(ds, tier) == Some(x) <==> LastVote(ds, tier, x) {
        if ds[n].tier == tier {
          assert LastVote(ds, tier, ds[n]);
        } else {
          LastVoteBefore(ds, tier, x);
        }
      }
    }
  }

  lemma {:induction false} LastVoteBefore(ds: seq<Decision>, tier: Tier, x: Decision)
    requires ds != [] && ds[|ds| - 1].tier != tier
    ensures LastVote(ds[..|ds| - 1], tier, x) <==> LastVote(ds, tier, x)
  {
    var n := |ds| - 1;
    if i :| 0 <= i < |ds| && ds[i] == x && x.tier == tier && forall j :: i < j < |ds| ==> ds[j].tier != tier {
      assert ds[..n][i] == x;
    }
    if i :| 0 <= i < n && ds[..n][i] == x && x.tier == tier && forall j :: i < j < n ==> ds[..n][j].tier != tier {
      assert forall j :: i < j < |ds| ==> (j < n ==> ds[j] == ds[..n][j]) && ds[j].tier != tier;
      assert ds[i] == x;
    }
  }

  /** A vote can be cast on a waiting job one may enter. An approval also takes a file without
      invalid rows, any warnings acknowledged, and authority over the rows of its tier: routine ones
      for the standard tier; for the high-risk tier, the high-risk ones of somebody else's import. */
  lemma {:induction false} DecidesIff(t: Ticket, a: Authority, now: int, u: Uuid, vote: Vote, tier: Tier, ack: bool)
    ensures DecisionNo(t, a, now, u, vote, tier, ack).None? <==>
              && A.CanAccess(a, now, u, View(t)) && t.state == A.Parsed
              && (tier == HighRiskTier ==> t.counters.highRisk > 0)
              && (vote == Approve ==>
                    && t.counters.invalid == 0 && (t.counters.warning > 0 ==> ack)
                    && (tier == StandardTier ==> MayActOnAll(t, a, now, u, Routine))
                    && (tier == HighRiskTier ==> u != t.uploader && MayActOnAll(t, a, now, u, HighRisk)))
  {
    AuthorizedIff(t, a, now, u, Routine);
    AuthorizedIff(t, a, now, u, HighRisk);
  }

  /** The tier's last vote is an approval, by someone who may act on all rows of that risk now. */
  ghost predicate ApprovedNow(t: Ticket, a: Authority, now: int, tier: Tier, risk: Risk) {
    exists x :: LastVote(t.decisions, tier, x) && x.vote == Approve && MayActOnAll(t, a, now, x.approver, risk)
                && (tier == HighRiskTier ==> x.approver != t.uploader)
  }

  /** A waiting job can be committed at its current version if it has no invalid row and each tier
      it needs is approved by someone who is still entitled to. */
  lemma {:induction false} CommitsIff(t: Ticket, a: Authority, now: int, u: Uuid, version: nat)
    ensures CommitNo(t, a, now, u, version).None? <==>
              && A.CanAccess(a, now, u, View(t)) && t.state == A.Parsed && version == |t.decisions|
              && t.counters.invalid == 0 && ApprovedNow(t, a, now, StandardTier, Routine)
              && (t.counters.highRisk > 0 ==> ApprovedNow(t, a, now, HighRiskTier, HighRisk))
  {
    LatestIs(t.decisions, StandardTier);
    LatestIs(t.decisions, HighRiskTier);
    if LatestOf(t.decisions, StandardTier).Some? {
      AuthorizedIff(t, a, now, LatestOf(t.decisions, StandardTier).value.approver, Routine);
    }
    if LatestOf(t.decisions, HighRiskTier).Some? {
      AuthorizedIff(t, a, now, LatestOf(t.decisions, HighRiskTier).value.approver, HighRisk);
    }
  }

  /** A job that may be committed has the approvals its rows are applied under. */
  lemma {:induction false} CommitIsReady(t: Ticket, a: Authority, now: int, u: Uuid, version: nat, ids: seq<Uuid>)
    requires CommitNo(t, a, now, u, version).None? && |ids| == |Select(t.rows, With(Valid))|
    ensures ReadyToApply(t, ids)
  {
  }

  /** A committed job can be reversed once, by someone who may act on all its valid rows, and who did
      not upload it if any is high-risk. */
  lemma {:induction false} ReversesIff(t: Ticket, a: Authority, now: int, u: Uuid)
    ensures ReverseNo(t, a, now, u).None? <==>
              && A.CanAccess(a, now, u, View(t)) && t.state == A.Committed && !t.reversed
              && MayActOnAll(t, a, now, u, Routine)
              && (t.counters.highRisk > 0 ==> u != t.uploader && MayActOnAll(t, a, now, u, HighRisk))
  {
    AuthorizedIff(t, a, now, u, Routine);
    AuthorizedIff(t, a, now, u, HighRisk);
  }

  // ------------------------------------------------------------------- the answer

  /** Each selected row is selected once, in its place among those before it. */
  lemma {:induction false} SelectedInOrder(rows: seq<ImportRow>, s: Selector, k: nat)
    requires k < |rows| && Selected(rows[k], s)
    ensures |Select(rows[..k], s)| < |Select(rows, s)| && Select(rows, s)[|Select(rows[..k], s)|] == rows[k]
    decreases |rows|
  {
    var n := |rows| - 1;
    var before := Select(rows[..n], s);
    assert Select(rows, s) == before + if Selected(rows[n], s) then [rows[n]] else [];
    if k < n {
      assert rows[..n][..k] == rows[..k] && rows[..n][k] == rows[k];
      SelectedInOrder(rows[..n], s, k);
      assert Select(rows, s)[|Select(rows[..k], s)|] == before[|Select(rows[..k], s)|];
    }
  }

  /** Every outcome but none is reported, with its row number. */
  lemma {:induction false} OutcomesAre(recs: seq<Record>, n: nat, o: Outcome)
    ensures (n, o) in OutcomesOf(recs) <==>
              o != NoOutcome && exists i :: 0 <= i < |recs| && recs[i].outcome == o && recs[i].row.number == n
  {
    if recs != [] {
      var last := |recs| - 1;
      OutcomesAre(recs[..last], n, o);
      assert forall i :: 0 <= i < last ==> recs[..last][i] == recs[i];
    }
  }

  /** A token is shown for each created user with a workforce id, unless activation is deferred. */
  lemma {:induction false} TokensAre(recs: seq<Record>, id: string)
    ensures id in TokensOf(recs) <==>
              id != "" && exists i :: 0 <= i < |recs| && recs[i].token && recs[i].row.ext == id
  {
    if i :| 0 <= i < |recs| && recs[i].token && recs[i].row.ext == id {
      assert recs[i] in recs;
    }
  }
}
