/** Scopes, effective grants and the single-object authorization checks. */
module Authz {
  import opened Basics
  import opened Tables
  import opened Capabilities

  datatype ScopeKind = Installation | Organization | Team | CampaignScope | OtherScope(code: string)

  datatype Scope = Scope(kind: ScopeKind, id: Option<Uuid>)

  datatype RoleKey = RoleKey(user: Uuid, role: Role, scope: Scope)

  /** Role assignments carry no value beside their key. */
  datatype Granted = Granted

  type RoleRow = Row<RoleKey, Granted>

  datatype Delegation = Delegation(
    delegator: Uuid, delegate: Uuid, caps: seq<Capability>, scope: Scope,
    since: int, until: Option<int>, revokedAt: Option<int>)

  datatype TeamInfo = TeamInfo(org: Uuid, active: bool)

  datatype TeamLink = TeamLink(team: Uuid, active: bool, since: int, until: Option<int>)

  datatype CampaignInfo = CampaignInfo(ownerKind: ScopeKind, ownerId: Option<Uuid>, links: seq<TeamLink>)

  /** Everything an authorization decision reads. */
  datatype Authority = Authority(
    roles: Table<RoleKey, Granted>, delegations: seq<Delegation>,
    teams: map<Uuid, TeamInfo>, campaigns: map<Uuid, CampaignInfo>)

  // ---------------------------------------------------------------- scope cover

  /** Whether a grant at scope `g` covers `t`, with team ancestry already resolved. */
  predicate Covers(g: Scope, t: Scope, orgs: map<Uuid, Uuid>) {
    match g.kind
    case Installation => true
    case Organization =>
      || g.id.None?
      || (t.kind == Organization && g.id == t.id)
      || (t.kind == Team && t.id.Some? && t.id.value in orgs && orgs[t.id.value] == g.id.value)
    case _ => g == t
  }

  /** The organizations of the active teams among `ids`. */
  function TeamOrganizations(a: Authority, ids: set<Uuid>): map<Uuid, Uuid> {
    map t | t in ids && t in a.teams && a.teams[t].active :: a.teams[t].org
  }

  /** The single check: the ancestry of at most the one target team is looked up. */
  predicate CoversTarget(a: Authority, g: Scope, t: Scope) {
    var lookup := g.kind == Organization && g.id.Some? && t.kind == Team && t.id.Some?;
    Covers(g, t, TeamOrganizations(a, if lookup then {t.id.value} else {}))
  }

  /** Looking up more teams never changes a decision. */
  lemma {:induction false} AncestryOfMoreTeams(a: Authority, g: Scope, t: Scope, ids: set<Uuid>)
    requires g.kind == Organization && g.id.Some? && t.kind == Team && t.id.Some? ==> t.id.value in ids
    ensures Covers(g, t, TeamOrganizations(a, ids)) <==> CoversTarget(a, g, t)
  {
  }

  /** Scope cover is transitive over installation, organization, team and campaign. */
  lemma {:induction false} CoverIsTransitive(a: Authority, g: Scope, h: Scope, t: Scope)
    requires CoversTarget(a, g, h) && CoversTarget(a, h, t)
    ensures CoversTarget(a, g, t)
  {
  }

  // --------------------------------------------------------------------- grants

  /** The scopes at which the user's own effective roles grant a capability. */
  function RoleScopes(a: Authority, now: int, u: Uuid, cap: Capability): set<Scope> {
    set r: RoleRow | r in a.roles && Effective(r, now) && r.key.user == u && cap in RoleCapabilities(r.key.role)
      :: r.key.scope
  }

  /** Not revoked and inside its window. */
  predicate Running(d: Delegation, now: int) {
    d.revokedAt.None? && d.since <= now && (d.until.None? || d.until.value > now)
  }

  predicate HasScopeViaRole(a: Authority, now: int, u: Uuid, cap: Capability, t: Scope) {
    exists g :: g in RoleScopes(a, now, u, cap) && CoversTarget(a, g, t)
  }

  /** The delegator still owns the capability through a role at the delegation's scope. */
  predicate StillBacked(a: Authority, now: int, d: Delegation, cap: Capability) {
    HasScopeViaRole(a, now, d.delegator, cap, d.scope)
  }

  /** `d` currently lends `cap` to `u`. */
  predicate Lends(a: Authority, now: int, d: Delegation, u: Uuid, cap: Capability) {
    d in a.delegations && Running(d, now) && d.delegate == u && cap in d.caps && StillBacked(a, now, d, cap)
  }

  function DelegatedScopes(a: Authority, now: int, u: Uuid, cap: Capability): set<Scope> {
    set d | d in a.delegations && Lends(a, now, d, u, cap) :: d.scope
  }

  /** Every scope at which the user holds a capability, by role or by delegation. */
  function GrantScopes(a: Authority, now: int, u: Uuid, cap: Capability): set<Scope> {
    RoleScopes(a, now, u, cap) + DelegatedScopes(a, now, u, cap)
  }

  predicate HasAssigned(a: Authority, now: int, u: Uuid, cap: Capability) {
    GrantScopes(a, now, u, cap) != {}
  }

  predicate HasScope(a: Authority, now: int, u: Uuid, cap: Capability, t: Scope) {
    exists g :: g in GrantScopes(a, now, u, cap) && CoversTarget(a, g, t)
  }

  // -------------------------------------------------------- campaign visibility

  predicate LinkActive(l: TeamLink, now: int) {
    l.active && l.since <= now && (l.until.None? || l.until.value > now)
  }

  predicate Universal(g: Scope) {
    g.kind == Installation || (g.kind == Organization && g.id.None?)
  }

  /** The identifiers of the grants of one kind. */
  function IdsOf(grants: set<Scope>, kind: ScopeKind): set<Uuid> {
    set g | g in grants && g.kind == kind && g.id.Some? :: g.id.value
  }

  function ActiveTeamsOf(a: Authority, organizations: set<Uuid>): set<Uuid> {
    set t | t in a.teams && a.teams[t].active && a.teams[t].org in organizations
  }

  predicate OwnedBy(c: CampaignInfo, kind: ScopeKind, ids: set<Uuid>) {
    c.ownerKind == kind && c.ownerId.Some? && c.ownerId.value in ids
  }

  predicate LinkedTo(c: CampaignInfo, teams: set<Uuid>, now: int) {
    exists l :: l in c.links && LinkActive(l, now) && l.team in teams
  }

  /** The database filter built from a user's grants, applied to one campaign. */
  predicate CampaignFilter(a: Authority, now: int, grants: set<Scope>, id: Uuid)
    requires id in a.campaigns
  {
    var c := a.campaigns[id];
    var teams := IdsOf(grants, Team);
    var organizations := IdsOf(grants, Organization);
    var organizationTeams := ActiveTeamsOf(a, organizations);
    || (exists g :: g in grants && Universal(g))
    || id in IdsOf(grants, CampaignScope)
    || OwnedBy(c, Team, teams) || LinkedTo(c, teams, now)
    || OwnedBy(c, Organization, organizations)
    || OwnedBy(c, Team, organizationTeams) || LinkedTo(c, organizationTeams, now)
  }

  predicate HasCampaign(a: Authority, now: int, u: Uuid, cap: Capability, id: Uuid) {
    id in a.campaigns && CampaignFilter(a, now, GrantScopes(a, now, u, cap), id)
  }

  predicate HasCampaignViaRole(a: Authority, now: int, u: Uuid, cap: Capability, id: Uuid) {
    id in a.campaigns && CampaignFilter(a, now, RoleScopes(a, now, u, cap), id)
  }

  /** The filter lets a campaign through iff a single grant does. */
  lemma {:induction false} FilterIsPerGrant(a: Authority, now: int, grants: set<Scope>, id: Uuid)
    requires id in a.campaigns
    ensures CampaignFilter(a, now, grants, id) <==> exists g :: g in grants && CampaignFilter(a, now, {g}, id)
  {
    var c := a.campaigns[id];
    var organizationTeams := ActiveTeamsOf(a, IdsOf(grants, Organization));
    if exists g :: g in grants && CampaignFilter(a, now, {g}, id) {
      var g :| g in grants && CampaignFilter(a, now, {g}, id);
      FilterIsMonotone(a, now, {g}, grants, id);
    }
    if CampaignFilter(a, now, grants, id) {
      var g :| g in grants && (
        || Universal(g) || g == Scope(CampaignScope, Some(id))
        || (g.kind == Team && g.id.Some? && (OwnedBy(c, Team, {g.id.value}) || LinkedTo(c, {g.id.value}, now)))
        || (g.kind == Organization && g.id.Some? &&
            var ts := ActiveTeamsOf(a, {g.id.value});
            OwnedBy(c, Organization, {g.id.value}) || OwnedBy(c, Team, ts) || LinkedTo(c, ts, now)));
      assert g.id.Some? ==> IdsOf({g}, g.kind) == {g.id.value};
      assert CampaignFilter(a, now, {g}, id);
    }
  }

  lemma {:induction false} FilterIsMonotone(a: Authority, now: int, grants: set<Scope>, more: set<Scope>, id: Uuid)
    requires id in a.campaigns && grants <= more && CampaignFilter(a, now, grants, id)
    ensures CampaignFilter(a, now, more, id)
  {
    forall kind ensures IdsOf(grants, kind) <= IdsOf(more, kind) {
    }
    assert ActiveTeamsOf(a, IdsOf(grants, Organization)) <= ActiveTeamsOf(a, IdsOf(more, Organization));
  }

  // ------------------------------------------------ delegation never enlarges

  /** Whatever a user may do at a scope, the user or one current delegator may do there
      through a role of their own. */
  lemma {:induction false} DelegationNeverEnlargesScope(a: Authority, now: int, u: Uuid, cap: Capability, t: Scope)
    ensures HasScope(a, now, u, cap, t) <==>
            || HasScopeViaRole(a, now, u, cap, t)
            || exists d :: Lends(a, now, d, u, cap) && CoversTarget(a, d.scope, t)
                           && HasScopeViaRole(a, now, d.delegator, cap, t)
  {
    if HasScope(a, now, u, cap, t) && !HasScopeViaRole(a, now, u, cap, t) {
      var g :| g in GrantScopes(a, now, u, cap) && CoversTarget(a, g, t);
      var d :| d in a.delegations && Lends(a, now, d, u, cap) && d.scope == g;
      var h :| h in RoleScopes(a, now, d.delegator, cap) && CoversTarget(a, h, d.scope);
      CoverIsTransitive(a, h, g, t);
    }
  }

  /** A grant that covers another one sees every campaign the other one sees. */
  lemma {:induction false} CoverWidensVisibility(a: Authority, now: int, g: Scope, h: Scope, id: Uuid)
    requires id in a.campaigns && CoversTarget(a, g, h) && CampaignFilter(a, now, {h}, id)
    ensures CampaignFilter(a, now, {g}, id)
  {
    assert IdsOf({h}, h.kind) == if h.id.Some? then {h.id.value} else {};
    assert IdsOf({g}, g.kind) == if g.id.Some? then {g.id.value} else {};
    assert g in {g};
    if g != h && !Universal(g) {
      assert g.kind == Organization && h.kind == Team && h.id.value in ActiveTeamsOf(a, IdsOf({g}, Organization));
    }
  }

  /** Whatever campaign a user sees, the user or one current delegator sees through a role
      of their own. */
  lemma {:induction false} DelegationNeverEnlargesVisibility(a: Authority, now: int, u: Uuid, cap: Capability, id: Uuid)
    requires HasCampaign(a, now, u, cap, id)
    ensures || HasCampaignViaRole(a, now, u, cap, id)
            || exists d :: Lends(a, now, d, u, cap) && HasCampaignViaRole(a, now, d.delegator, cap, id)
  {
    var grants := GrantScopes(a, now, u, cap);
    FilterIsPerGrant(a, now, grants, id);
    var g :| g in grants && CampaignFilter(a, now, {g}, id);
    if g in RoleScopes(a, now, u, cap) {
      FilterIsMonotone(a, now, {g}, RoleScopes(a, now, u, cap), id);
    } else {
      var d :| d in a.delegations && Lends(a, now, d, u, cap) && d.scope == g;
      var h :| h in RoleScopes(a, now, d.delegator, cap) && CoversTarget(a, h, d.scope);
      CoverWidensVisibility(a, now, h, g, id);
      FilterIsMonotone(a, now, {h}, RoleScopes(a, now, d.delegator, cap), id);
    }
  }
}
