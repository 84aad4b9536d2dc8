/** Whom a role reaches, in terms of the role rows, teams and campaigns themselves. */
module ScopeReach {
  import opened Basics
  import opened Tables
  import opened Capabilities
  import opened Authz

  /** A role row of the user that counts now and grants the capability. */
  predicate Grants(a: Authority, k: nat, now: int, u: Uuid, cap: Capability) {
    && k < |a.roles| && a.roles[k].key.user == u && cap in RoleCapabilities(a.roles[k].key.role)
    && a.roles[k].active && a.roles[k].since <= now && (a.roles[k].until.None? || now < a.roles[k].until.value)
  }

  /** The installation, or the organization level without an id. */
  predicate Everywhere(g: Scope) {
    g.kind == Installation || (g.kind == Organization && g.id.None?)
  }

  /** The scope is an organization to which the active team belongs. */
  predicate OrganizationOf(a: Authority, g: Scope, team: Uuid) {
    g.kind == Organization && g.id.Some? && team in a.teams && a.teams[team].active && a.teams[team].org == g.id.value
  }

  /** A grant at `g` is one at the installation, at the organization level without an id, at the
      target itself, or, for a team, at the organization the active team belongs to. */
  predicate Reaches(a: Authority, g: Scope, t: Scope) {
    Everywhere(g) || g == t || (t.kind == Team && t.id.Some? && OrganizationOf(a, g, t.id.value))
  }

  lemma {:induction false} CoverIsReach(a: Authority, g: Scope, t: Scope)
    ensures CoversTarget(a, g, t) <==> Reaches(a, g, t)
  {
  }

  /** Some role row of the user grants the capability at the scope. */
  lemma {:induction false} RoleRowOf(a: Authority, now: int, u: Uuid, cap: Capability, g: Scope)
    ensures g in RoleScopes(a, now, u, cap) <==> exists k: nat :: Grants(a, k, now, u, cap) && a.roles[k].key.scope == g
  {
    if g in RoleScopes(a, now, u, cap) {
      var r: RoleRow :| r in a.roles && Effective(r, now) && r.key.user == u && cap in RoleCapabilities(r.key.role)
                        && r.key.scope == g;
      var k :| 0 <= k < |a.roles| && a.roles[k] == r;
      assert Grants(a, k, now, u, cap);
    }
    if k: nat :| Grants(a, k, now, u, cap) && a.roles[k].key.scope == g {
      assert a.roles[k] in a.roles;
    }
  }

  predicate RoleRowReaches(a: Authority, now: int, u: Uuid, cap: Capability, t: Scope) {
    exists k: nat :: k < |a.roles| && Grants(a, k, now, u, cap) && Reaches(a, a.roles[k].key.scope, t)
  }

  /** A user holds a capability at a target by role iff one of their role rows that grants it
      reaches the target. */
  lemma {:induction false} RoleReaches(a: Authority, now: int, u: Uuid, cap: Capability, t: Scope)
    ensures HasScopeViaRole(a, now, u, cap, t) <==> RoleRowReaches(a, now, u, cap, t)
  {
    if g :| g in RoleScopes(a, now, u, cap) && CoversTarget(a, g, t) {
      RoleRowOf(a, now, u, cap, g);
      CoverIsReach(a, g, t);
    }
    forall k: nat | Grants(a, k, now, u, cap) && Reaches(a, a.roles[k].key.scope, t)
      ensures HasScopeViaRole(a, now, u, cap, t)
    {
      RoleRowOf(a, now, u, cap, a.roles[k].key.scope);
      CoverIsReach(a, a.roles[k].key.scope, t);
    }
  }

  // ------------------------------------------------------------------ by delegation

  /** A row that lends the user the capability now: not withdrawn, in its window, and of a
      delegator one of whose own role rows still reaches the row's scope. */
  predicate LentBy(a: Authority, j: nat, now: int, u: Uuid, cap: Capability) {
    && j < |a.delegations|
    && var d := a.delegations[j];
       && d.delegate == u && cap in d.caps && d.revokedAt.None?
       && d.since <= now && (d.until.None? || now < d.until.value)
       && RoleRowReaches(a, now, d.delegator, cap, d.scope)
  }

  lemma {:induction false} LentScope(a: Authority, now: int, u: Uuid, cap: Capability, g: Scope)
    ensures g in DelegatedScopes(a, now, u, cap) <==>
              exists j: nat :: LentBy(a, j, now, u, cap) && a.delegations[j].scope == g
  {
    if g in DelegatedScopes(a, now, u, cap) {
      var d :| d in a.delegations && Lends(a, now, d, u, cap) && d.scope == g;
      var j: nat :| j < |a.delegations| && a.delegations[j] == d;
      LentIsLends(a, j, now, u, cap);
    }
    if j: nat :| LentBy(a, j, now, u, cap) && a.delegations[j].scope == g {
      LentIsLends(a, j, now, u, cap);
    }
  }

  lemma {:induction false} LentIsLends(a: Authority, j: nat, now: int, u: Uuid, cap: Capability)
    requires j < |a.delegations|
    ensures LentBy(a, j, now, u, cap) <==> Lends(a, now, a.delegations[j], u, cap)
  {
    RoleReaches(a, now, a.delegations[j].delegator, cap, a.delegations[j].scope);
  }

  /** A user holds a capability at a target iff a role row of theirs reaches it, or a row that
      lends it to them does. */
  lemma {:induction false} HeldIff(a: Authority, now: int, u: Uuid, cap: Capability, t: Scope)
    ensures HasScope(a, now, u, cap, t) <==>
            || RoleRowReaches(a, now, u, cap, t)
            || (exists j: nat :: LentBy(a, j, now, u, cap) && Reaches(a, a.delegations[j].scope, t))
  {
    RoleReaches(a, now, u, cap, t);
    if g :| g in DelegatedScopes(a, now, u, cap) && CoversTarget(a, g, t) {
      LentScope(a, now, u, cap, g);
      CoverIsReach(a, g, t);
    }
    forall j: nat | LentBy(a, j, now, u, cap) && Reaches(a, a.delegations[j].scope, t)
      ensures HasScope(a, now, u, cap, t)
    {
      LentScope(a, now, u, cap, a.delegations[j].scope);
      CoverIsReach(a, a.delegations[j].scope, t);
    }
  }

  // --------------------------------------------------------------------- campaigns

  /** The team owns the campaign or is linked to it now. */
  predicate WorksOn(a: Authority, now: int, id: Uuid, team: Uuid)
    requires id in a.campaigns
  {
    var c := a.campaigns[id];
    || (c.ownerKind == Team && c.ownerId == Some(team))
    || exists k :: 0 <= k < |c.links| && c.links[k].team == team && c.links[k].active && c.links[k].since <= now
                   && (c.links[k].until.None? || now < c.links[k].until.value)
  }

  /** A grant at `g` shows the campaign: one that reaches everything, one at the campaign, at a
      team that owns it or is linked to it now, at an organization that owns it, or at the
      organization of such a team while that is active. */
  predicate Shows(a: Authority, now: int, g: Scope, id: Uuid)
    requires id in a.campaigns
  {
    || Everywhere(g) || g == Scope(CampaignScope, Some(id))
    || (g.kind == Team && g.id.Some? && WorksOn(a, now, id, g.id.value))
    || (g.kind == Organization && g.id.Some? &&
        ((a.campaigns[id].ownerKind == Organization && a.campaigns[id].ownerId == g.id)
         || exists team :: OrganizationOf(a, g, team) && WorksOn(a, now, id, team)))
  }

  lemma {:induction false} FilterShows(a: Authority, now: int, g: Scope, id: Uuid)
    requires id in a.campaigns
    ensures CampaignFilter(a, now, {g}, id) <==> Shows(a, now, g, id)
  {
    assert g.id.Some? ==> IdsOf({g}, g.kind) == {g.id.value};
    forall team ensures WorksOn(a, now, id, team) <==>
        OwnedBy(a.campaigns[id], Team, {team}) || LinkedTo(a.campaigns[id], {team}, now) {
      LinkedIs(a.campaigns[id], team, now);
    }
    if g.kind == Organization && g.id.Some? {
      TeamsShow(a, now, g, id);
    }
  }

  lemma {:induction false} LinkedIs(c: CampaignInfo, team: Uuid, now: int)
    ensures LinkedTo(c, {team}, now) <==>
              exists k :: 0 <= k < |c.links| && c.links[k].team == team && c.links[k].active && c.links[k].since <= now
                          && (c.links[k].until.None? || now < c.links[k].until.value)
  {
    if l :| l in c.links && LinkActive(l, now) && l.team == team {
      var k :| 0 <= k < |c.links| && c.links[k] == l;
    }
  }

  lemma {:induction false} TeamsShow(a: Authority, now: int, g: Scope, id: Uuid)
    requires id in a.campaigns && g.kind == Organization && g.id.Some?
    requires forall team :: WorksOn(a, now, id, team) <==>
               OwnedBy(a.campaigns[id], Team, {team}) || LinkedTo(a.campaigns[id], {team}, now)
    ensures var teams := ActiveTeamsOf(a, {g.id.value});
            OwnedBy(a.campaigns[id], Team, teams) || LinkedTo(a.campaigns[id], teams, now) <==>
              exists team :: OrganizationOf(a, g, team) && WorksOn(a, now, id, team)
  {
    var c, teams := a.campaigns[id], ActiveTeamsOf(a, {g.id.value});
    assert forall team :: team in teams <==> OrganizationOf(a, g, team);
    if OwnedBy(c, Team, teams) {
      assert WorksOn(a, now, id, c.ownerId.value);
    }
    if l :| l in c.links && LinkActive(l, now) && l.team in teams {
      assert LinkedTo(c, {l.team}, now);
    }
  }

  /** A user sees a campaign by role iff it exists and one of their role rows that grants the
      capability shows it. */
  lemma {:induction false} SeenByRoleIff(a: Authority, now: int, u: Uuid, cap: Capability, id: Uuid)
    requires id in a.campaigns
    ensures HasCampaignViaRole(a, now, u, cap, id) <==>
              exists k: nat :: Grants(a, k, now, u, cap) && Shows(a, now, a.roles[k].key.scope, id)
  {
    FilterIsPerGrant(a, now, RoleScopes(a, now, u, cap), id);
    if g :| g in RoleScopes(a, now, u, cap) && CampaignFilter(a, now, {g}, id) {
      RoleRowOf(a, now, u, cap, g);
      FilterShows(a, now, g, id);
    }
    if k: nat :| Grants(a, k, now, u, cap) && Shows(a, now, a.roles[k].key.scope, id) {
      RoleRowOf(a, now, u, cap, a.roles[k].key.scope);
      FilterShows(a, now, a.roles[k].key.scope, id);
    }
  }

  lemma {:induction false} LentShows(a: Authority, now: int, u: Uuid, cap: Capability, id: Uuid)
    requires id in a.campaigns
    ensures (exists g :: g in DelegatedScopes(a, now, u, cap) && CampaignFilter(a, now, {g}, id)) <==>
              exists j: nat :: LentBy(a, j, now, u, cap) && Shows(a, now, a.delegations[j].scope, id)
  {
    if g :| g in DelegatedScopes(a, now, u, cap) && CampaignFilter(a, now, {g}, id) {
      LentScope(a, now, u, cap, g);
      FilterShows(a, now, g, id);
    }
    if j: nat :| LentBy(a, j, now, u, cap) && Shows(a, now, a.delegations[j].scope, id) {
      LentScope(a, now, u, cap, a.delegations[j].scope);
      FilterShows(a, now, a.delegations[j].scope, id);
    }
  }

  /** With delegations, a user sees it iff a role row of theirs shows it, or a row that lends the
      capability to them does. */
  lemma {:induction false} SeenIff(a: Authority, now: int, u: Uuid, cap: Capability, id: Uuid)
    requires id in a.campaigns
    ensures HasCampaign(a, now, u, cap, id) <==>
            || HasCampaignViaRole(a, now, u, cap, id)
            || exists j: nat :: LentBy(a, j, now, u, cap) && Shows(a, now, a.delegations[j].scope, id)
  {
    FilterIsPerGrant(a, now, RoleScopes(a, now, u, cap), id);
    FilterIsPerGrant(a, now, GrantScopes(a, now, u, cap), id);
    LentShows(a, now, u, cap, id);
  }
}
