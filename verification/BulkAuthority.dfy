/** The bulk and reverse authorization queries, each equal to the single check they replace. */
module BulkAuthority {
  import opened Basics
  import opened Tables
  import opened Capabilities
  import opened Authz

  const CHUNK := 1000

  function Prefix<T>(s: seq<T>, n: nat): set<T>
    requires n <= |s|
  {
    set x | x in s[..n]
  }

  lemma {:induction false} PrefixGrows<T>(s: seq<T>, i: nat, j: nat)
    requires i <= j <= |s|
    ensures Prefix(s, j) == Prefix(s, i) + (set x | x in s[i..j])
  {
    assert s[..j] == s[..i] + s[i..j];
  }

  /** The organizations of every active team the requests name, fetched in chunks. */
  method ResolveAncestry(a: Authority, requests: seq<Scope>) returns (orgs: map<Uuid, Uuid>, ghost resolved: set<Uuid>)
    ensures orgs == TeamOrganizations(a, resolved)
    ensures forall t :: t in requests && t.kind == Team && t.id.Some? ==> t.id.value in resolved
  {
    var teamIds: seq<Uuid> := [];
    for k := 0 to |requests|
      invariant forall t :: t in requests[..k] && t.kind == Team && t.id.Some? ==> t.id.value in teamIds
    {
      if requests[k].kind == Team && requests[k].id.Some? {
        teamIds := teamIds + [requests[k].id.value];
      }
      assert requests[..k + 1] == requests[..k] + [requests[k]];
    }
    assert requests[..|requests|] == requests;
    orgs := map[];
    var i := 0;
    while i < |teamIds|
      invariant 0 <= i <= |teamIds|
      invariant orgs == TeamOrganizations(a, Prefix(teamIds, i))
    {
      var j := if i + CHUNK < |teamIds| then i + CHUNK else |teamIds|;
      PrefixGrows(teamIds, i, j);
      orgs := orgs + TeamOrganizations(a, set x | x in teamIds[i..j]);
      i := j;
    }
    resolved := Prefix(teamIds, i);
    assert teamIds[..i] == teamIds;
  }

  predicate CoveredBySome(grants: set<Scope>, t: Scope, orgs: map<Uuid, Uuid>) {
    exists g :: g in grants && Covers(g, t, orgs)
  }

  lemma {:induction false} CoveredIsHeld(a: Authority, now: int, u: Uuid, cap: Capability, t: Scope, ids: set<Uuid>)
    requires forall g :: g in GrantScopes(a, now, u, cap) && OfOneOrganization(g) && t.kind == Team && t.id.Some? ==>
               t.id.value in ids
    ensures CoveredBySome(GrantScopes(a, now, u, cap), t, TeamOrganizations(a, ids)) <==> HasScope(a, now, u, cap, t)
  {
    forall g | g in GrantScopes(a, now, u, cap)
      ensures Covers(g, t, TeamOrganizations(a, ids)) <==> CoversTarget(a, g, t)
    {
      AncestryOfMoreTeams(a, g, t, ids);
    }
  }

  /** The subset of requested scopes the user holds a capability at, resolved with one
      chunked ancestry query; equal to asking `HasScope` for each request. */
  method ScopesMatched(a: Authority, now: int, u: Uuid, cap: Capability, requests: seq<Scope>)
    returns (matched: set<Scope>)
    ensures matched == set t | t in requests && HasScope(a, now, u, cap, t)
  {
    var grants := GrantScopes(a, now, u, cap);
    if requests == [] || grants == {} {
      return {};
    }
    var orgs: map<Uuid, Uuid> := map[];
    ghost var resolved: set<Uuid> := {};
    if exists g :: g in grants && OfOneOrganization(g) {
      orgs, resolved := ResolveAncestry(a, requests);
    }
    assert orgs == TeamOrganizations(a, resolved);
    AllCovered(a, now, u, cap, requests, resolved);
    matched := set t | t in requests && CoveredBySome(grants, t, orgs);
  }

  predicate OfOneOrganization(g: Scope) {
    g.kind == Organization && g.id.Some?
  }

  lemma {:induction false} AllCovered(a: Authority, now: int, u: Uuid, cap: Capability, requests: seq<Scope>,
                                      ids: set<Uuid>)
    requires (exists g :: g in GrantScopes(a, now, u, cap) && OfOneOrganization(g)) ==>
               forall t :: t in requests && t.kind == Team && t.id.Some? ==> t.id.value in ids
    ensures (set t | t in requests && CoveredBySome(GrantScopes(a, now, u, cap), t, TeamOrganizations(a, ids))) ==
            set t | t in requests && HasScope(a, now, u, cap, t)
  {
    forall t | t in requests
      ensures CoveredBySome(GrantScopes(a, now, u, cap), t, TeamOrganizations(a, ids)) <==> HasScope(a, now, u, cap, t)
    {
      CoveredIsHeld(a, now, u, cap, t, ids);
    }
  }

  /** The subset of the given campaigns the user holds a capability over. */
  method CampaignsMatched(a: Authority, now: int, u: Uuid, cap: Capability, ids: seq<Uuid>)
    returns (matched: set<Uuid>)
    ensures forall id :: id in matched <==> id in ids && HasCampaign(a, now, u, cap, id)
  {
    matched := {};
    var grants := GrantScopes(a, now, u, cap);
    var i := 0;
    while i < |ids|
      invariant 0 <= i <= |ids|
      invariant forall id :: id in matched <==> id in ids[..i] && HasCampaign(a, now, u, cap, id)
    {
      var j := if i + CHUNK < |ids| then i + CHUNK else |ids|;
      assert ids[..j] == ids[..i] + ids[i..j];
      matched := matched + set id | id in ids[i..j] && id in a.campaigns && CampaignFilter(a, now, grants, id);
      i := j;
    }
    assert ids[..i] == ids;
  }

  /** The user holds one of the capabilities, whatever the scope. */
  predicate HoldsAny(a: Authority, now: int, wanted: set<Capability>, u: Uuid) {
    exists c :: c in wanted && HasAssigned(a, now, u, c)
  }

  predicate LendsAny(a: Authority, now: int, d: Delegation, wanted: set<Capability>, u: Uuid) {
    exists c :: c in wanted && Lends(a, now, d, u, c)
  }

  /** One of the first `n` delegations lends the user one of the capabilities. */
  predicate LentAny(a: Authority, now: int, wanted: set<Capability>, u: Uuid, n: nat)
    requires n <= |a.delegations|
  {
    exists j :: 0 <= j < n && LendsAny(a, now, a.delegations[j], wanted, u)
  }

  lemma {:induction false} LentOneMore(a: Authority, now: int, wanted: set<Capability>, u: Uuid, n: nat)
    requires n < |a.delegations|
    ensures LentAny(a, now, wanted, u, n + 1) <==>
            LentAny(a, now, wanted, u, n) || LendsAny(a, now, a.delegations[n], wanted, u)
  {
    if LentAny(a, now, wanted, u, n) {
      var j :| 0 <= j < n && LendsAny(a, now, a.delegations[j], wanted, u);
      assert j < n + 1;
    }
  }

  /** Every user who holds at least one of the capabilities by role or running delegation. */
  method UsersWithAny(a: Authority, now: int, wanted: set<Capability>) returns (users: set<Uuid>)
    ensures forall u :: u in users <==> HoldsAny(a, now, wanted, u)
  {
    users := UsersByRole(a, now, wanted);
    for i := 0 to |a.delegations|
      invariant forall u :: u in users <==> u in UsersByRole(a, now, wanted) || LentAny(a, now, wanted, u, i)
    {
      var d := a.delegations[i];
      var lends := Running(d, now) && exists c :: c in wanted && c in d.caps && StillBacked(a, now, d, c);
      assert forall u :: LendsAny(a, now, d, wanted, u) <==> lends && u == d.delegate;
      forall u ensures LentAny(a, now, wanted, u, i + 1) <==>
          LentAny(a, now, wanted, u, i) || (lends && u == d.delegate) {
        LentOneMore(a, now, wanted, u, i);
      }
      if lends {
        users := users + {d.delegate};
      }
    }
    forall u ensures u in users <==> HoldsAny(a, now, wanted, u) {
      HoldersAre(a, now, wanted, u);
    }
  }

  function UsersByRole(a: Authority, now: int, wanted: set<Capability>): set<Uuid> {
    set r: RoleRow | r in a.roles && Effective(r, now) && RoleCapabilities(r.key.role) * wanted != {} :: r.key.user
  }

  lemma {:induction false} HoldersAre(a: Authority, now: int, wanted: set<Capability>, u: Uuid)
    ensures HoldsAny(a, now, wanted, u) <==>
            u in UsersByRole(a, now, wanted) || LentAny(a, now, wanted, u, |a.delegations|)
  {
    if HoldsAny(a, now, wanted, u) {
      var c :| c in wanted && HasAssigned(a, now, u, c);
      var g :| g in GrantScopes(a, now, u, c);
      if g in RoleScopes(a, now, u, c) {
        var r: RoleRow :| r in a.roles && Effective(r, now) && r.key.user == u && c in RoleCapabilities(r.key.role);
        assert c in RoleCapabilities(r.key.role) * wanted;
      } else {
        var d :| d in a.delegations && Lends(a, now, d, u, c);
        var j :| 0 <= j < |a.delegations| && a.delegations[j] == d;
      }
    }
    if u in UsersByRole(a, now, wanted) {
      var r: RoleRow :| r in a.roles && Effective(r, now) && RoleCapabilities(r.key.role) * wanted != {}
          && r.key.user == u;
      var c :| c in RoleCapabilities(r.key.role) * wanted;
      assert r.key.scope in RoleScopes(a, now, u, c);
    }
    if LentAny(a, now, wanted, u, |a.delegations|) {
      var j :| 0 <= j < |a.delegations| && LendsAny(a, now, a.delegations[j], wanted, u);
      var c :| c in wanted && Lends(a, now, a.delegations[j], u, c);
      assert a.delegations[j].scope in DelegatedScopes(a, now, u, c);
    }
  }

  // ------------------------------------------------- managing a user, one or many

  function RolesOf(a: Authority, now: int, u: Uuid): set<RoleKey> {
    set r: RoleRow | r in a.roles && Effective(r, now) && r.key.user == u :: r.key
  }

  predicate HoldsAnyAppointment(a: Authority, now: int, u: Uuid) {
    HoldsAny(a, now, APPOINTMENT_CAPABILITIES, u)
  }

  /** The manual screens' rule: the actor could have appointed the target into one of the
      target's current roles, or the target has no role yet and the actor appoints at all. */
  predicate CanManage(a: Authority, now: int, actor: Uuid, target: Uuid) {
    var roles := RolesOf(a, now, target);
    if roles == {} then HoldsAnyAppointment(a, now, actor)
    else
      exists k :: k in roles && Appointment(k.role).Some? && HasScope(a, now, actor, Appointment(k.role).value, k.scope)
  }

  datatype ScopeTuple = ScopeTuple(cap: Capability, scope: Scope)

  /** Which of the asked-for targets, scopes and campaigns the actor is authorized for. */
  datatype Satisfied = Satisfied(targets: set<Uuid>, scopes: set<ScopeTuple>, campaigns: set<Uuid>)

  /** What the single checks answer for the same sets. */
  function SatisfiedOneByOne(a: Authority, now: int, actor: Uuid,
                             targets: set<Uuid>, scopes: set<ScopeTuple>, campaigns: set<Uuid>): Satisfied
  {
    Satisfied(
      set t | t in targets && CanManage(a, now, actor, t),
      set s | s in scopes && HasScope(a, now, actor, s.cap, s.scope),
      set c | c in campaigns && HasCampaign(a, now, actor, AssignCampaignAgent, c))
  }

  /** The current roles of every target, fetched in chunks. */
  method RolesById(a: Authority, now: int, targets: seq<Uuid>) returns (rolesById: map<Uuid, set<RoleKey>>)
    ensures rolesById == map t | t in targets :: RolesOf(a, now, t)
  {
    rolesById := map[];
    var i := 0;
    while i < |targets|
      invariant 0 <= i <= |targets|
      invariant rolesById == map t | t in Prefix(targets, i) :: RolesOf(a, now, t)
    {
      var j := if i + CHUNK < |targets| then i + CHUNK else |targets|;
      PrefixGrows(targets, i, j);
      rolesById := rolesById + map t | t in targets[i..j] :: RolesOf(a, now, t);
      i := j;
    }
    assert targets[..i] == targets;
  }

  /** The asked-for scopes and those of every target's appointable roles. */
  method WantedScopes(a: Authority, now: int, targets: seq<Uuid>, scopes: seq<ScopeTuple>,
                      rolesById: map<Uuid, set<RoleKey>>)
    returns (wanted: seq<ScopeTuple>)
    requires rolesById == map t | t in targets :: RolesOf(a, now, t)
    ensures forall s :: s in scopes ==> s in wanted
    ensures forall t, key :: t in targets && key in RolesOf(a, now, t) && Appointment(key.role).Some? ==>
              ScopeTuple(Appointment(key.role).value, key.scope) in wanted
  {
    wanted := scopes;
    for k := 0 to |targets|
      invariant forall s :: s in scopes ==> s in wanted
      invariant forall t, key :: t in targets[..k] && key in RolesOf(a, now, t) && Appointment(key.role).Some? ==>
                  ScopeTuple(Appointment(key.role).value, key.scope) in wanted
    {
      wanted := AddRoleScopes(wanted, rolesById[targets[k]]);
      assert targets[..k + 1] == targets[..k] + [targets[k]];
    }
    assert targets[..|targets|] == targets;
  }

  /** Resolve every distinct target, scope and campaign of a batch at once: the roles of all
      targets in chunks, the scopes those roles occupy together with the directly required
      ones, one bulk scope query per capability, one campaign query, one fallback. */
  method SatisfiedAuthority(a: Authority, now: int, actor: Uuid,
                            targets: seq<Uuid>, scopes: seq<ScopeTuple>, campaigns: seq<Uuid>)
    returns (r: Satisfied)
    ensures r == SatisfiedOneByOne(a, now, actor, set t | t in targets, set s | s in scopes, set c | c in campaigns)
  {
    var rolesById: map<Uuid, set<RoleKey>> := RolesById(a, now, targets);
    var wanted := WantedScopes(a, now, targets, scopes, rolesById);
    var held := ScopesByCapability(a, now, actor, wanted);
    var matchedCampaigns := CampaignsMatched(a, now, actor, AssignCampaignAgent, campaigns);
    var fallback := (exists t :: t in targets && rolesById[t] == {}) && HoldsAnyAppointment(a, now, actor);

    forall t | t in targets ensures TargetOk(rolesById[t], held, fallback) <==> CanManage(a, now, actor, t) {
      TargetDecided(a, now, actor, t, wanted, held, fallback);
    }
    r := Satisfied(set t | t in targets && TargetOk(rolesById[t], held, fallback),
                   set s | s in scopes && s in held, set c | c in campaigns && c in matchedCampaigns);
    assert r.campaigns == set c | c in campaigns && HasCampaign(a, now, actor, AssignCampaignAgent, c);
  }

  /** One target decided from its roles and the scopes the actor was found to hold. */
  predicate TargetOk(roles: set<RoleKey>, held: set<ScopeTuple>, fallback: bool) {
    if roles == {} then fallback
    else
      exists k :: k in roles && Appointment(k.role).Some? && ScopeTuple(Appointment(k.role).value, k.scope) in held
  }

  lemma {:induction false} TargetDecided(a: Authority, now: int, actor: Uuid, t: Uuid, wanted: seq<ScopeTuple>,
                                         held: set<ScopeTuple>, fallback: bool)
    requires held == set s | s in wanted && HasScope(a, now, actor, s.cap, s.scope)
    requires forall key :: key in RolesOf(a, now, t) && Appointment(key.role).Some? ==>
               ScopeTuple(Appointment(key.role).value, key.scope) in wanted
    requires RolesOf(a, now, t) == {} ==> (fallback <==> HoldsAnyAppointment(a, now, actor))
    ensures TargetOk(RolesOf(a, now, t), held, fallback) <==> CanManage(a, now, actor, t)
  {
    forall k | k in RolesOf(a, now, t) && Appointment(k.role).Some?
      ensures ScopeTuple(Appointment(k.role).value, k.scope) in held <==>
              HasScope(a, now, actor, Appointment(k.role).value, k.scope)
    {
    }
  }

  /** Add the scopes of one target's appointable roles to the scopes to resolve. */
  method AddRoleScopes(wanted: seq<ScopeTuple>, keys: set<RoleKey>) returns (more: seq<ScopeTuple>)
    ensures forall s :: s in wanted ==> s in more
    ensures forall key :: key in keys && Appointment(key.role).Some?
                          ==> ScopeTuple(Appointment(key.role).value, key.scope) in more
  {
    more := wanted;
    var rest := keys;
    while rest != {}
      invariant rest <= keys
      invariant forall s :: s in wanted ==> s in more
      invariant forall key :: key in keys - rest && Appointment(key.role).Some?
                              ==> ScopeTuple(Appointment(key.role).value, key.scope) in more
    {
      var key :| key in rest;
      rest := rest - {key};
      if Appointment(key.role).Some? {
        more := more + [ScopeTuple(Appointment(key.role).value, key.scope)];
      }
    }
  }

  /** The required scopes the actor covers, asked capability by capability. */
  method ScopesByCapability(a: Authority, now: int, actor: Uuid, wanted: seq<ScopeTuple>)
    returns (held: set<ScopeTuple>)
    ensures held == set s | s in wanted && HasScope(a, now, actor, s.cap, s.scope)
  {
    held := {};
    var caps := set s | s in wanted :: s.cap;
    var rest := caps;
    while rest != {}
      invariant rest <= caps
      invariant held == set s | s in wanted && s.cap in caps - rest && HasScope(a, now, actor, s.cap, s.scope)
    {
      var cap :| cap in rest;
      var requests := ScopesFor(wanted, cap);
      var matched := ScopesMatched(a, now, actor, cap, requests);
      held := held + set s | s in wanted && s.cap == cap && s.scope in matched;
      rest := rest - {cap};
    }
  }

  function ScopesFor(wanted: seq<ScopeTuple>, cap: Capability): (r: seq<Scope>)
    ensures forall t :: t in r <==> ScopeTuple(cap, t) in wanted
  {
    if wanted == [] then []
    else
      var rest := ScopesFor(wanted[1..], cap);
      assert wanted == [wanted[0]] + wanted[1..];
      if wanted[0].cap == cap then [wanted[0].scope] + rest else rest
  }
}
