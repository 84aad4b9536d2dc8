/** Granting and revoking delegations, and what no run of such operations can bring about. */
module Delegations {
  import opened Basics
  import opened Tables
  import opened Capabilities
  import opened Authz

  datatype Request = Request(
    delegator: Uuid, delegate: Uuid, caps: seq<Capability>, scope: Scope, since: int, until: Option<int>)

  datatype DelegationError =
    | SelfDelegation
    | UnknownScopeType
    | MissingScopeId
    | NoCapabilities
    | UnknownCapabilities
    | NonDelegable
    | InvalidWindow
    | InsufficientAuthority
    | NotFound
    | NotAuthorizedToRevoke

  /** The first guard a request fails, in the order the guards are tried. */
  function Refusal(a: Authority, now: int, q: Request): Option<DelegationError> {
    var caps := Distinct(q.caps);
    if q.delegate == q.delegator then Some(SelfDelegation)
    else if q.scope.kind.OtherScope? then Some(UnknownScopeType)
    else if q.scope.kind in {Team, CampaignScope} && q.scope.id.None? then Some(MissingScopeId)
    else if caps == [] then Some(NoCapabilities)
    else if exists c :: c in caps && c !in ALL_CAPABILITIES then Some(UnknownCapabilities)
    else if exists c :: c in caps && c in NON_DELEGABLE then Some(NonDelegable)
    else if q.until.Some? && q.until.value <= q.since then Some(InvalidWindow)
    else if exists c :: c in caps && !HasScopeViaRole(a, now, q.delegator, c, q.scope) then Some(InsufficientAuthority)
    else None
  }

  function Granting(q: Request): Delegation {
    Delegation(q.delegator, q.delegate, Distinct(q.caps), q.scope, q.since, q.until, None)
  }

  function Create(a: Authority, now: int, q: Request): Result<Authority, DelegationError> {
    var refusal := Refusal(a, now, q);
    if refusal.Some? then Err(refusal.value)
    else Ok(a.(delegations := a.delegations + [Granting(q)]))
  }

  function Revoke(a: Authority, now: int, i: nat, actor: Uuid): Result<Authority, DelegationError> {
    if i >= |a.delegations| then Err(NotFound)
    else
      var d := a.delegations[i];
      if d.delegator != actor then Err(NotAuthorizedToRevoke)
      else if d.revokedAt.Some? then Ok(a)
      else Ok(a.(delegations := a.delegations[i := d.(revokedAt := Some(now))]))
  }

  /** What is wrong with any of the capabilities. */
  method CheckEach(a: Authority, now: int, u: Uuid, caps: seq<Capability>, scope: Scope)
    returns (unknown: bool, forbidden: bool, lacking: bool)
    ensures unknown <==> exists c :: c in caps && c !in ALL_CAPABILITIES
    ensures forbidden <==> exists c :: c in caps && c in NON_DELEGABLE
    ensures lacking <==> exists c :: c in caps && !HasScopeViaRole(a, now, u, c, scope)
  {
    unknown, forbidden, lacking := false, false, false;
    var i := 0;
    while i < |caps|
      invariant 0 <= i <= |caps|
      invariant unknown <==> exists c :: c in caps[..i] && c !in ALL_CAPABILITIES
      invariant forbidden <==> exists c :: c in caps[..i] && c in NON_DELEGABLE
      invariant lacking <==> exists c :: c in caps[..i] && !HasScopeViaRole(a, now, u, c, scope)
    {
      assert caps[..i + 1] == caps[..i] + [caps[i]];
      unknown := unknown || caps[i] !in ALL_CAPABILITIES;
      forbidden := forbidden || caps[i] in NON_DELEGABLE;
      lacking := lacking || !HasScopeViaRole(a, now, u, caps[i], scope);
      i := i + 1;
    }
    assert caps[..i] == caps;
  }

  /** The delegation table as the service updates it, with the rows its guards read. */
  class DelegationService {
    var roles: Table<RoleKey, Granted>
    var teams: map<Uuid, TeamInfo>
    var campaigns: map<Uuid, CampaignInfo>
    var delegations: seq<Delegation>

    function View(): Authority
      reads this
    {
      Authority(roles, delegations, teams, campaigns)
    }

    method CreateDelegation(now: int, q: Request) returns (refused: Option<DelegationError>)
      modifies this`delegations
      ensures match Create(old(View()), now, q)
              case Ok(a) => refused.None? && View() == a
              case Err(e) => refused == Some(e) && View() == old(View())
    {
      if q.delegate == q.delegator { return Some(SelfDelegation); }
      if q.scope.kind.OtherScope? { return Some(UnknownScopeType); }
      if q.scope.kind in {Team, CampaignScope} && q.scope.id.None? { return Some(MissingScopeId); }
      var caps := Distinct(q.caps);
      if caps == [] { return Some(NoCapabilities); }
      var unknown, forbidden, lacking := CheckEach(View(), now, q.delegator, caps, q.scope);
      if unknown { return Some(UnknownCapabilities); }
      if forbidden { return Some(NonDelegable); }
      if q.until.Some? && q.until.value <= q.since { return Some(InvalidWindow); }
      if lacking { return Some(InsufficientAuthority); }
      delegations := delegations + [Granting(q)];
      return None;
    }

    method RevokeDelegation(now: int, i: nat, actor: Uuid) returns (refused: Option<DelegationError>)
      modifies this`delegations
      ensures match Revoke(old(View()), now, i, actor)
              case Ok(a) => refused.None? && View() == a
              case Err(e) => refused == Some(e) && View() == old(View())
    {
      if i >= |delegations| { return Some(NotFound); }
      var d := delegations[i];
      if d.delegator != actor { return Some(NotAuthorizedToRevoke); }
      if d.revokedAt.None? {
        delegations := delegations[i := d.(revokedAt := Some(now))];
      }
      return None;
    }
  }

  /** Granting succeeds exactly when the delegator personally owns every requested
      capability at that scope by role, and all of them may be delegated. Authority that is
      itself only lent therefore cannot be passed on. */
  lemma {:induction false} CreateSucceedsIff(a: Authority, now: int, q: Request)
    ensures Create(a, now, q).Ok? <==>
            && q.delegate != q.delegator && !q.scope.kind.OtherScope? && q.caps != []
            && (q.scope.kind in {Team, CampaignScope} ==> q.scope.id.Some?)
            && (q.until.Some? ==> q.since < q.until.value)
            && forall c :: c in q.caps ==>
                 c in ALL_CAPABILITIES - NON_DELEGABLE && HasScopeViaRole(a, now, q.delegator, c, q.scope)
    ensures Create(a, now, q).Ok? ==>
              exists caps :: && (forall c :: c in caps <==> c in q.caps)
                             && Create(a, now, q).value == a.(delegations := a.delegations +
                                  [Delegation(q.delegator, q.delegate, caps, q.scope, q.since, q.until, None)])
  {
    assert q.caps != [] ==> q.caps[0] in Distinct(q.caps);
    assert Distinct(q.caps) != [] ==> Distinct(q.caps)[0] in q.caps;
  }

  // ----------------------------------------------------------------------- runs

  /** Besides the two delegation operations, roles, teams and campaigns change freely. */
  datatype Event =
    | Grant(now: int, q: Request)
    | Withdraw(now: int, i: nat, actor: Uuid)
    | ChangeRoles(roles: Table<RoleKey, Granted>)
    | ChangeTeams(teams: map<Uuid, TeamInfo>)
    | ChangeCampaigns(campaigns: map<Uuid, CampaignInfo>)

  function Step(a: Authority, e: Event): Authority {
    match e
    case Grant(now, q) => (match Create(a, now, q) case Ok(b) => b case Err(_) => a)
    case Withdraw(now, i, actor) => (match Revoke(a, now, i, actor) case Ok(b) => b case Err(_) => a)
    case ChangeRoles(roles) => a.(roles := roles)
    case ChangeTeams(teams) => a.(teams := teams)
    case ChangeCampaigns(campaigns) => a.(campaigns := campaigns)
  }

  function Run(a: Authority, es: seq<Event>): Authority
    decreases es
  {
    if es == [] then a else Run(Step(a, es[0]), es[1..])
  }

  ghost predicate WellFormed(a: Authority) {
    forall d :: d in a.delegations ==> d.delegator != d.delegate && forall c :: c in d.caps ==> c !in NON_DELEGABLE
  }

  lemma {:induction false} StepKeepsWellFormed(a: Authority, e: Event)
    requires WellFormed(a)
    ensures WellFormed(Step(a, e))
  {
    if e.Grant? && Create(a, e.now, e.q).Ok? {
      CreateSucceedsIff(a, e.now, e.q);
    }
  }

  lemma {:induction false} RunKeepsWellFormed(a: Authority, es: seq<Event>)
    requires WellFormed(a)
    ensures WellFormed(Run(a, es))
    decreases es
  {
    if es != [] {
      StepKeepsWellFormed(a, es[0]);
      RunKeepsWellFormed(Step(a, es[0]), es[1..]);
    }
  }

  /** Over every run that starts without delegations, a non-delegable capability is only
      ever held through the user's own role: at any scope, over any campaign, or at all. */
  lemma {:induction false} NonDelegableOnlyByRole(a: Authority, es: seq<Event>, now: int, u: Uuid, cap: Capability)
    requires a.delegations == [] && cap in NON_DELEGABLE
    ensures var b := Run(a, es);
            && (HasAssigned(b, now, u, cap) <==> RoleScopes(b, now, u, cap) != {})
            && (forall t :: HasScope(b, now, u, cap, t) <==> HasScopeViaRole(b, now, u, cap, t))
            && (forall id :: HasCampaign(b, now, u, cap, id) <==> HasCampaignViaRole(b, now, u, cap, id))
  {
    RunKeepsWellFormed(a, es);
    var b := Run(a, es);
    assert DelegatedScopes(b, now, u, cap) == {};
    assert GrantScopes(b, now, u, cap) == RoleScopes(b, now, u, cap);
  }

  /** No user ever lends authority to themselves. */
  lemma {:induction false} NoSelfLending(a: Authority, es: seq<Event>, now: int, d: Delegation, u: Uuid,
                                         cap: Capability)
    requires a.delegations == [] && Lends(Run(a, es), now, d, u, cap)
    ensures d.delegator != u
  {
    RunKeepsWellFormed(a, es);
  }

  predicate RevokedAt(a: Authority, i: nat) {
    i < |a.delegations| && a.delegations[i].revokedAt.Some?
  }

  /** A revoked delegation stays revoked at the same time over every run, and its row lends
      nothing again. */
  lemma {:induction false} RevocationIsFinal(a: Authority, es: seq<Event>, i: nat)
    requires RevokedAt(a, i)
    ensures RevokedAt(Run(a, es), i) && Run(a, es).delegations[i] == a.delegations[i]
    ensures forall now :: !Running(Run(a, es).delegations[i], now)
    decreases es
  {
    if es != [] {
      RevocationIsFinal(Step(a, es[0]), es[1..], i);
    }
  }

  /** Row `i` lends the capability to this user now. */
  predicate LendsAt(a: Authority, now: int, i: nat, u: Uuid, cap: Capability) {
    i < |a.delegations| && Lends(a, now, a.delegations[i], u, cap)
  }

  /** Authority by role does not depend on the delegation table. */
  lemma {:induction false} ByRoleApart(a: Authority, b: Authority, t: int, u: Uuid, cap: Capability, s: Scope)
    requires b == a.(delegations := b.delegations)
    ensures RoleScopes(b, t, u, cap) == RoleScopes(a, t, u, cap)
    ensures HasScopeViaRole(b, t, u, cap, s) <==> HasScopeViaRole(a, t, u, cap, s)
  {
    assert RoleScopes(b, t, u, cap) == RoleScopes(a, t, u, cap);
    assert forall g :: CoversTarget(b, g, s) <==> CoversTarget(a, g, s);
  }

  /** A withdrawal goes through for the delegator alone. From then on that row lends nothing and
      every other row lends what it lent, to anyone, at any time. */
  lemma {:induction false} WithdrawalEndsOneRow(a: Authority, now: int, i: nat, actor: Uuid)
    ensures Revoke(a, now, i, actor).Ok? <==> i < |a.delegations| && a.delegations[i].delegator == actor
    ensures Revoke(a, now, i, actor).Ok? ==>
              var b := Revoke(a, now, i, actor).value;
              && RevokedAt(b, i) && (forall later :: Revoke(b, later, i, actor) == Ok(b))
              && |b.delegations| == |a.delegations|
              && forall t, j: nat, u, cap :: LendsAt(b, t, j, u, cap) <==> j != i && LendsAt(a, t, j, u, cap)
  {
    if Revoke(a, now, i, actor).Ok? {
      var b := Revoke(a, now, i, actor).value;
      forall t, j: nat, u, cap ensures LendsAt(b, t, j, u, cap) <==> j != i && LendsAt(a, t, j, u, cap) {
        if j < |a.delegations| && j != i {
          ByRoleApart(a, b, t, a.delegations[j].delegator, cap, a.delegations[j].scope);
        }
      }
    }
  }

  /** A user holds a capability at a scope by role, or by some row that lends it there. */
  lemma {:induction false} HeldByRoleOrRow(a: Authority, t: int, u: Uuid, cap: Capability, s: Scope)
    ensures HasScope(a, t, u, cap, s) <==>
              HasScopeViaRole(a, t, u, cap, s) || exists j: nat :: LendsAtScope(a, t, j, u, cap, s)
  {
    assert HasScope(a, t, u, cap, s) <==>
      HasScopeViaRole(a, t, u, cap, s) || exists g :: g in DelegatedScopes(a, t, u, cap) && CoversTarget(a, g, s);
    if g :| g in DelegatedScopes(a, t, u, cap) && CoversTarget(a, g, s) {
      var j := LendingRow(a, t, u, cap, g);
      assert LendsAtScope(a, t, j, u, cap, s);
    }
    if j: nat :| LendsAtScope(a, t, j, u, cap, s) {
      RowLends(a, t, j, u, cap);
    }
  }

  lemma {:induction false} LendingRow(a: Authority, t: int, u: Uuid, cap: Capability, g: Scope) returns (j: nat)
    requires g in DelegatedScopes(a, t, u, cap)
    ensures LendsAt(a, t, j, u, cap) && a.delegations[j].scope == g
  {
    var d :| d in a.delegations && Lends(a, t, d, u, cap) && d.scope == g;
    j :| j < |a.delegations| && a.delegations[j] == d;
  }

  lemma {:induction false} RowLends(a: Authority, t: int, j: nat, u: Uuid, cap: Capability)
    requires LendsAt(a, t, j, u, cap)
    ensures a.delegations[j].scope in DelegatedScopes(a, t, u, cap)
  {
  }

  predicate LendsAtScope(a: Authority, t: int, j: nat, u: Uuid, cap: Capability, s: Scope) {
    LendsAt(a, t, j, u, cap) && CoversTarget(a, a.delegations[j].scope, s)
  }

  /** What is left after it is exactly what the user holds by role or by another row. */
  lemma {:induction false} WithdrawalLeaves(a: Authority, now: int, i: nat, actor: Uuid, t: int, u: Uuid,
                                            cap: Capability, s: Scope)
    requires Revoke(a, now, i, actor).Ok?
    ensures HasScope(Revoke(a, now, i, actor).value, t, u, cap, s) <==>
              HasScopeViaRole(a, t, u, cap, s) || exists j: nat :: j != i && LendsAtScope(a, t, j, u, cap, s)
  {
    var b := Revoke(a, now, i, actor).value;
    WithdrawalEndsOneRow(a, now, i, actor);
    HeldByRoleOrRow(b, t, u, cap, s);
    ByRoleApart(a, b, t, u, cap, s);
    forall j: nat ensures LendsAtScope(b, t, j, u, cap, s) <==> j != i && LendsAtScope(a, t, j, u, cap, s) {
      assert LendsAt(b, t, j, u, cap) <==> j != i && LendsAt(a, t, j, u, cap);
    }
  }
}
