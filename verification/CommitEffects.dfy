/** When a committed row takes effect, and what its target is then, in terms of the directory's
    own rows; for one row, and for each row of a whole file. */
module CommitEffects {
  import opened Basics
  import opened Tables
  import opened Capabilities
  import opened Authz
  import opened ImportRows
  import opened Workforce
  import opened ImportEffects
  import opened ImportReversal

  // --------------------------------------------------------------- the directory

  predicate InTeam(d: Directory, team: Uuid, user: Uuid) {
    exists i :: 0 <= i < |d.members| && d.members[i].key == MemberKey(team, user) && d.members[i].active
                && d.members[i].until.None?
  }

  predicate HoldsRole(d: Directory, user: Uuid, role: Role, scope: Scope) {
    exists i :: 0 <= i < |d.roles| && d.roles[i].key == RoleKey(user, role, scope) && d.roles[i].active
                && d.roles[i].until.None?
  }

  predicate ReportsTo(d: Directory, user: Uuid, supervisor: Uuid) {
    exists i :: 0 <= i < |d.lines| && d.lines[i].key == user && d.lines[i].val == supervisor && d.lines[i].active
                && d.lines[i].until.None?
  }

  predicate IsActive(d: Directory, user: Uuid) {
    user in d.users && d.users[user].active
  }

  function IdOf(row: ImportRow): string
    requires row.values.NewUser?
  {
    if row.ext != "" then row.ext else LocalPart(row.values.login)
  }

  predicate Clashes(u: User, row: ImportRow)
    requires row.values.NewUser?
  {
    u.workforceId == IdOf(row) || u.email == row.values.login
  }

  lemma {:induction false} MemberIs(d: Directory, team: Uuid, user: Uuid)
    ensures InTeam(d, team, user) <==> Find(d.members, MemberKey(team, user)).Some?
  {
    assert forall i: nat :: OpenAt(d.members, MemberKey(team, user), i) <==>
        0 <= i < |d.members| && d.members[i].key == MemberKey(team, user) && d.members[i].active
        && d.members[i].until.None?;
  }

  lemma {:induction false} RoleIs(d: Directory, user: Uuid, role: Role, scope: Scope)
    ensures HoldsRole(d, user, role, scope) <==> Find(d.roles, RoleKey(user, role, scope)).Some?
  {
    assert forall i: nat :: OpenAt(d.roles, RoleKey(user, role, scope), i) <==>
        0 <= i < |d.roles| && d.roles[i].key == RoleKey(user, role, scope) && d.roles[i].active
        && d.roles[i].until.None?;
  }

  lemma {:induction false} LineIs(d: Directory, user: Uuid, supervisor: Uuid)
    requires UniqueOpen(d.lines)
    ensures ReportsTo(d, user, supervisor) <==> Value(d.lines, user) == Some(supervisor)
  {
    if i: nat :| i < |d.lines| && d.lines[i].key == user && d.lines[i].val == supervisor && d.lines[i].active
                 && d.lines[i].until.None? {
      FindIs(d.lines, user, i);
    }
  }

  // --------------------------------------------------------------------- one row

  /** Whether a row committed now takes effect. */
  ghost predicate TakesEffect(d: Directory, kind: ImportType, row: ImportRow, actor: Uuid) {
    if kind == UserRows && row.action == Creating then
      row.values.NewUser? && forall u :: u in d.users ==> !Clashes(d.users[u], row)
    else
      && row.identity.Some?
      && var id := row.identity.value;
         match kind
         case UserRows => row.action == Updating || (row.action == Reactivating && !IsActive(d, id))
         case DeactivationRows => IsActive(d, id) && actor != id
         case MembershipRows =>
           && row.values.OfTeam? && row.values.team in d.teams
           && if row.action == Adding then d.teams[row.values.team].active && !InTeam(d, row.values.team, id)
              else InTeam(d, row.values.team, id)
         case RoleRows =>
           && row.values.OfRole? && actor != id
           && (row.action == Assigning <==> !HoldsRole(d, id, row.values.role, row.values.scope))
         case ReportingRows =>
           && row.values.OfSupervisor? && IsActive(d, row.values.supervisor) && row.values.supervisor != id
           && !ReportsTo(d, id, row.values.supervisor)
         case CampaignRows => false
  }

  /** What the target of a row that took effect is, given what it was. */
  predicate Achieved(d: Directory, d': Directory, kind: ImportType, row: ImportRow, newId: Uuid, now: int) {
    if kind == UserRows && row.action == Creating then
      && row.values.NewUser? && newId in d'.users
      && d'.users[newId] == User(IdOf(row), row.values.login, row.values.name, true, ActiveStanding, row.values.start,
                                 row.values.end, None)
    else
      && row.identity.Some?
      && var id := row.identity.value;
         match kind
         case UserRows =>
           && id in d.users && id in d'.users
           && (if row.action == Updating then Rewritten(d.users[id], row.values, d'.users[id])
               else d'.users[id] == d.users[id].(active := true, standing := ActiveStanding, disabledAt := None))
         case DeactivationRows =>
           && id in d.users && id in d'.users
           && d'.users[id] == d.users[id].(active := false, standing := InactiveStanding, disabledAt := Some(now))
         case MembershipRows => row.values.OfTeam? && (InTeam(d', row.values.team, id) <==> row.action == Adding)
         case RoleRows =>
           row.values.OfRole? && (HoldsRole(d', id, row.values.role, row.values.scope) <==> row.action == Assigning)
         case ReportingRows => row.values.OfSupervisor? && ReportsTo(d', id, row.values.supervisor)
         case CampaignRows => false
  }

  /** The given fields have the row's values, the others their old ones. */
  predicate Rewritten(u: User, v: Values, w: User) {
    && w.workforceId == u.workforceId && w.email == u.email && w.active == u.active && w.standing == u.standing
    && w.disabledAt == u.disabledAt
    && w.name == (if v.Changes? && v.newName.Some? then v.newName.value else u.name)
    && w.start == (if v.Changes? && v.newStart.Some? then v.newStart else u.start)
    && w.end == (if v.Changes? && v.newEnd.Some? then v.newEnd else u.end)
  }

  predicate OutcomeSays(row: ImportRow, applied: bool, outcome: Outcome) {
    if !applied then outcome in {NoOutcome, SkippedConflict}
    else
      match row.action
      case Creating => outcome == Created
      case Updating => outcome == Updated
      case Reactivating => outcome == Reactivated
      case Deactivating => outcome == Deactivated
      case Adding => outcome == Added
      case Ending => outcome == Ended
      case Assigning => outcome == Assigned
      case Setting => outcome == LineSet
      case NoAction => false
  }

  /** A row is applied exactly if it takes effect on the directory as it is, and then its target is
      what the row says; otherwise the directory stays. The one error that stops a commit is a viewer
      role newly granted while that flag is off. */
  lemma {:induction false} RowAppliedIff(d: Directory, kind: ImportType, t: Task, env: Env)
    requires ValidDirectory(d) && Fits(d, kind, t.row) && t.newId !in d.users
    ensures var r := CommitRow(d, kind, t.row, t.actor, env, t.newId);
            && (r.Err? <==>
                  && kind == RoleRows && t.row.identity.Some? && t.row.action == Assigning
                  && t.row.values.role == Viewer && !env.viewerEnabled
                  && !HoldsRole(d, t.row.identity.value, Viewer, t.row.values.scope))
            && (r.Ok? ==> AppliedIff(d, r.value.0, kind, t, r.value.1, env.now))
  {
    match kind
    case UserRows => UserRowApplied(d, t, env);
    case DeactivationRows =>
    case MembershipRows => MemberRowApplied(d, t, env);
    case RoleRows => RoleRowApplied(d, t, env);
    case ReportingRows => LineRowApplied(d, t, env);
  }

  ghost predicate AppliedIff(d: Directory, d': Directory, kind: ImportType, t: Task, rec: Record, now: int) {
    && (rec.link != NoLink <==> TakesEffect(d, kind, t.row, t.actor))
    && OutcomeSays(t.row, rec.link != NoLink, rec.outcome)
    && if rec.link == NoLink then d' == d else Achieved(d, d', kind, t.row, t.newId, now)
  }

  /** The table row behind an applied row: a new one starts now and is open, an ended one ends now.
      An activation token goes to a created user unless activation is deferred. */
  lemma {:induction false} RowDated(d: Directory, kind: ImportType, t: Task, env: Env)
    requires ValidDirectory(d) && Fits(d, kind, t.row) && t.newId !in d.users
    requires CommitRow(d, kind, t.row, t.actor, env, t.newId).Ok?
    ensures var (d', rec) := CommitRow(d, kind, t.row, t.actor, env, t.newId).value;
            && (rec.token <==> rec.outcome == Created && !env.deferredActivation)
            && match rec.link
               case NoLink => true
               case UserLink(u) =>
                 u == if t.row.action == Creating || t.row.identity.None? then t.newId else t.row.identity.value
               case MemberLink(m) => Dated(d.members, d'.members, m, t.row.action == Adding, env.now)
               case RoleLink(r) => Dated(d.roles, d'.roles, r, t.row.action == Assigning, env.now)
               case LineLink(l) => Dated(d.lines, d'.lines, l, true, env.now)
  {
  }

  predicate Dated<K(==), V(==)>(t: Table<K, V>, t': Table<K, V>, i: nat, isNew: bool, now: int) {
    && i < |t'|
    && if isNew then i == |t| && t'[i].active && t'[i].since == now && t'[i].until == None
       else i < |t| && t[i].active && t[i].until == None && t'[i] == t[i].(active := false, until := Some(now))
  }

  lemma {:induction false} UserRowApplied(d: Directory, t: Task, env: Env)
    requires Fits(d, UserRows, t.row) && t.newId !in d.users
    ensures var r := CommitUser(d, t.row, env, t.newId);
            r.Ok? && AppliedIff(d, r.value.0, UserRows, t, r.value.1, env.now)
  {
  }

  lemma {:induction false} MemberRowApplied(d: Directory, t: Task, env: Env)
    requires ValidDirectory(d) && Fits(d, MembershipRows, t.row)
    ensures var r := CommitMembership(d, t.row, env);
            r.Ok? && AppliedIff(d, r.value.0, MembershipRows, t, r.value.1, env.now)
  {
    if t.row.identity.Some? {
      var team, user := t.row.values.team, t.row.identity.value;
      var k := MemberKey(team, user);
      MemberIs(d, team, user);
      MemberIs(CommitMembership(d, t.row, env).value.0, team, user);
      if Find(d.members, k).Some? {
        EndMemberEffect(d, k, Find(d.members, k).value, env.now);
      } else {
        AddMemberEffect(d, k, env.now);
      }
    }
  }

  lemma {:induction false} RoleRowApplied(d: Directory, t: Task, env: Env)
    requires ValidDirectory(d) && Fits(d, RoleRows, t.row)
    ensures var r := CommitRole(d, t.row, t.actor, env);
            && (r.Err? <==>
                  && t.row.identity.Some? && t.row.action == Assigning
                  && t.row.values.role == Viewer && !env.viewerEnabled
                  && !HoldsRole(d, t.row.identity.value, Viewer, t.row.values.scope))
            && (r.Ok? ==> AppliedIff(d, r.value.0, RoleRows, t, r.value.1, env.now))
  {
    if t.row.identity.Some? {
      var v, user := t.row.values, t.row.identity.value;
      var k := RoleKey(user, v.role, v.scope);
      RoleIs(d, user, v.role, v.scope);
      var r := CommitRole(d, t.row, t.actor, env);
      if r.Ok? {
        RoleIs(r.value.0, user, v.role, v.scope);
        if t.row.action == Ending && Find(d.roles, k).Some? && t.actor != user {
          EndRoleEffect(d, k, Find(d.roles, k).value, t.actor, env.now);
        } else if t.row.action == Assigning && Find(d.roles, k).None? && t.actor != user {
          AssignRoleEffect(d, k, t.actor, env.now, env.viewerEnabled);
        }
      }
    }
  }

  lemma {:induction false} LineRowApplied(d: Directory, t: Task, env: Env)
    requires ValidDirectory(d) && Fits(d, ReportingRows, t.row)
    ensures var r := CommitReporting(d, t.row, env);
            r.Ok? && AppliedIff(d, r.value.0, ReportingRows, t, r.value.1, env.now)
  {
    if t.row.identity.Some? {
      var s, v := t.row.identity.value, t.row.values.supervisor;
      LineIs(d, s, v);
      if s != v {
        SetLineEffect(d, s, v, env.now);
        LineIs(CommitReporting(d, t.row, env).value.0, s, v);
      }
    }
  }

  // ----------------------------------------------------------------- a whole file

  /** The entity is the same in both directories; of a user, every field. */
  predicate SameAt(d: Directory, d': Directory, e: Entity) {
    && Look(d', e) == Look(d, e)
    && (e.UserOf? ==>
          && (e.user in d.users <==> e.user in d'.users)
          && (e.user in d.users ==> d'.users[e.user] == d.users[e.user]))
  }

  ghost predicate Committable(d: Directory, kind: ImportType, tasks: seq<Task>, env: Env) {
    && ValidDirectory(d) && AllFit(d, kind, tasks) && FreshIds(d, tasks) && DistinctTargets(kind, tasks)
    && CommitAll(d, kind, tasks, env).Ok?
  }

  lemma {:induction false} PrefixCommittable(d: Directory, kind: ImportType, tasks: seq<Task>, env: Env, n: nat)
    requires Committable(d, kind, tasks, env) && n <= |tasks|
    ensures Committable(d, kind, tasks[..n], env)
    decreases |tasks|
  {
    if n < |tasks| {
      var before := tasks[..|tasks| - 1];
      assert before[..n] == tasks[..n];
      PrefixCommittable(d, kind, before, env, n);
    } else {
      assert tasks[..n] == tasks;
    }
  }

  /** Row `n` is committed on the directory the rows before it leave. */
  lemma {:induction false} OneRow(d: Directory, kind: ImportType, tasks: seq<Task>, env: Env, n: nat)
    requires Committable(d, kind, tasks, env) && n < |tasks|
    ensures Committable(d, kind, tasks[..n], env) && Committable(d, kind, tasks[..n + 1], env)
    ensures var d1 := CommitAll(d, kind, tasks[..n], env).value.0;
            && ValidDirectory(d1) && Fits(d1, kind, tasks[n].row) && tasks[n].newId !in d1.users
            && var r := CommitRow(d1, kind, tasks[n].row, tasks[n].actor, env, tasks[n].newId);
               r.Ok? && CommitAll(d, kind, tasks[..n + 1], env) ==
                        Ok((r.value.0, CommitAll(d, kind, tasks[..n], env).value.1 + [r.value.1]))
  {
    PrefixCommittable(d, kind, tasks, env, n);
    PrefixCommittable(d, kind, tasks, env, n + 1);
    assert tasks[..n + 1][..n] == tasks[..n];
    ReadyForLast(d, kind, tasks[..n + 1], env);
  }

  /** The directory after the first `n` rows. */
  ghost function DirAfter(d: Directory, kind: ImportType, tasks: seq<Task>, env: Env, n: nat): Directory
    requires Committable(d, kind, tasks, env) && n <= |tasks|
  {
    PrefixCommittable(d, kind, tasks, env, n);
    CommitAll(d, kind, tasks[..n], env).value.0
  }

  ghost function RecordOf(d: Directory, kind: ImportType, tasks: seq<Task>, env: Env, n: nat): Record
    requires Committable(d, kind, tasks, env) && n < |tasks|
  {
    CommitAll(d, kind, tasks, env).value.1[n]
  }

  /** One more row, seen from any other entity. */
  lemma {:induction false} RowApart(d: Directory, kind: ImportType, tasks: seq<Task>, env: Env, n: nat, e: Entity)
    requires Committable(d, kind, tasks, env) && n < |tasks| && TaskTarget(kind, tasks[n]) != Some(e)
    ensures SameAt(DirAfter(d, kind, tasks, env, n), DirAfter(d, kind, tasks, env, n + 1), e)
    ensures DirAfter(d, kind, tasks, env, n + 1).teams == DirAfter(d, kind, tasks, env, n).teams
  {
    OneRow(d, kind, tasks, env, n);
    var d1, d2 := DirAfter(d, kind, tasks, env, n), DirAfter(d, kind, tasks, env, n + 1);
    CommitRowEffect(d1, kind, tasks[n], env);
    if d2 != d1 {
      OthersLookSame(d1, d2, TaskTarget(kind, tasks[n]).value, e);
    }
  }

  lemma {:induction false} SpanApart(d: Directory, kind: ImportType, tasks: seq<Task>, env: Env, m: nat, n: nat,
                                     e: Entity)
    requires Committable(d, kind, tasks, env) && m <= n <= |tasks|
    requires forall i :: m <= i < n ==> TaskTarget(kind, tasks[i]) != Some(e)
    ensures SameAt(DirAfter(d, kind, tasks, env, m), DirAfter(d, kind, tasks, env, n), e)
    ensures DirAfter(d, kind, tasks, env, n).teams == DirAfter(d, kind, tasks, env, m).teams
  {
    if m < n {
      SpanApart(d, kind, tasks, env, m, n - 1, e);
      RowApart(d, kind, tasks, env, n - 1, e);
    }
  }

  lemma {:induction false} OneRecordMore(d: Directory, kind: ImportType, tasks: seq<Task>, env: Env)
    requires AllFit(d, kind, tasks) && tasks != [] && CommitAll(d, kind, tasks, env).Ok?
    ensures CommitAll(d, kind, tasks[..|tasks| - 1], env).Ok?
    ensures CommitAll(d, kind, tasks, env).value.1[..|tasks| - 1] ==
            CommitAll(d, kind, tasks[..|tasks| - 1], env).value.1
  {
  }

  lemma {:induction false} RecordsGrow(d: Directory, kind: ImportType, tasks: seq<Task>, env: Env, n: nat)
    requires AllFit(d, kind, tasks) && n <= |tasks| && CommitAll(d, kind, tasks, env).Ok?
    ensures CommitAll(d, kind, tasks[..n], env).Ok?
    ensures CommitAll(d, kind, tasks[..n], env).value.1 == CommitAll(d, kind, tasks, env).value.1[..n]
    decreases |tasks|
  {
    if n < |tasks| {
      var before := tasks[..|tasks| - 1];
      assert before[..n] == tasks[..n];
      OneRecordMore(d, kind, tasks, env);
      RecordsGrow(d, kind, before, env, n);
    } else {
      assert tasks[..n] == tasks;
    }
  }

  lemma {:induction false} RecordIs(d: Directory, kind: ImportType, tasks: seq<Task>, env: Env, n: nat)
    requires Committable(d, kind, tasks, env) && n < |tasks|
    ensures AllFit(d, kind, tasks[..n + 1]) && CommitAll(d, kind, tasks[..n + 1], env).Ok?
    ensures RecordOf(d, kind, tasks, env, n) == CommitAll(d, kind, tasks[..n + 1], env).value.1[n]
  {
    RecordsGrow(d, kind, tasks, env, n + 1);
  }

  /** Row `n` as it is committed, between the directories before and after it. */
  lemma {:induction false} RowCommits(d: Directory, kind: ImportType, tasks: seq<Task>, env: Env, n: nat)
    requires Committable(d, kind, tasks, env) && n < |tasks|
    ensures var d1 := DirAfter(d, kind, tasks, env, n);
            && ValidDirectory(d1) && Fits(d1, kind, tasks[n].row) && tasks[n].newId !in d1.users
            && CommitRow(d1, kind, tasks[n].row, tasks[n].actor, env, tasks[n].newId) ==
               Ok((DirAfter(d, kind, tasks, env, n + 1), RecordOf(d, kind, tasks, env, n)))
  {
    OneRow(d, kind, tasks, env, n);
    RecordIs(d, kind, tasks, env, n);
  }

  lemma {:induction false} RowInPlace(d: Directory, kind: ImportType, tasks: seq<Task>, env: Env, n: nat)
    requires Committable(d, kind, tasks, env) && n < |tasks|
    ensures AppliedIff(DirAfter(d, kind, tasks, env, n), DirAfter(d, kind, tasks, env, n + 1), kind, tasks[n],
                       RecordOf(d, kind, tasks, env, n), env.now)
  {
    RowCommits(d, kind, tasks, env, n);
    RowAppliedIff(DirAfter(d, kind, tasks, env, n), kind, tasks[n], env);
  }

  lemma {:induction false} WholeFile(d: Directory, kind: ImportType, tasks: seq<Task>, env: Env)
    requires Committable(d, kind, tasks, env)
    ensures DirAfter(d, kind, tasks, env, 0) == d
    ensures DirAfter(d, kind, tasks, env, |tasks|) == CommitAll(d, kind, tasks, env).value.0
  {
    assert tasks[..|tasks|] == tasks && tasks[..0] == [];
  }

  /** Nothing the decision about a row depends on was changed by the rows before it, unless it
      creates a user. */
  lemma {:induction false} SameDecision(d: Directory, d1: Directory, kind: ImportType, t: Task)
    requires ValidDirectory(d) && ValidDirectory(d1) && d1.teams == d.teams && Fits(d, kind, t.row)
    requires t.row.action != Creating && TaskTarget(kind, t).Some? ==> SameAt(d, d1, TaskTarget(kind, t).value)
    requires kind == ReportingRows && t.row.values.OfSupervisor? ==> SameAt(d, d1, UserOf(t.row.values.supervisor))
    ensures t.row.action != Creating ==>
              (TakesEffect(d1, kind, t.row, t.actor) <==> TakesEffect(d, kind, t.row, t.actor))
  {
    if t.row.identity.Some? {
      var id, v := t.row.identity.value, t.row.values;
      match kind
      case MembershipRows =>
        MemberIs(d, v.team, id);
        MemberIs(d1, v.team, id);
      case RoleRows =>
        RoleIs(d, id, v.role, v.scope);
        RoleIs(d1, id, v.role, v.scope);
      case ReportingRows =>
        LineIs(d, id, v.supervisor);
        LineIs(d1, id, v.supervisor);
      case _ =>
    }
  }

  /** What a row achieved is still so when its target has not changed since, and is so relative to
      an earlier directory in which it was the same. */
  lemma {:induction false} StillAchieved(d: Directory, d1: Directory, d2: Directory, d': Directory, kind: ImportType,
                                         t: Task, now: int)
    requires ValidDirectory(d2) && ValidDirectory(d') && Achieved(d1, d2, kind, t.row, t.newId, now)
    requires TaskTarget(kind, t).Some? && SameAt(d2, d', TaskTarget(kind, t).value)
    requires t.row.action != Creating ==> SameAt(d, d1, TaskTarget(kind, t).value)
    requires Fits(d1, kind, t.row)
    ensures Achieved(d, d', kind, t.row, t.newId, now)
  {
    if t.row.identity.Some? {
      var id, v := t.row.identity.value, t.row.values;
      match kind
      case MembershipRows =>
        MemberIs(d2, v.team, id);
        MemberIs(d', v.team, id);
      case RoleRows =>
        RoleIs(d2, id, v.role, v.scope);
        RoleIs(d', id, v.role, v.scope);
      case ReportingRows =>
        LineIs(d2, id, v.supervisor);
        LineIs(d', id, v.supervisor);
      case _ =>
    }
  }

  /** The one way a row fails the whole commit: it grants a viewer role, not yet held, while that
      flag is off. */
  predicate GrantsDisabledViewer(d: Directory, kind: ImportType, row: ImportRow, env: Env) {
    && kind == RoleRows && row.identity.Some? && row.action == Assigning && row.values.OfRole?
    && row.values.role == Viewer && !env.viewerEnabled
    && !HoldsRole(d, row.identity.value, Viewer, row.values.scope)
  }

  lemma {:induction false} CommitFailsIff(d: Directory, kind: ImportType, tasks: seq<Task>, env: Env)
    requires ValidDirectory(d) && AllFit(d, kind, tasks) && FreshIds(d, tasks) && DistinctTargets(kind, tasks)
    ensures CommitAll(d, kind, tasks, env).Err? <==>
              exists i :: 0 <= i < |tasks| && GrantsDisabledViewer(d, kind, tasks[i].row, env)
  {
    if tasks != [] {
      var n := |tasks| - 1;
      var before, t := tasks[..n], tasks[n];
      CommitFailsIff(d, kind, before, env);
      assert forall i :: 0 <= i < n ==> before[i] == tasks[i];
      if CommitAll(d, kind, before, env).Ok? {
        LastRowFailsIff(d, kind, tasks, env);
      }
    }
  }

  lemma {:induction false} BeforeLast(d: Directory, kind: ImportType, tasks: seq<Task>, before: seq<Task>, t: Task,
                                      env: Env)
    requires ValidDirectory(d) && AllFit(d, kind, tasks) && FreshIds(d, tasks) && DistinctTargets(kind, tasks)
    requires tasks == before + [t] && AllFit(d, kind, before) && CommitAll(d, kind, before, env).Ok?
    ensures Committable(d, kind, before, env) && Fits(d, kind, t.row)
    ensures forall i :: 0 <= i < |before| && TaskTarget(kind, t).Some? ==>
              TaskTarget(kind, before[i]) != TaskTarget(kind, t)
  {
    assert forall i :: 0 <= i < |before| ==> tasks[i] == before[i];
    assert tasks[|before|] == t;
  }

  lemma {:induction false} LastRowFailsIff(d: Directory, kind: ImportType, tasks: seq<Task>, env: Env)
    requires ValidDirectory(d) && AllFit(d, kind, tasks) && FreshIds(d, tasks) && DistinctTargets(kind, tasks)
    requires tasks != [] && CommitAll(d, kind, tasks[..|tasks| - 1], env).Ok?
    ensures var t := tasks[|tasks| - 1];
            var d1 := CommitAll(d, kind, tasks[..|tasks| - 1], env).value.0;
            && Fits(d1, kind, t.row)
            && (CommitRow(d1, kind, t.row, t.actor, env, t.newId).Err? <==> GrantsDisabledViewer(d, kind, t.row, env))
  {
    var n := |tasks| - 1;
    ReadyForLast(d, kind, tasks, env);
    RowAppliedIff(CommitAll(d, kind, tasks[..n], env).value.0, kind, tasks[n], env);
    BeforeLast(d, kind, tasks, tasks[..n], tasks[n], env);
    SameGrant(d, kind, tasks[..n], tasks[n], env);
  }

  /** Rows that act on other roles leave open whether this one is held. */
  lemma {:induction false} SameGrant(d: Directory, kind: ImportType, before: seq<Task>, t: Task, env: Env)
    requires Committable(d, kind, before, env) && Fits(d, kind, t.row)
    requires forall i :: 0 <= i < |before| && TaskTarget(kind, t).Some? ==>
               TaskTarget(kind, before[i]) != TaskTarget(kind, t)
    ensures var d1 := CommitAll(d, kind, before, env).value.0;
            GrantsDisabledViewer(d1, kind, t.row, env) <==> GrantsDisabledViewer(d, kind, t.row, env)
  {
    if kind == RoleRows && t.row.identity.Some? {
      WholeFile(d, kind, before, env);
      SpanApart(d, kind, before, env, 0, |before|, TaskTarget(kind, t).value);
      RoleIs(d, t.row.identity.value, t.row.values.role, t.row.values.scope);
      RoleIs(CommitAll(d, kind, before, env).value.0, t.row.identity.value, t.row.values.role, t.row.values.scope);
    }
  }

  // ---------------------------------------------------------------- created users

  ghost predicate ClashIn(d: Directory, row: ImportRow)
    requires row.values.NewUser?
  {
    exists u :: u in d.users && Clashes(d.users[u], row)
  }

  predicate SameIdentity(row: ImportRow, other: ImportRow)
    requires row.values.NewUser? && other.values.NewUser?
  {
    IdOf(row) == IdOf(other) || row.values.login == other.values.login
  }

  /** One of the first `n` rows created a user with the row's identifier or address. */
  ghost predicate CreatedBefore(d: Directory, tasks: seq<Task>, env: Env, n: nat, row: ImportRow)
    requires Committable(d, UserRows, tasks, env) && n <= |tasks| && row.values.NewUser?
  {
    exists j :: 0 <= j < n && CreatedAt(d, tasks, env, j, row)
  }

  ghost predicate CreatedAt(d: Directory, tasks: seq<Task>, env: Env, j: nat, row: ImportRow)
    requires Committable(d, UserRows, tasks, env) && j < |tasks| && row.values.NewUser?
  {
    && tasks[j].row.values.NewUser? && SameIdentity(tasks[j].row, row)
    && RecordOf(d, UserRows, tasks, env, j).link != NoLink
  }

  /** One committed row adds exactly its own identifier and address, and only if it creates a user. */
  lemma {:induction false} ClashAfterRow(d: Directory, t: Task, env: Env, row: ImportRow)
    requires Fits(d, UserRows, t.row) && t.newId !in d.users && row.values.NewUser?
    ensures var r := CommitUser(d, t.row, env, t.newId);
            r.Ok? && (ClashIn(r.value.0, row) <==>
                        ClashIn(d, row) ||
                        (r.value.1.link != NoLink && t.row.values.NewUser? && SameIdentity(t.row, row)))
  {
    var (d', rec) := CommitUser(d, t.row, env, t.newId).value;
    if ClashIn(d, row) {
      var u :| u in d.users && Clashes(d.users[u], row);
      assert Clashes(d'.users[u], row);
    }
    if ClashIn(d', row) {
      var u :| u in d'.users && Clashes(d'.users[u], row);
      assert u in d.users ==> Clashes(d.users[u], row);
    }
    if rec.link != NoLink && t.row.values.NewUser? && SameIdentity(t.row, row) {
      assert Clashes(d'.users[t.newId], row);
    }
  }

  lemma {:induction false} ClashesAfter(d: Directory, tasks: seq<Task>, env: Env, n: nat, row: ImportRow)
    requires Committable(d, UserRows, tasks, env) && n <= |tasks| && row.values.NewUser?
    ensures ClashIn(DirAfter(d, UserRows, tasks, env, n), row) <==>
              ClashIn(d, row) || CreatedBefore(d, tasks, env, n, row)
  {
    if n == 0 {
      WholeFile(d, UserRows, tasks, env);
    } else {
      ClashesAfter(d, tasks, env, n - 1, row);
      RowCommits(d, UserRows, tasks, env, n - 1);
      ClashAfterRow(DirAfter(d, UserRows, tasks, env, n - 1), tasks[n - 1], env, row);
      assert CreatedBefore(d, tasks, env, n, row) <==>
          CreatedBefore(d, tasks, env, n - 1, row) || CreatedAt(d, tasks, env, n - 1, row);
    }
  }

  // ------------------------------------------------------------------ each row of a file

  /** Whether row `i` of the file takes effect: as for one row, on the directory before the whole
      commit; a new user's identifier and address must also be free of the users created by
      earlier rows. */
  ghost predicate FileRowTakesEffect(d: Directory, kind: ImportType, tasks: seq<Task>, env: Env, i: nat)
    requires Committable(d, kind, tasks, env) && i < |tasks|
  {
    && TakesEffect(d, kind, tasks[i].row, tasks[i].actor)
    && (kind == UserRows && tasks[i].row.values.NewUser? ==> !CreatedBefore(d, tasks, env, i, tasks[i].row))
  }

  lemma {:induction false} FileRowDecision(d: Directory, kind: ImportType, tasks: seq<Task>, env: Env, i: nat)
    requires Committable(d, kind, tasks, env) && i < |tasks|
    ensures TakesEffect(DirAfter(d, kind, tasks, env, i), kind, tasks[i].row, tasks[i].actor) <==>
              FileRowTakesEffect(d, kind, tasks, env, i)
  {
    var d1 := DirAfter(d, kind, tasks, env, i);
    RowCommits(d, kind, tasks, env, i);
    assert Fits(d, kind, tasks[i].row);
    if kind == UserRows && tasks[i].row.action == Creating {
      ClashesAfter(d, tasks, env, i, tasks[i].row);
    } else {
      BeforeRow(d, kind, tasks, env, i);
      SameDecision(d, d1, kind, tasks[i]);
    }
  }

  /** The rows before row `i` leave alone what it acts on and what its decision reads. */
  lemma {:induction false} BeforeRow(d: Directory, kind: ImportType, tasks: seq<Task>, env: Env, i: nat)
    requires Committable(d, kind, tasks, env) && i < |tasks|
    ensures var d1 := DirAfter(d, kind, tasks, env, i);
            var e := TaskTarget(kind, tasks[i]);
            && d1.teams == d.teams
            && (e.Some? ==> SameAt(d, d1, e.value))
            && (kind == ReportingRows && tasks[i].row.values.OfSupervisor? ==>
                  SameAt(d, d1, UserOf(tasks[i].row.values.supervisor)))
  {
    WholeFile(d, kind, tasks, env);
    var e := TaskTarget(kind, tasks[i]);
    if e.Some? {
      SpanApart(d, kind, tasks, env, 0, i, e.value);
    }
    if kind == ReportingRows && tasks[i].row.values.OfSupervisor? {
      SpanApart(d, kind, tasks, env, 0, i, UserOf(tasks[i].row.values.supervisor));
    }
    TeamsStay(d, kind, tasks, env, i);
  }

  lemma {:induction false} TeamsStay(d: Directory, kind: ImportType, tasks: seq<Task>, env: Env, n: nat)
    requires Committable(d, kind, tasks, env) && n <= |tasks|
    ensures DirAfter(d, kind, tasks, env, n).teams == d.teams
  {
    if n == 0 {
      WholeFile(d, kind, tasks, env);
    } else {
      TeamsStay(d, kind, tasks, env, n - 1);
      RowCommits(d, kind, tasks, env, n - 1);
      CommitRowEffect(DirAfter(d, kind, tasks, env, n - 1), kind, tasks[n - 1], env);
    }
  }

  /** The rows after row `i` leave alone what it acts on. */
  lemma {:induction false} AfterRow(d: Directory, kind: ImportType, tasks: seq<Task>, env: Env, i: nat)
    requires Committable(d, kind, tasks, env) && i < |tasks| && TaskTarget(kind, tasks[i]).Some?
    ensures SameAt(DirAfter(d, kind, tasks, env, i + 1), CommitAll(d, kind, tasks, env).value.0,
                   TaskTarget(kind, tasks[i]).value)
  {
    WholeFile(d, kind, tasks, env);
    SpanApart(d, kind, tasks, env, i + 1, |tasks|, TaskTarget(kind, tasks[i]).value);
  }

  /** Each row of a committed file is applied exactly if it takes effect on the directory as it was
      before the commit, and after the whole commit its target is what the row says. */
  lemma {:induction false} FileRowApplied(d: Directory, kind: ImportType, tasks: seq<Task>, env: Env, i: nat)
    requires Committable(d, kind, tasks, env) && i < |tasks|
    ensures var (d', recs) := CommitAll(d, kind, tasks, env).value;
            && (recs[i].link != NoLink <==> FileRowTakesEffect(d, kind, tasks, env, i))
            && OutcomeSays(tasks[i].row, recs[i].link != NoLink, recs[i].outcome)
            && (recs[i].link != NoLink ==> Achieved(d, d', kind, tasks[i].row, tasks[i].newId, env.now))
  {
    FileRowDecision(d, kind, tasks, env, i);
    RowInPlace(d, kind, tasks, env, i);
    if RecordOf(d, kind, tasks, env, i).link != NoLink {
      FileRowAchieved(d, kind, tasks, env, i);
    }
  }

  lemma {:induction false} FileRowAchieved(d: Directory, kind: ImportType, tasks: seq<Task>, env: Env, i: nat)
    requires Committable(d, kind, tasks, env) && i < |tasks| && RecordOf(d, kind, tasks, env, i).link != NoLink
    ensures Achieved(d, CommitAll(d, kind, tasks, env).value.0, kind, tasks[i].row, tasks[i].newId, env.now)
  {
    var d1, d2 := DirAfter(d, kind, tasks, env, i), DirAfter(d, kind, tasks, env, i + 1);
    RowInPlace(d, kind, tasks, env, i);
    RowCommits(d, kind, tasks, env, i);
    assert TaskTarget(kind, tasks[i]).Some?;
    BeforeRow(d, kind, tasks, env, i);
    AfterRow(d, kind, tasks, env, i);
    ValidAfter(d, kind, tasks, env, i + 1);
    ValidAfter(d, kind, tasks, env, |tasks|);
    WholeFile(d, kind, tasks, env);
    StillAchieved(d, d1, d2, CommitAll(d, kind, tasks, env).value.0, kind, tasks[i], env.now);
  }

  lemma {:induction false} ValidAfter(d: Directory, kind: ImportType, tasks: seq<Task>, env: Env, n: nat)
    requires Committable(d, kind, tasks, env) && n <= |tasks|
    ensures ValidDirectory(DirAfter(d, kind, tasks, env, n))
  {
    PrefixCommittable(d, kind, tasks, env, n);
    var ws := CommitAllEffect(d, kind, tasks[..n], env);
  }
}
