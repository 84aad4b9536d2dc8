/** When the reversal of one committed row acts, when it raises, and what it leaves behind, in terms
    of the directory's own rows. */
module ReversalEffects {
  import opened Basics
  import opened Tables
  import opened Capabilities
  import opened Authz
  import opened ImportRows
  import opened Workforce
  import opened ImportEffects
  import opened CommitEffects

  predicate IsOpen<K, V>(r: Row<K, V>) {
    r.active && r.until == None
  }

  /** Nothing has touched the row's effect since: the person is still as active as it made them, the
      fields it gave still have its values, the table row it wrote is still open, or the one it ended
      has had no successor. */
  predicate Intact(d: Directory, rec: Record)
    requires Linked(d, rec)
  {
    match rec.link
    case NoLink => false
    case UserLink(u) =>
      (match rec.row.action
       case Creating => d.users[u].active
       case Reactivating => d.users[u].active
       case Deactivating => !d.users[u].active
       case _ =>
         rec.row.values.Changes? ==>
           && (rec.row.values.newName.Some? ==> d.users[u].name == rec.row.values.newName.value)
           && (rec.row.values.newStart.Some? ==> d.users[u].start == rec.row.values.newStart)
           && (rec.row.values.newEnd.Some? ==> d.users[u].end == rec.row.values.newEnd))
    case MemberLink(i) =>
      var k := d.members[i].key;
      if rec.row.action == Adding then IsOpen(d.members[i]) else !InTeam(d, k.team, k.user)
    case RoleLink(i) =>
      var k := d.roles[i].key;
      if rec.row.action == Assigning then IsOpen(d.roles[i]) else !HoldsRole(d, k.user, k.role, k.scope)
    case LineLink(i) => IsOpen(d.lines[i])
  }

  /** The reversal would disable, strip or appoint the reverser, grant a disabled viewer role, appoint
      a role nobody can appoint, or make someone their own supervisor. */
  predicate WouldRaise(d: Directory, rec: Record, actor: Uuid, env: Env)
    requires Linked(d, rec)
  {
    match rec.link
    case UserLink(u) => rec.row.action in {Creating, Reactivating} && actor == u
    case RoleLink(i) =>
      var k := d.roles[i].key;
      || actor == k.user
      || (rec.row.action == Ending &&
          (k.role == SuperAdmin || k.role.UnknownRole? || (k.role == Viewer && !env.viewerEnabled)))
    case LineLink(i) => rec.snapshot.PriorSupervisor? && rec.snapshot.prior == Some(d.lines[i].key)
    case _ => false
  }

  /** A reversal leaves an effect alone exactly when something has touched it since, and otherwise
      raises exactly in these cases. */
  lemma {:induction false} ReversalActsIff(d: Directory, rec: Record, actor: Uuid, env: Env)
    requires ValidDirectory(d) && Linked(d, rec) && Sound(rec)
    ensures var r := ReverseRow(d, rec, actor, env);
            && (r == Ok(None) <==> !Intact(d, rec))
            && (r.Err? <==> Intact(d, rec) && WouldRaise(d, rec, actor, env))
  {
    match rec.link
    case MemberLink(i) => MemberIs(d, d.members[i].key.team, d.members[i].key.user);
    case RoleLink(i) => RoleIs(d, d.roles[i].key.user, d.roles[i].key.role, d.roles[i].key.scope);
    case _ =>
  }

  /** The old values of the given fields are back, the others as they are now. */
  predicate FieldsBack(u: User, s: Snapshot, w: User) {
    && s.Fields?
    && w.workforceId == u.workforceId && w.email == u.email && w.active == u.active && w.standing == u.standing
    && w.disabledAt == u.disabledAt
    && w.name == (if s.oldName.Some? then s.oldName.value else u.name)
    && w.start == (if s.oldStart.Some? then s.oldStart.value else u.start)
    && w.end == (if s.oldEnd.Some? then s.oldEnd.value else u.end)
  }

  /** What the linked entity is after the reversal. */
  predicate Reverted(d: Directory, d': Directory, rec: Record, now: int)
    requires Linked(d, rec) && Linked(d', rec)
  {
    match rec.link
    case NoLink => false
    case UserLink(u) =>
      (match rec.row.action
       case Creating =>
         d'.users[u] == d.users[u].(active := false, standing := InactiveStanding, disabledAt := Some(now))
       case Reactivating =>
         d'.users[u] == d.users[u].(active := false, standing := InactiveStanding, disabledAt := Some(now))
       case Deactivating => d'.users[u] == d.users[u].(active := true, standing := ActiveStanding, disabledAt := None)
       case _ => FieldsBack(d.users[u], rec.snapshot, d'.users[u]))
    case MemberLink(i) =>
      InTeam(d', d.members[i].key.team, d.members[i].key.user) <==> rec.row.action == Ending
    case RoleLink(i) =>
      var k := d.roles[i].key; HoldsRole(d', k.user, k.role, k.scope) <==> rec.row.action == Ending
    case LineLink(i) =>
      if rec.snapshot.PriorSupervisor? && rec.snapshot.prior.Some?
      then ReportsTo(d', d.lines[i].key, rec.snapshot.prior.value)
      else forall v: Uuid :: !ReportsTo(d', d.lines[i].key, v)
  }

  lemma {:induction false} ReversalReverts(d: Directory, rec: Record, actor: Uuid, env: Env)
    requires ValidDirectory(d) && Linked(d, rec) && Sound(rec)
    ensures match ReverseRow(d, rec, actor, env)
            case Ok(Some(d')) => Linked(d', rec) && Reverted(d, d', rec, env.now)
            case _ => true
  {
    var r := ReverseRow(d, rec, actor, env);
    if r.Ok? && r.value.Some? {
      var d' := r.value.value;
      ReversalNeverClobbers(d, rec, actor, env);
      match rec.link
      case MemberLink(i) => MemberIs(d', d.members[i].key.team, d.members[i].key.user);
      case RoleLink(i) => RoleIs(d', d.roles[i].key.user, d.roles[i].key.role, d.roles[i].key.scope);
      case LineLink(i) => LineReverted(d', d.lines[i].key);
      case _ =>
    }
  }

  lemma {:induction false} LineReverted(d: Directory, s: Uuid)
    requires ValidDirectory(d)
    ensures forall v: Uuid :: ReportsTo(d, s, v) <==> Value(d.lines, s) == Some(v)
  {
    forall v: Uuid ensures ReportsTo(d, s, v) <==> Value(d.lines, s) == Some(v) {
      LineIs(d, s, v);
    }
  }
}
