/** Applying one classified row, and undoing it later without clobbering newer changes. */
module ImportEffects {
  import opened Basics
  import opened Tables
  import opened Capabilities
  import opened Authz
  import opened ImportRows
  import opened Workforce

  /** Clock, feature flags, and the identifier a created user would get. */
  datatype Env = Env(now: int, viewerEnabled: bool, deferredActivation: bool)

  datatype Outcome =
    | NoOutcome | SkippedConflict | Created | Updated | Reactivated | Deactivated
    | Added | Ended | Assigned | LineSet

  /** The entity a committed row is linked to; table rows by position. */
  datatype Link = NoLink | UserLink(user: Uuid) | MemberLink(m: nat) | RoleLink(r: nat) | LineLink(l: nat)

  /** What the row overwrote. For fields, `Some` means the row changed that field. */
  datatype Snapshot =
    | NoSnapshot
    | Fields(oldName: Option<string>, oldStart: Option<Option<int>>, oldEnd: Option<Option<int>>)
    | PriorSupervisor(prior: Option<Uuid>)

  datatype Record = Record(row: ImportRow, outcome: Outcome, link: Link, snapshot: Snapshot, token: bool)

  function Untouched(d: Directory, row: ImportRow, outcome: Outcome): Result<(Directory, Record), ServiceError> {
    Ok((d, Record(row, outcome, NoLink, NoSnapshot, false)))
  }

  function Applied(d: Directory, row: ImportRow, outcome: Outcome, link: Link, snapshot: Snapshot)
    : Result<(Directory, Record), ServiceError> {
    Ok((d, Record(row, outcome, link, snapshot, false)))
  }

  predicate Taken(d: Directory, workforceId: string, email: string) {
    exists u :: u in d.users && (d.users[u].workforceId == workforceId || d.users[u].email == email)
  }

  function LocalPart(email: string): string {
    if email == "" || email[0] == '@' then "" else [email[0]] + LocalPart(email[1..])
  }

  function CommitCreate(d: Directory, row: ImportRow, env: Env, newId: Uuid): Result<(Directory, Record), ServiceError>
    requires row.values.NewUser?
  {
    var v := row.values;
    var workforceId := if row.ext != "" then row.ext else LocalPart(v.login);
    if Taken(d, workforceId, v.login) then Untouched(d, row, SkippedConflict)
    else
      var user := User(workforceId, v.login, v.name, true, ActiveStanding, v.start, v.end, None);
      Ok((d.(users := d.users[newId := user]),
          Record(row, Created, UserLink(newId), NoSnapshot, !env.deferredActivation)))
  }

  /** The row's field changes applied to a user. */
  function Changed(u: User, v: Values): User {
    if !v.Changes? then u
    else u.(name := if v.newName.Some? then v.newName.value else u.name,
            start := if v.newStart.Some? then v.newStart else u.start,
            end := if v.newEnd.Some? then v.newEnd else u.end)
  }

  /** The old values of the fields the row changes. */
  function OldFields(u: User, v: Values): Snapshot {
    if !v.Changes? then Fields(None, None, None)
    else Fields(if v.newName.Some? then Some(u.name) else None,
                if v.newStart.Some? then Some(u.start) else None,
                if v.newEnd.Some? then Some(u.end) else None)
  }

  function CommitUser(d: Directory, row: ImportRow, env: Env, newId: Uuid): Result<(Directory, Record), ServiceError>
    requires row.identity.Some? ==> row.identity.value in d.users
  {
    if row.action == Creating && row.values.NewUser? then CommitCreate(d, row, env, newId)
    else if row.identity.None? then Untouched(d, row, NoOutcome)
    else
      var id := row.identity.value;
      var u := d.users[id];
      if row.action == Updating then
        Applied(d.(users := d.users[id := Changed(u, row.values)]), row, Updated, UserLink(id),
            OldFields(u, row.values))
      else if row.action == Reactivating then
        if u.active then Untouched(d, row, SkippedConflict)
        else Applied(Reactivate(d, id), row, Reactivated, UserLink(id), NoSnapshot)
      else Untouched(d, row, NoOutcome)
  }

  function CommitDeactivation(d: Directory, row: ImportRow, actor: Uuid, env: Env)
    : Result<(Directory, Record), ServiceError>
    requires row.identity.Some? ==> row.identity.value in d.users
  {
    if row.identity.None? then Untouched(d, row, NoOutcome)
    else if !d.users[row.identity.value].active then Untouched(d, row, SkippedConflict)
    else match Disable(d, row.identity.value, actor, env.now)
         case Err(_) => Untouched(d, row, SkippedConflict)
         case Ok(d') => Applied(d', row, Deactivated, UserLink(row.identity.value), NoSnapshot)
  }

  function CommitMembership(d: Directory, row: ImportRow, env: Env): Result<(Directory, Record), ServiceError>
    requires row.values.OfTeam?
  {
    if row.identity.None? then Untouched(d, row, NoOutcome)
    else if row.values.team !in d.teams then Untouched(d, row, SkippedConflict)
    else
      var k := MemberKey(row.values.team, row.identity.value);
      var current := Find(d.members, k);
      if row.action == Adding then
        if !d.teams[row.values.team].active || current.Some? then Untouched(d, row, SkippedConflict)
        else Applied(AddMember(d, k, env.now), row, Added, MemberLink(|d.members|), NoSnapshot)
      else if current.None? then Untouched(d, row, SkippedConflict)
      else Applied(EndMember(d, current.value, env.now), row, Ended, MemberLink(current.value), NoSnapshot)
  }

  function CommitRole(d: Directory, row: ImportRow, actor: Uuid, env: Env): Result<(Directory, Record), ServiceError>
    requires row.values.OfRole?
  {
    if row.identity.None? then Untouched(d, row, NoOutcome)
    else
      var k := RoleKey(row.identity.value, row.values.role, row.values.scope);
      var current := Find(d.roles, k);
      if row.action == Assigning then
        if current.Some? then Untouched(d, row, SkippedConflict)
        else match AssignRole(d, k, actor, env.now, env.viewerEnabled)
             case Ok(d') => Applied(d', row, Assigned, RoleLink(|d.roles|), NoSnapshot)
             case Err(SelfApproval) => Untouched(d, row, SkippedConflict)
             case Err(e) => Err(e)
      else if current.None? then Untouched(d, row, SkippedConflict)
      else match EndRole(d, current.value, actor, env.now)
           case Ok(d') => Applied(d', row, Ended, RoleLink(current.value), NoSnapshot)
           case Err(_) => Untouched(d, row, SkippedConflict)
  }

  function CommitReporting(d: Directory, row: ImportRow, env: Env): Result<(Directory, Record), ServiceError>
    requires row.values.OfSupervisor?
  {
    if row.identity.None? then Untouched(d, row, NoOutcome)
    else
      var s, v := row.identity.value, row.values.supervisor;
      if v !in d.users || !d.users[v].active then Untouched(d, row, SkippedConflict)
      else if Value(d.lines, s) == Some(v) then Untouched(d, row, SkippedConflict)
      else match SetLine(d, s, v, env.now)
           case Err(_) => Untouched(d, row, SkippedConflict)
           case Ok(d') => Applied(d', row, LineSet, LineLink(|d.lines|), PriorSupervisor(Value(d.lines, s)))
  }

  /** What classification guarantees of a valid row: its parsed values fit its type and its
      identity was resolved against a real user, and users are never deleted. */
  ghost predicate Fits(d: Directory, kind: ImportType, row: ImportRow) {
    && (row.identity.Some? ==> row.identity.value in d.users)
    && match kind
       case UserRows => row.action == Creating <==> row.values.NewUser?
       case DeactivationRows => row.action == Deactivating
       case MembershipRows => row.values.OfTeam? && row.action in {Adding, Ending}
       case RoleRows => row.values.OfRole? && row.action in {Assigning, Ending} && Appointment(row.values.role).Some?
       case ReportingRows => row.values.OfSupervisor? && row.action == Setting
       case CampaignRows => false
  }

  function CommitRow(d: Directory, kind: ImportType, row: ImportRow, actor: Uuid, env: Env, newId: Uuid)
    : (r: Result<(Directory, Record), ServiceError>)
    requires Fits(d, kind, row)
    ensures r.Ok? ==> r.value.0.users.Keys >= d.users.Keys && r.value.1.row == row
  {
    match kind
    case UserRows => CommitUser(d, row, env, newId)
    case DeactivationRows => CommitDeactivation(d, row, actor, env)
    case MembershipRows => CommitMembership(d, row, env)
    case RoleRows => CommitRole(d, row, actor, env)
    case ReportingRows => CommitReporting(d, row, env)
  }

  // ------------------------------------------------------------------- reversal

  /** Whether the changed fields still hold what the row wrote. */
  predicate FieldsStill(u: User, v: Values) {
    v.Changes? ==>
      && (v.newName.Some? ==> u.name == v.newName.value)
      && (v.newStart.Some? ==> u.start == v.newStart)
      && (v.newEnd.Some? ==> u.end == v.newEnd)
  }

  function Restored(u: User, s: Snapshot): User {
    if !s.Fields? then u
    else u.(name := if s.oldName.Some? then s.oldName.value else u.name,
            start := if s.oldStart.Some? then s.oldStart.value else u.start,
            end := if s.oldEnd.Some? then s.oldEnd.value else u.end)
  }

  /** The undone directory, or `None` when something has changed since the commit. */
  type Undo = Result<Option<Directory>, ServiceError>

  function Done(r: Result<Directory, ServiceError>): Undo {
    match r case Ok(d) => Ok(Some(d)) case Err(e) => Err(e)
  }

  function ReverseUser(d: Directory, rec: Record, id: Uuid, actor: Uuid, env: Env): Undo
    requires id in d.users
  {
    var u := d.users[id];
    if rec.row.action == Creating || rec.row.action == Reactivating then
      if !u.active then Ok(None) else Done(Disable(d, id, actor, env.now))
    else if rec.row.action == Deactivating then
      if u.active then Ok(None) else Ok(Some(Reactivate(d, id)))
    else if !FieldsStill(u, rec.row.values) then Ok(None)
    else Ok(Some(d.(users := d.users[id := Restored(u, rec.snapshot)])))
  }

  function ReverseMembership(d: Directory, rec: Record, i: nat, env: Env): Undo
    requires i < |d.members|
  {
    if rec.row.action == Adding then
      if !Open(d.members[i]) then Ok(None) else Ok(Some(EndMember(d, i, env.now)))
    else if Find(d.members, d.members[i].key).Some? then Ok(None)
    else Ok(Some(AddMember(d, d.members[i].key, env.now)))
  }

  function ReverseRole(d: Directory, rec: Record, i: nat, actor: Uuid, env: Env): Undo
    requires i < |d.roles|
  {
    if rec.row.action == Assigning then
      if !Open(d.roles[i]) then Ok(None) else Done(EndRole(d, i, actor, env.now))
    else if Find(d.roles, d.roles[i].key).Some? then Ok(None)
    else Done(AssignRole(d, d.roles[i].key, actor, env.now, env.viewerEnabled))
  }

  function ReverseLine(d: Directory, rec: Record, i: nat, env: Env): Undo
    requires i < |d.lines|
  {
    if !Open(d.lines[i]) then Ok(None)
    else if rec.snapshot.PriorSupervisor? && rec.snapshot.prior.Some? then
      Done(SetLine(d, d.lines[i].key, rec.snapshot.prior.value, env.now))
    else Ok(Some(EndLine(d, i, env.now)))
  }

  /** The linked entity exists; rows and users are never deleted. */
  predicate Linked(d: Directory, rec: Record) {
    match rec.link
    case NoLink => true
    case UserLink(u) => u in d.users
    case MemberLink(i) => i < |d.members|
    case RoleLink(i) => i < |d.roles|
    case LineLink(i) => i < |d.lines|
  }

  function ReverseRow(d: Directory, rec: Record, actor: Uuid, env: Env): Undo
    requires Linked(d, rec)
  {
    match rec.link
    case NoLink => Ok(None)
    case UserLink(u) => ReverseUser(d, rec, u, actor, env)
    case MemberLink(i) => ReverseMembership(d, rec, i, env)
    case RoleLink(i) => ReverseRole(d, rec, i, actor, env)
    case LineLink(i) => ReverseLine(d, rec, i, env)
  }

  // --------------------------------------------- one row: commit, then reversal

  /** The entity a row acts on. */
  function Target(kind: ImportType, row: ImportRow, newId: Uuid): Option<Entity> {
    if kind == UserRows && row.action == Creating then Some(UserOf(newId))
    else if row.identity.None? then None
    else
      var id := row.identity.value;
      match kind
      case UserRows => Some(UserOf(id))
      case DeactivationRows => Some(UserOf(id))
      case MembershipRows => if row.values.OfTeam? then Some(MemberOf(MemberKey(row.values.team, id))) else None
      case RoleRows => if row.values.OfRole? then Some(RoleOf(RoleKey(id, row.values.role, row.values.scope))) else None
      case ReportingRows => Some(LineOf(id))
      case CampaignRows => None
  }

  /** The entity a record is linked to, read off the tables. */
  function EntityOf(d: Directory, rec: Record): Option<Entity>
    requires Linked(d, rec)
  {
    match rec.link
    case NoLink => None
    case UserLink(u) => Some(UserOf(u))
    case MemberLink(i) => Some(MemberOf(d.members[i].key))
    case RoleLink(i) => Some(RoleOf(d.roles[i].key))
    case LineLink(i) => Some(LineOf(d.lines[i].key))
  }

  /** The link and snapshot fit the action, as a commit leaves them. */
  predicate Sound(rec: Record) {
    match rec.link
    case NoLink => true
    case UserLink(_) =>
      || rec.row.action in {Creating, Reactivating, Deactivating}
      || (rec.row.action == Updating && SnapshotFits(rec.snapshot, rec.row.values))
    case MemberLink(_) => rec.row.action in {Adding, Ending}
    case RoleLink(_) => rec.row.action in {Assigning, Ending}
    case LineLink(_) => rec.row.action == Setting && rec.snapshot.PriorSupervisor?
  }

  predicate SnapshotFits(s: Snapshot, v: Values) {
    && s.Fields?
    && (s.oldName.Some? <==> v.Changes? && v.newName.Some?)
    && (s.oldStart.Some? <==> v.Changes? && v.newStart.Some?)
    && (s.oldEnd.Some? <==> v.Changes? && v.newEnd.Some?)
  }

  /** The live entity is still what the row produced: its value, and for an added, assigned
      or set row that very table row. */
  predicate StillProduced(d: Directory, rec: Record)
    requires Linked(d, rec)
  {
    match rec.link
    case NoLink => false
    case UserLink(u) =>
      (match rec.row.action
       case Creating => d.users[u].active
       case Reactivating => d.users[u].active
       case Deactivating => !d.users[u].active
       case _ => FieldsStill(d.users[u], rec.row.values))
    case MemberLink(i) =>
      if rec.row.action == Adding then Open(d.members[i]) else Find(d.members, d.members[i].key).None?
    case RoleLink(i) =>
      if rec.row.action == Assigning then Open(d.roles[i]) else Find(d.roles, d.roles[i].key).None?
    case LineLink(i) => Open(d.lines[i])
  }

  /** The value undoing the row gives its entity: the value before the commit, with any field
      the row did not touch as it is now. A created user ends up disabled, not absent. */
  function UndoneWorth(d: Directory, rec: Record): Worth
    requires Linked(d, rec)
  {
    match rec.link
    case NoLink => Absent
    case UserLink(u) =>
      (match rec.row.action
       case Creating => WorthOf(d.users[u]).(active := false, standing := InactiveStanding)
       case Reactivating => WorthOf(d.users[u]).(active := false, standing := InactiveStanding)
       case Deactivating => WorthOf(d.users[u]).(active := true, standing := ActiveStanding)
       case _ => WorthOf(Restored(d.users[u], rec.snapshot)))
    case MemberLink(_) => Present(rec.row.action == Ending)
    case RoleLink(_) => Present(rec.row.action == Ending)
    case LineLink(_) => Supervised(if rec.snapshot.PriorSupervisor? then rec.snapshot.prior else None)
  }

  /** The row's reversal would raise for this reverser: they are the user it would disable,
      strip or appoint, or it would re-grant a viewer role while that flag is off. */
  predicate Raises(d: Directory, rec: Record, actor: Uuid, env: Env)
    requires Linked(d, rec)
  {
    match rec.link
    case UserLink(u) => rec.row.action in {Creating, Reactivating} && actor == u
    case RoleLink(i) =>
      || actor == d.roles[i].key.user
      || (rec.row.action == Ending &&
          (Appointment(d.roles[i].key.role).None? || (d.roles[i].key.role == Viewer && !env.viewerEnabled)))
    case LineLink(i) => rec.snapshot.PriorSupervisor? && rec.snapshot.prior == Some(d.lines[i].key)
    case _ => false
  }

  /** Reversal of one row, in any later state: it acts exactly when the entity is still what
      the row produced, then restores it and nothing else; otherwise it changes nothing. */
  lemma {:induction false} ReversalNeverClobbers(d: Directory, rec: Record, actor: Uuid, env: Env)
    requires ValidDirectory(d) && Linked(d, rec) && Sound(rec)
    ensures !StillProduced(d, rec) ==> ReverseRow(d, rec, actor, env) == Ok(None)
    ensures StillProduced(d, rec) ==>
              (ReverseRow(d, rec, actor, env).Err? <==> Raises(d, rec, actor, env))
    ensures StillProduced(d, rec) && !Raises(d, rec, actor, env) ==>
              var r := ReverseRow(d, rec, actor, env);
              && r.Ok? && r.value.Some?
              && ValidDirectory(r.value.value)
              && Only(d, r.value.value, EntityOf(d, rec).value)
              && Look(r.value.value, EntityOf(d, rec).value) == UndoneWorth(d, rec)
  {
    if StillProduced(d, rec) && !Raises(d, rec, actor, env) {
      match rec.link
      case UserLink(u) =>
      case MemberLink(i) => ReverseMembershipEffect(d, rec, i, env);
      case RoleLink(i) => ReverseRoleEffect(d, rec, i, actor, env);
      case LineLink(i) => ReverseLineEffect(d, rec, i, env);
    }
  }

  lemma {:induction false} ReverseMembershipEffect(d: Directory, rec: Record, i: nat, env: Env)
    requires ValidDirectory(d) && Linked(d, rec) && Sound(rec) && rec.link == MemberLink(i) && StillProduced(d, rec)
    ensures var r := ReverseMembership(d, rec, i, env);
            && r.Ok? && r.value.Some? && ValidDirectory(r.value.value)
            && Only(d, r.value.value, MemberOf(d.members[i].key))
            && Look(r.value.value, MemberOf(d.members[i].key)) == UndoneWorth(d, rec)
  {
    var k := d.members[i].key;
    if rec.row.action == Adding {
      EndMemberEffect(d, k, i, env.now);
    } else {
      AddMemberEffect(d, k, env.now);
    }
  }

  lemma {:induction false} ReverseRoleEffect(d: Directory, rec: Record, i: nat, actor: Uuid, env: Env)
    requires ValidDirectory(d) && Linked(d, rec) && Sound(rec) && rec.link == RoleLink(i) && StillProduced(d, rec)
    requires !Raises(d, rec, actor, env)
    ensures var r := ReverseRole(d, rec, i, actor, env);
            && r.Ok? && r.value.Some? && ValidDirectory(r.value.value)
            && Only(d, r.value.value, RoleOf(d.roles[i].key))
            && Look(r.value.value, RoleOf(d.roles[i].key)) == UndoneWorth(d, rec)
  {
    var k := d.roles[i].key;
    if rec.row.action == Assigning {
      EndRoleEffect(d, k, i, actor, env.now);
    } else {
      AssignRoleEffect(d, k, actor, env.now, env.viewerEnabled);
    }
  }

  lemma {:induction false} ReverseLineEffect(d: Directory, rec: Record, i: nat, env: Env)
    requires ValidDirectory(d) && Linked(d, rec) && Sound(rec) && rec.link == LineLink(i) && StillProduced(d, rec)
    requires rec.snapshot.prior != Some(d.lines[i].key)
    ensures var r := ReverseLine(d, rec, i, env);
            && r.Ok? && r.value.Some? && ValidDirectory(r.value.value)
            && Only(d, r.value.value, LineOf(d.lines[i].key))
            && Look(r.value.value, LineOf(d.lines[i].key)) == UndoneWorth(d, rec)
  {
    var s := d.lines[i].key;
    if rec.snapshot.prior.Some? {
      SetLineEffect(d, s, rec.snapshot.prior.value, env.now);
    } else {
      EndLineEffect(d, s, i, env.now);
    }
  }
}
