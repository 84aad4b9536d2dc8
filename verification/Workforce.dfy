/** The workforce view that imports change: users, team memberships, role grants and
    primary reporting lines, with the service operations commit and reversal are built on. */
module Workforce {
  import opened Basics
  import opened Tables
  import opened Capabilities
  import opened Authz

  datatype Standing = ActiveStanding | InactiveStanding

  datatype User = User(
    workforceId: string, email: string, name: string, active: bool, standing: Standing,
    start: Option<int>, end: Option<int>, disabledAt: Option<int>)

  datatype MemberKey = MemberKey(team: Uuid, user: Uuid)

  datatype Joined = Joined

  datatype Directory = Directory(
    users: map<Uuid, User>, members: Table<MemberKey, Joined>, roles: Table<RoleKey, Granted>,
    lines: Table<Uuid, Uuid>, teams: map<Uuid, TeamInfo>)

  /** The database's own constraints, and the standing that always moves with the flag. */
  ghost predicate ValidDirectory(d: Directory) {
    && UniqueOpen(d.members) && UniqueOpen(d.roles) && UniqueOpen(d.lines)
    && (forall u :: u in d.users ==> d.users[u].standing == StandingOf(d.users[u].active))
    && (forall i :: 0 <= i < |d.lines| ==> d.lines[i].val != d.lines[i].key)
  }

  function StandingOf(active: bool): Standing {
    if active then ActiveStanding else InactiveStanding
  }

  datatype ServiceError = SelfApproval | ViewerDisabled | NotAppointable | SelfSupervision

  function Disable(d: Directory, target: Uuid, actor: Uuid, now: int): Result<Directory, ServiceError>
    requires target in d.users
  {
    if actor == target then Err(SelfApproval)
    else Ok(d.(users := d.users[target :=
      d.users[target].(active := false, standing := InactiveStanding, disabledAt := Some(now))]))
  }

  function Reactivate(d: Directory, target: Uuid): Directory
    requires target in d.users
  {
    d.(users := d.users[target := d.users[target].(active := true, standing := ActiveStanding, disabledAt := None)])
  }

  /** Grant a role; a current grant of the same role and scope is superseded. */
  function AssignRole(d: Directory, k: RoleKey, actor: Uuid, now: int, viewerEnabled: bool)
    : Result<Directory, ServiceError> {
    if Appointment(k.role).None? then Err(NotAppointable)
    else if k.role == Viewer && !viewerEnabled then Err(ViewerDisabled)
    else if actor == k.user then Err(SelfApproval)
    else
      var prior := Find(d.roles, k);
      var ended := if prior.Some? then End(d.roles, prior.value, now) else d.roles;
      Ok(d.(roles := Insert(ended, k, Granted, now)))
  }

  function EndRole(d: Directory, i: nat, actor: Uuid, now: int): Result<Directory, ServiceError>
    requires i < |d.roles|
  {
    if actor == d.roles[i].key.user then Err(SelfApproval) else Ok(d.(roles := End(d.roles, i, now)))
  }

  /** Add a member; an existing current membership is kept as it is. */
  function AddMember(d: Directory, k: MemberKey, now: int): Directory {
    if Find(d.members, k).Some? then d else d.(members := Insert(d.members, k, Joined, now))
  }

  function EndMember(d: Directory, i: nat, now: int): Directory
    requires i < |d.members|
  {
    d.(members := End(d.members, i, now))
  }

  /** Set the primary supervisor; the current line is superseded. */
  function SetLine(d: Directory, subordinate: Uuid, supervisor: Uuid, now: int): Result<Directory, ServiceError> {
    if subordinate == supervisor then Err(SelfSupervision)
    else
      var prior := Find(d.lines, subordinate);
      var ended := if prior.Some? then End(d.lines, prior.value, now) else d.lines;
      Ok(d.(lines := Insert(ended, subordinate, supervisor, now)))
  }

  function EndLine(d: Directory, i: nat, now: int): Directory
    requires i < |d.lines|
  {
    d.(lines := End(d.lines, i, now))
  }

  // --------------------------------------------------- entities and their values

  datatype Entity = UserOf(user: Uuid) | MemberOf(member: MemberKey) | RoleOf(role: RoleKey) | LineOf(subordinate: Uuid)

  datatype Worth =
    | Absent
    | UserWorth(active: bool, standing: Standing, name: string, start: Option<int>, end: Option<int>)
    | Present(present: bool)
    | Supervised(supervisor: Option<Uuid>)

  function WorthOf(u: User): Worth {
    UserWorth(u.active, u.standing, u.name, u.start, u.end)
  }

  /** What the workforce view shows of one entity. */
  function Look(d: Directory, e: Entity): Worth {
    match e
    case UserOf(u) => if u in d.users then WorthOf(d.users[u]) else Absent
    case MemberOf(k) => Present(Find(d.members, k).Some?)
    case RoleOf(k) => Present(Find(d.roles, k).Some?)
    case LineOf(s) => Supervised(Value(d.lines, s))
  }

  /** Rows keep their position and key, and only rows of `k` differ or are new. */
  ghost predicate OnlyKey<K, V>(t: Table<K, V>, t': Table<K, V>, k: Option<K>) {
    && |t| <= |t'|
    && (forall i :: 0 <= i < |t| ==> t'[i].key == t[i].key && (Some(t[i].key) != k ==> t'[i] == t[i]))
    && (forall i :: |t| <= i < |t'| ==> Some(t'[i].key) == k)
  }

  /** `d'` differs from `d` in nothing but entity `e`. */
  ghost predicate Only(d: Directory, d': Directory, e: Entity) {
    && d'.teams == d.teams
    && (forall u :: UserOf(u) != e ==>
          (u in d.users <==> u in d'.users) && (u in d.users ==> d'.users[u] == d.users[u]))
    && OnlyKey(d.members, d'.members, if e.MemberOf? then Some(e.member) else None)
    && OnlyKey(d.roles, d'.roles, if e.RoleOf? then Some(e.role) else None)
    && OnlyKey(d.lines, d'.lines, if e.LineOf? then Some(e.subordinate) else None)
  }

  lemma {:induction false} OtherKeysSame<K, V>(t: Table<K, V>, t': Table<K, V>, k: Option<K>, other: K)
    requires UniqueOpen(t) && UniqueOpen(t') && OnlyKey(t, t', k) && Some(other) != k
    ensures Find(t', other) == Find(t, other) && Value(t', other) == Value(t, other)
    ensures forall i :: OpenAt(t', other, i) <==> OpenAt(t, other, i)
  {
    assert forall i :: OpenAt(t', other, i) <==> OpenAt(t, other, i);
    if Find(t, other).Some? {
      FindIs(t', other, Find(t, other).value);
    }
  }

  /** Nothing else is seen to change. */
  lemma {:induction false} OthersLookSame(d: Directory, d': Directory, e: Entity, other: Entity)
    requires ValidDirectory(d) && ValidDirectory(d') && Only(d, d', e) && other != e
    ensures Look(d', other) == Look(d, other)
  {
    match other
    case UserOf(_) =>
    case MemberOf(k) => OtherKeysSame(d.members, d'.members, if e.MemberOf? then Some(e.member) else None, k);
    case RoleOf(k) => OtherKeysSame(d.roles, d'.roles, if e.RoleOf? then Some(e.role) else None, k);
    case LineOf(s) => OtherKeysSame(d.lines, d'.lines, if e.LineOf? then Some(e.subordinate) else None, s);
  }

  // ----------------------------------------------- the effect of each operation

  /** Superseding a key leaves exactly the new row open for it. */
  lemma {:induction false} Supersede<K(!new), V>(t: Table<K, V>, k: K, v: V, now: int)
    requires UniqueOpen(t)
    ensures var prior := Find(t, k);
            var ended := if prior.Some? then End(t, prior.value, now) else t;
            && Find(ended, k).None?
            && UniqueOpen(Insert(ended, k, v, now)) && OnlyKey(t, Insert(ended, k, v, now), Some(k))
            && OpenAt(Insert(ended, k, v, now), k, |t|)
            && Find(Insert(ended, k, v, now), k) == Some(|t|)
  {
    var prior := Find(t, k);
    var ended := if prior.Some? then End(t, prior.value, now) else t;
    if prior.Some? {
      EndClears(t, prior.value, now);
      assert Value(ended, k) == None;
    }
    InsertSets(ended, k, v, now);
    FindIs(Insert(ended, k, v, now), k, |t|);
  }

  lemma {:induction false} EndOnly<K(!new), V>(t: Table<K, V>, k: K, i: nat, now: int)
    requires UniqueOpen(t) && OpenAt(t, k, i)
    ensures UniqueOpen(End(t, i, now)) && OnlyKey(t, End(t, i, now), Some(k)) && Find(End(t, i, now), k).None?
  {
    EndClears(t, i, now);
    assert Value(End(t, i, now), k) == None;
  }

  lemma {:induction false} AssignRoleEffect(d: Directory, k: RoleKey, actor: Uuid, now: int, viewerEnabled: bool)
    requires ValidDirectory(d) && AssignRole(d, k, actor, now, viewerEnabled).Ok?
    ensures var d' := AssignRole(d, k, actor, now, viewerEnabled).value;
            && ValidDirectory(d') && Only(d, d', RoleOf(k))
            && OpenAt(d'.roles, k, |d.roles|) && Find(d'.roles, k) == Some(|d.roles|)
  {
    Supersede(d.roles, k, Granted, now);
  }

  lemma {:induction false} EndRoleEffect(d: Directory, k: RoleKey, i: nat, actor: Uuid, now: int)
    requires ValidDirectory(d) && OpenAt(d.roles, k, i) && EndRole(d, i, actor, now).Ok?
    ensures var d' := EndRole(d, i, actor, now).value;
            ValidDirectory(d') && Only(d, d', RoleOf(k)) && Find(d'.roles, k).None?
  {
    EndOnly(d.roles, k, i, now);
  }

  lemma {:induction false} AddMemberEffect(d: Directory, k: MemberKey, now: int)
    requires ValidDirectory(d) && Find(d.members, k).None?
    ensures var d' := AddMember(d, k, now);
            && ValidDirectory(d') && Only(d, d', MemberOf(k))
            && OpenAt(d'.members, k, |d.members|) && Find(d'.members, k) == Some(|d.members|)
  {
    Supersede(d.members, k, Joined, now);
  }

  lemma {:induction false} EndMemberEffect(d: Directory, k: MemberKey, i: nat, now: int)
    requires ValidDirectory(d) && OpenAt(d.members, k, i)
    ensures var d' := EndMember(d, i, now);
            ValidDirectory(d') && Only(d, d', MemberOf(k)) && Find(d'.members, k).None?
  {
    EndOnly(d.members, k, i, now);
  }

  lemma {:induction false} SetLineEffect(d: Directory, s: Uuid, v: Uuid, now: int)
    requires ValidDirectory(d) && s != v
    ensures var d' := SetLine(d, s, v, now).value;
            && ValidDirectory(d') && Only(d, d', LineOf(s))
            && OpenAt(d'.lines, s, |d.lines|) && Value(d'.lines, s) == Some(v)
  {
    Supersede(d.lines, s, v, now);
  }

  lemma {:induction false} EndLineEffect(d: Directory, s: Uuid, i: nat, now: int)
    requires ValidDirectory(d) && OpenAt(d.lines, s, i)
    ensures var d' := EndLine(d, i, now);
            ValidDirectory(d') && Only(d, d', LineOf(s)) && Value(d'.lines, s).None?
  {
    EndOnly(d.lines, s, i, now);
  }
}
