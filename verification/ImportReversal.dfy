/** Whole jobs: committing the rows in order, reversing them in any order, and the proof
    that the second undoes the first. */
module ImportReversal {
  import opened Basics
  import opened Tables
  import opened Capabilities
  import opened Authz
  import opened ImportRows
  import opened Workforce
  import opened ImportEffects

  /** One row of a job as it is applied: who it is applied as, and the identifier a created
      user would get. */
  datatype Task = Task(row: ImportRow, actor: Uuid, newId: Uuid)

  ghost predicate AllFit(d: Directory, kind: ImportType, tasks: seq<Task>) {
    forall i :: 0 <= i < |tasks| ==> Fits(d, kind, tasks[i].row)
  }

  /** The rows applied in order; an error anywhere rolls the whole commit back. */
  function CommitAll(d: Directory, kind: ImportType, tasks: seq<Task>, env: Env)
    : (r: Result<(Directory, seq<Record>), ServiceError>)
    requires AllFit(d, kind, tasks)
    ensures r.Ok? ==> r.value.0.users.Keys >= d.users.Keys && |r.value.1| == |tasks|
  {
    if tasks == [] then Ok((d, []))
    else
      match CommitAll(d, kind, tasks[..|tasks| - 1], env)
      case Err(e) => Err(e)
      case Ok((d1, recs)) =>
        var t := tasks[|tasks| - 1];
        match CommitRow(d1, kind, t.row, t.actor, env, t.newId)
        case Err(e) => Err(e)
        case Ok((d2, rec)) => Ok((d2, recs + [rec]))
  }

  /** The order names records whose linked entities exist. */
  predicate Applicable(d: Directory, recs: seq<Record>, order: seq<nat>) {
    forall i :: 0 <= i < |order| ==> order[i] < |recs| && Linked(d, recs[order[i]])
  }

  /** The records reversed in the given order; the result also tells which were undone. */
  function ReverseAll(d: Directory, recs: seq<Record>, order: seq<nat>, actor: Uuid, env: Env)
    : (r: Result<(Directory, set<nat>), ServiceError>)
    requires Applicable(d, recs, order)
    ensures r.Ok? ==> Larger(d, r.value.0)
  {
    if order == [] then Ok((d, {}))
    else
      match ReverseAll(d, recs, order[..|order| - 1], actor, env)
      case Err(e) => Err(e)
      case Ok((d1, done)) =>
        var k := order[|order| - 1];
        assert Linked(d, recs[order[|order| - 1]]);
        match ReverseRow(d1, recs[k], actor, env)
        case Err(e) => Err(e)
        case Ok(None) => Ok((d1, done))
        case Ok(Some(d2)) => Ok((d2, done + {k}))
  }

  /** Rows and users are never deleted. */
  predicate Larger(d: Directory, d': Directory) {
    && d'.users.Keys >= d.users.Keys && |d'.members| >= |d.members|
    && |d'.roles| >= |d.roles| && |d'.lines| >= |d.lines|
  }

  // ------------------------------------------------------------- one committed row

  /** In `d` the record's entity is `e` and still what the row produced; undoing it would
      give the entity the value `w`. */
  ghost predicate Tracks(d: Directory, rec: Record, e: Entity, w: Worth) {
    && rec.link != NoLink && Linked(d, rec) && Sound(rec) && EntityOf(d, rec) == Some(e)
    && StillProduced(d, rec) && UndoneWorth(d, rec) == w
  }

  /** A committed row tracks its target, and undoing it at once would bring the old value back. */
  ghost predicate RowApplied(d: Directory, d': Directory, rec: Record, e: Option<Entity>) {
    && ValidDirectory(d')
    && (rec.link == NoLink ==> d' == d)
    && (rec.link != NoLink ==>
          && e.Some? && Only(d, d', e.value) && Linked(d', rec)
          && Tracks(d', rec, e.value, UndoneWorth(d', rec))
          && (rec.row.action != Creating ==> UndoneWorth(d', rec) == Look(d, e.value)))
  }

  lemma {:induction false} CommitRowEffect(d: Directory, kind: ImportType, t: Task, env: Env)
    requires ValidDirectory(d) && Fits(d, kind, t.row) && t.newId !in d.users
    ensures match CommitRow(d, kind, t.row, t.actor, env, t.newId)
            case Err(e) => e == ViewerDisabled && kind == RoleRows && !env.viewerEnabled
            case Ok((d', rec)) => RowApplied(d, d', rec, Target(kind, t.row, t.newId))
  {
    match kind
    case UserRows => CommitUserEffect(d, t, env);
    case DeactivationRows => CommitDeactivationEffect(d, t, env);
    case MembershipRows => CommitMembershipEffect(d, t, env);
    case RoleRows => CommitRoleEffect(d, t, env);
    case ReportingRows => CommitReportingEffect(d, t, env);
  }

  lemma {:induction false} OneUserChanged(d: Directory, id: Uuid, u: User)
    requires ValidDirectory(d) && u.standing == StandingOf(u.active)
    ensures var d' := d.(users := d.users[id := u]);
            ValidDirectory(d') && Only(d, d', UserOf(id)) && Look(d', UserOf(id)) == WorthOf(u)
  {
  }

  lemma {:induction false} CommitUserEffect(d: Directory, t: Task, env: Env)
    requires ValidDirectory(d) && Fits(d, UserRows, t.row) && t.newId !in d.users
    ensures var r := CommitUser(d, t.row, env, t.newId);
            r.Ok? && RowApplied(d, r.value.0, r.value.1, Target(UserRows, t.row, t.newId))
  {
    if t.row.action == Creating {
      CommitCreateEffect(d, t, env);
    } else if t.row.identity.Some? {
      if t.row.action == Updating {
        CommitUpdateEffect(d, t, env);
      } else if t.row.action == Reactivating {
        CommitReactivateEffect(d, t, env);
      }
    }
  }

  lemma {:induction false} CommitCreateEffect(d: Directory, t: Task, env: Env)
    requires ValidDirectory(d) && Fits(d, UserRows, t.row) && t.row.action == Creating && t.newId !in d.users
    ensures var r := CommitUser(d, t.row, env, t.newId);
            r.Ok? && RowApplied(d, r.value.0, r.value.1, Some(UserOf(t.newId)))
  {
    var r := CommitUser(d, t.row, env, t.newId).value;
    if r.1.link != NoLink {
      OneUserChanged(d, t.newId, r.0.users[t.newId]);
    }
  }

  lemma {:induction false} CommitUpdateEffect(d: Directory, t: Task, env: Env)
    requires ValidDirectory(d) && t.row.action == Updating && t.row.identity.Some? && t.row.identity.value in d.users
    ensures var r := CommitUser(d, t.row, env, t.newId);
            r.Ok? && RowApplied(d, r.value.0, r.value.1, Some(UserOf(t.row.identity.value)))
  {
    var id := t.row.identity.value;
    var u, v := d.users[id], t.row.values;
    OneUserChanged(d, id, Changed(u, v));
    assert WorthOf(Restored(Changed(u, v), OldFields(u, v))) == WorthOf(u);
  }

  lemma {:induction false} CommitReactivateEffect(d: Directory, t: Task, env: Env)
    requires ValidDirectory(d) && t.row.action == Reactivating && t.row.identity.Some?
    requires t.row.identity.value in d.users
    ensures var r := CommitUser(d, t.row, env, t.newId);
            r.Ok? && RowApplied(d, r.value.0, r.value.1, Some(UserOf(t.row.identity.value)))
  {
    var id := t.row.identity.value;
    OneUserChanged(d, id, d.users[id].(active := true, standing := ActiveStanding, disabledAt := None));
  }

  lemma {:induction false} CommitDeactivationEffect(d: Directory, t: Task, env: Env)
    requires ValidDirectory(d) && Fits(d, DeactivationRows, t.row)
    ensures var r := CommitDeactivation(d, t.row, t.actor, env);
            r.Ok? && RowApplied(d, r.value.0, r.value.1, Target(DeactivationRows, t.row, t.newId))
  {
  }

  lemma {:induction false} CommitMembershipEffect(d: Directory, t: Task, env: Env)
    requires ValidDirectory(d) && Fits(d, MembershipRows, t.row)
    ensures var r := CommitMembership(d, t.row, env);
            r.Ok? && RowApplied(d, r.value.0, r.value.1, Target(MembershipRows, t.row, t.newId))
  {
    if t.row.identity.Some? {
      var k := MemberKey(t.row.values.team, t.row.identity.value);
      var current := Find(d.members, k);
      if current.Some? {
        EndMemberEffect(d, k, current.value, env.now);
      } else {
        AddMemberEffect(d, k, env.now);
      }
    }
  }

  lemma {:induction false} CommitRoleEffect(d: Directory, t: Task, env: Env)
    requires ValidDirectory(d) && Fits(d, RoleRows, t.row)
    ensures var r := CommitRole(d, t.row, t.actor, env);
            && (r.Err? ==> r.error == ViewerDisabled && !env.viewerEnabled)
            && (r.Ok? ==> RowApplied(d, r.value.0, r.value.1, Target(RoleRows, t.row, t.newId)))
  {
    if t.row.identity.Some? {
      var k := RoleKey(t.row.identity.value, t.row.values.role, t.row.values.scope);
      var current := Find(d.roles, k);
      if current.Some? {
        if EndRole(d, current.value, t.actor, env.now).Ok? {
          EndRoleEffect(d, k, current.value, t.actor, env.now);
        }
      } else if AssignRole(d, k, t.actor, env.now, env.viewerEnabled).Ok? {
        AssignRoleEffect(d, k, t.actor, env.now, env.viewerEnabled);
      }
    }
  }

  lemma {:induction false} CommitReportingEffect(d: Directory, t: Task, env: Env)
    requires ValidDirectory(d) && Fits(d, ReportingRows, t.row)
    ensures var r := CommitReporting(d, t.row, env);
            r.Ok? && RowApplied(d, r.value.0, r.value.1, Target(ReportingRows, t.row, t.newId))
  {
    if t.row.identity.Some? {
      if t.row.values.supervisor != t.row.identity.value {
        SetLineEffect(d, t.row.identity.value, t.row.values.supervisor, env.now);
      }
    }
  }

  /** A change to another entity leaves the record as undoable as before. */
  lemma {:induction false} TracksKept(d: Directory, d': Directory, other: Entity, rec: Record, e: Entity, w: Worth)
    requires ValidDirectory(d) && ValidDirectory(d') && Only(d, d', other) && other != e && Tracks(d, rec, e, w)
    ensures Tracks(d', rec, e, w)
  {
    match rec.link
    case UserLink(_) =>
    case MemberLink(i) =>
      OtherKeysSame(d.members, d'.members, if other.MemberOf? then Some(other.member) else None, d.members[i].key);
    case RoleLink(i) =>
      OtherKeysSame(d.roles, d'.roles, if other.RoleOf? then Some(other.role) else None, d.roles[i].key);
    case LineLink(i) =>
  }

  lemma {:induction false} RaisesKept(d: Directory, d': Directory, rec: Record, e: Entity, actor: Uuid, env: Env)
    requires Linked(d, rec) && Linked(d', rec) && EntityOf(d, rec) == Some(e) && EntityOf(d', rec) == Some(e)
    ensures Raises(d, rec, actor, env) <==> Raises(d', rec, actor, env)
  {
  }

  // ------------------------------------------------------------------ whole commit

  ghost predicate FreshIds(d: Directory, tasks: seq<Task>) {
    && (forall i :: 0 <= i < |tasks| ==> tasks[i].newId !in d.users)
    && (forall i, j :: 0 <= i < j < |tasks| ==> tasks[i].newId != tasks[j].newId)
  }

  function TaskTarget(kind: ImportType, t: Task): Option<Entity> {
    Target(kind, t.row, t.newId)
  }

  /** Rows of one file act on distinct entities. */
  ghost predicate DistinctTargets(kind: ImportType, tasks: seq<Task>) {
    forall i, j :: 0 <= i < j < |tasks| && TaskTarget(kind, tasks[i]).Some? ==>
      TaskTarget(kind, tasks[i]) != TaskTarget(kind, tasks[j])
  }

  /** The entity each linked record acts on. */
  function Entities(kind: ImportType, tasks: seq<Task>, recs: seq<Record>): (es: seq<Option<Entity>>)
    requires |recs| <= |tasks|
    ensures |es| == |recs|
    ensures forall i :: 0 <= i < |recs| ==> es[i] == if recs[i].link == NoLink then None else TaskTarget(kind, tasks[i])
  {
    seq(|recs|, i requires 0 <= i < |recs| => if recs[i].link == NoLink then None else TaskTarget(kind, tasks[i]))
  }

  /** Each linked record tracks its entity, with the value undoing it would give. */
  ghost predicate Tracked(d: Directory, recs: seq<Record>, es: seq<Option<Entity>>, ws: seq<Worth>) {
    && |es| == |recs| && |ws| == |recs|
    && (forall i :: 0 <= i < |recs| ==> (es[i].Some? <==> recs[i].link != NoLink))
    && (forall i :: 0 <= i < |recs| && es[i].Some? ==> Tracks(d, recs[i], es[i].value, ws[i]))
  }

  /** Entities that are no record's entity look the same in both directories. */
  ghost predicate OthersSame(d: Directory, d': Directory, es: seq<Option<Entity>>) {
    forall e :: Some(e) !in es ==> Look(d', e) == Look(d, e)
  }

  /** The values undoing would give are the values before the commit. */
  ghost predicate OldValues(d: Directory, recs: seq<Record>, es: seq<Option<Entity>>, ws: seq<Worth>)
    requires |es| == |recs| && |ws| == |recs|
  {
    forall i :: 0 <= i < |recs| && es[i].Some? && recs[i].row.action != Creating ==> ws[i] == Look(d, es[i].value)
  }

  /** What a commit from `d` to `d'` leaves behind. */
  ghost predicate AllApplied(d: Directory, d': Directory, kind: ImportType, tasks: seq<Task>, recs: seq<Record>,
                             ws: seq<Worth>) {
    && |recs| == |tasks| && |ws| == |recs|
    && ValidDirectory(d')
    && (var es := Entities(kind, tasks, recs);
        Tracked(d', recs, es, ws) && OldValues(d, recs, es, ws) && OthersSame(d, d', es))
    && (forall i :: 0 <= i < |recs| ==> recs[i].row == tasks[i].row)
    && (forall u :: u in d'.users ==> u in d.users || Issued(tasks, u))
  }

  /** A commit leaves every linked record undoable to its entity's old value, and every other
      entity as it was. */
  lemma {:induction false} CommitAllEffect(d: Directory, kind: ImportType, tasks: seq<Task>, env: Env)
    returns (ws: seq<Worth>)
    requires ValidDirectory(d) && AllFit(d, kind, tasks) && FreshIds(d, tasks) && DistinctTargets(kind, tasks)
    requires CommitAll(d, kind, tasks, env).Ok?
    ensures var (d', recs) := CommitAll(d, kind, tasks, env).value;
            AllApplied(d, d', kind, tasks, recs, ws)
  {
    ws := [];
    if tasks != [] {
      var n := |tasks| - 1;
      var t := tasks[n];
      var before := CommitAllEffect(d, kind, tasks[..n], env);
      var (d1, recs) := CommitAll(d, kind, tasks[..n], env).value;
      assert t.newId !in d1.users;
      CommitRowEffect(d1, kind, t, env);
      var (d2, rec) := CommitRow(d1, kind, t.row, t.actor, env, t.newId).value;
      ws := before + [if rec.link == NoLink then Absent else UndoneWorth(d2, rec)];
      OneMoreTask(d, d1, d2, kind, tasks, recs, rec, before, ws[n]);
      assert CommitAll(d, kind, tasks, env).value == (d2, recs + [rec]);
    }
  }

  lemma {:induction false} OneMoreTask(d: Directory, d1: Directory, d2: Directory, kind: ImportType, tasks: seq<Task>,
                                       recs: seq<Record>, rec: Record, ws: seq<Worth>, w: Worth)
    requires tasks != [] && FreshIds(d, tasks) && DistinctTargets(kind, tasks)
    requires var n := |tasks| - 1;
             && ValidDirectory(d1) && AllApplied(d, d1, kind, tasks[..n], recs, ws)
             && Fits(d1, kind, tasks[n].row) && rec.row == tasks[n].row
             && RowApplied(d1, d2, rec, TaskTarget(kind, tasks[n]))
             && (rec.link != NoLink ==> w == UndoneWorth(d2, rec))
    ensures AllApplied(d, d2, kind, tasks, recs + [rec], ws + [w])
  {
    var n := |tasks| - 1;
    assert forall u :: Issued(tasks[..n], u) ==> Issued(tasks, u);
    assert Issued(tasks, tasks[n].newId);
    if rec.link == NoLink {
      OneMoreUnlinked(d, d1, kind, tasks, recs, rec, ws, w);
    } else {
      OneMoreLinked(d, d1, d2, kind, tasks, recs, rec, ws, w);
      UsersOnlyTarget(d1, d2, kind, tasks[n], TaskTarget(kind, tasks[n]).value);
    }
  }

  lemma {:induction false} OneMoreUnlinked(d: Directory, d1: Directory, kind: ImportType, tasks: seq<Task>,
                                           recs: seq<Record>, rec: Record, ws: seq<Worth>, w: Worth)
    requires tasks != [] && AllApplied(d, d1, kind, tasks[..|tasks| - 1], recs, ws) && rec.link == NoLink
    ensures var es' := Entities(kind, tasks, recs + [rec]);
            && Tracked(d1, recs + [rec], es', ws + [w]) && OldValues(d, recs + [rec], es', ws + [w])
                && OthersSame(d, d1, es')
  {
    var es := Entities(kind, tasks[..|tasks| - 1], recs);
    assert Entities(kind, tasks, recs + [rec]) == es + [None];
    assert forall x: Entity :: Some(x) in es ==> Some(x) in es + [None];
  }

  lemma {:induction false} OneMoreLinked(d: Directory, d1: Directory, d2: Directory, kind: ImportType, tasks: seq<Task>,
                                         recs: seq<Record>, rec: Record, ws: seq<Worth>, w: Worth)
    requires tasks != [] && DistinctTargets(kind, tasks) && ValidDirectory(d1)
    requires AllApplied(d, d1, kind, tasks[..|tasks| - 1], recs, ws) && rec.link != NoLink
    requires RowApplied(d1, d2, rec, TaskTarget(kind, tasks[|tasks| - 1])) && w == UndoneWorth(d2, rec)
    ensures var es' := Entities(kind, tasks, recs + [rec]);
            && Tracked(d2, recs + [rec], es', ws + [w]) && OldValues(d, recs + [rec], es', ws + [w])
                && OthersSame(d, d2, es')
  {
    var n := |tasks| - 1;
    var es := Entities(kind, tasks[..n], recs);
    var es' := Entities(kind, tasks, recs + [rec]);
    var e := TaskTarget(kind, tasks[n]).value;
    assert es' == es + [Some(e)];
    NotEarlier(kind, tasks, recs, e);
    OneMoreTracked(d1, d2, recs, es, ws, e);
    OldValueOfLast(d, d1, d2, es, rec, e, w);
    forall x | Some(x) !in es' ensures Look(d2, x) == Look(d, x) {
      assert es'[n] == Some(e);
      assert Some(x) !in es;
      OthersLookSame(d1, d2, e, x);
    }
  }

  lemma {:induction false} NotEarlier(kind: ImportType, tasks: seq<Task>, recs: seq<Record>, e: Entity)
    requires tasks != [] && |recs| == |tasks| - 1 && DistinctTargets(kind, tasks)
    requires TaskTarget(kind, tasks[|tasks| - 1]) == Some(e)
    ensures Some(e) !in Entities(kind, tasks[..|tasks| - 1], recs)
  {
    var n := |tasks| - 1;
    var es := Entities(kind, tasks[..n], recs);
    forall i | 0 <= i < n ensures es[i] != Some(e) {
      assert es[i] == None || es[i] == TaskTarget(kind, tasks[i]);
    }
  }

  lemma {:induction false} OldValueOfLast(d: Directory, d1: Directory, d2: Directory, es: seq<Option<Entity>>,
                                          rec: Record, e: Entity, w: Worth)
    requires OthersSame(d, d1, es) && Some(e) !in es && rec.link != NoLink && RowApplied(d1, d2, rec, Some(e))
    requires w == UndoneWorth(d2, rec)
    ensures Tracks(d2, rec, e, w) && (rec.row.action != Creating ==> w == Look(d, e))
  {
  }

  ghost predicate Issued(tasks: seq<Task>, u: Uuid) {
    exists i :: 0 <= i < |tasks| && tasks[i].newId == u
  }

  lemma {:induction false} UsersOnlyTarget(d1: Directory, d2: Directory, kind: ImportType, t: Task, e: Entity)
    requires Only(d1, d2, e) && TaskTarget(kind, t) == Some(e) && Fits(d1, kind, t.row)
    ensures forall u :: u in d2.users ==> u in d1.users || u == t.newId
  {
  }

  lemma {:induction false} OneMoreTracked(d1: Directory, d2: Directory, recs: seq<Record>, es: seq<Option<Entity>>,
                                          ws: seq<Worth>, e: Entity)
    requires ValidDirectory(d1) && ValidDirectory(d2) && Only(d1, d2, e)
    requires Tracked(d1, recs, es, ws) && Some(e) !in es
    ensures Tracked(d2, recs, es, ws)
  {
    forall i | 0 <= i < |recs| && es[i].Some? ensures Tracks(d2, recs[i], es[i].value, ws[i]) {
      assert es[i] in es;
      TracksKept(d1, d2, e, recs[i], es[i].value, ws[i]);
    }
  }

  // ---------------------------------------------------------------- whole reversal

  /** The order covers exactly the linked records, each once; the query that feeds the
      reversal has no ordering of its own. */
  ghost predicate CoversLinked(recs: seq<Record>, order: seq<nat>) {
    && (forall i :: 0 <= i < |order| ==> order[i] < |recs| && recs[order[i]].link != NoLink)
    && (forall k :: 0 <= k < |recs| && recs[k].link != NoLink ==> k in order)
    && (forall i, j :: 0 <= i < j < |order| ==> order[i] != order[j])
  }

  ghost predicate DistinctEntities(es: seq<Option<Entity>>) {
    forall i, j :: 0 <= i < j < |es| && es[i].Some? ==> es[i] != es[j]
  }

  /** After reversing the records in `done`, their entities are undone and the rest is as it was. */
  ghost predicate PartlyUndone(d: Directory, d': Directory, recs: seq<Record>, es: seq<Option<Entity>>, ws: seq<Worth>,
                               done: set<nat>)
    requires |es| == |recs| && |ws| == |recs|
  {
    && ValidDirectory(d') && Larger(d, d') && OthersSame(d, d', es)
    && (forall k :: 0 <= k < |recs| && es[k].Some? && k !in done ==> Tracks(d', recs[k], es[k].value, ws[k]))
    && (forall k :: 0 <= k < |recs| && es[k].Some? && k in done ==> Look(d', es[k].value) == ws[k])
  }

  lemma {:induction false} UndoOneMore(d: Directory, d1: Directory, recs: seq<Record>, es: seq<Option<Entity>>,
                                       ws: seq<Worth>, done: set<nat>, k: nat, actor: Uuid, env: Env)
    requires Tracked(d, recs, es, ws) && DistinctEntities(es) && PartlyUndone(d, d1, recs, es, ws, done)
    requires k < |recs| && es[k].Some? && k !in done
    ensures Linked(d, recs[k]) && Linked(d1, recs[k])
    ensures ReverseRow(d1, recs[k], actor, env).Err? <==> Raises(d, recs[k], actor, env)
    ensures var r := ReverseRow(d1, recs[k], actor, env);
            r.Ok? ==> r.value.Some? && PartlyUndone(d, r.value.value, recs, es, ws, done + {k})
  {
    var e := es[k].value;
    RaisesKept(d, d1, recs[k], e, actor, env);
    ReversalNeverClobbers(d1, recs[k], actor, env);
    ReverseRowGrows(d1, recs[k], actor, env);
    var r := ReverseRow(d1, recs[k], actor, env);
    if r.Ok? {
      UndoneOneMore(d, d1, r.value.value, recs, es, ws, done, k);
    }
  }

  lemma {:induction false} UndoneOneMore(d: Directory, d1: Directory, d2: Directory, recs: seq<Record>,
                                         es: seq<Option<Entity>>, ws: seq<Worth>, done: set<nat>, k: nat)
    requires Tracked(d, recs, es, ws) && DistinctEntities(es) && PartlyUndone(d, d1, recs, es, ws, done)
    requires k < |recs| && es[k].Some? && k !in done
    requires ValidDirectory(d2) && Larger(d1, d2) && Only(d1, d2, es[k].value) && Look(d2, es[k].value) == ws[k]
    ensures PartlyUndone(d, d2, recs, es, ws, done + {k})
  {
    var e := es[k].value;
    forall j | 0 <= j < |recs| && es[j].Some? && j !in done + {k} ensures Tracks(d2, recs[j], es[j].value, ws[j]) {
      TracksKept(d1, d2, e, recs[j], es[j].value, ws[j]);
    }
    forall j | 0 <= j < |recs| && es[j].Some? && j in done ensures Look(d2, es[j].value) == ws[j] {
      OthersLookSame(d1, d2, e, es[j].value);
    }
    forall x | Some(x) !in es ensures Look(d2, x) == Look(d, x) {
      assert es[k] in es;
      OthersLookSame(d1, d2, e, x);
    }
  }

  lemma {:induction false} ReverseRowGrows(d: Directory, rec: Record, actor: Uuid, env: Env)
    requires Linked(d, rec)
    ensures var r := ReverseRow(d, rec, actor, env); r.Ok? && r.value.Some? ==> Larger(d, r.value.value)
  {
  }

  ghost predicate SomeRaises(d: Directory, recs: seq<Record>, order: seq<nat>, actor: Uuid, env: Env)
    requires Applicable(d, recs, order)
  {
    exists i :: 0 <= i < |order| && RaisesAt(d, recs, order, i, actor, env)
  }

  ghost predicate RaisesAt(d: Directory, recs: seq<Record>, order: seq<nat>, i: nat, actor: Uuid, env: Env)
    requires Applicable(d, recs, order) && i < |order|
  {
    assert Linked(d, recs[order[i]]);
    Raises(d, recs[order[i]], actor, env)
  }

  lemma {:induction false} LinkedOrder(d: Directory, recs: seq<Record>, es: seq<Option<Entity>>, ws: seq<Worth>,
                                       order: seq<nat>)
    requires Tracked(d, recs, es, ws)
    requires forall i :: 0 <= i < |order| ==> order[i] < |recs| && es[order[i]].Some?
    ensures Applicable(d, recs, order)
  {
    forall i | 0 <= i < |order| ensures Linked(d, recs[order[i]]) {
      assert Tracks(d, recs[order[i]], es[order[i]].value, ws[order[i]]);
    }
  }

  function Members(order: seq<nat>): set<nat> {
    set k | k in order
  }

  ghost predicate NoRepeats(order: seq<nat>) {
    forall i, j :: 0 <= i < j < |order| ==> order[i] != order[j]
  }

  lemma {:induction false} ReverseAllEffect(d: Directory, recs: seq<Record>, es: seq<Option<Entity>>, ws: seq<Worth>,
                                            order: seq<nat>, actor: Uuid, env: Env)
    requires ValidDirectory(d) && Tracked(d, recs, es, ws) && DistinctEntities(es) && NoRepeats(order)
    requires forall i :: 0 <= i < |order| ==> order[i] < |recs| && es[order[i]].Some?
    ensures Applicable(d, recs, order)
    ensures var r := ReverseAll(d, recs, order, actor, env);
            && (r.Err? <==> SomeRaises(d, recs, order, actor, env))
            && (r.Ok? ==> r.value.1 == Members(order) && PartlyUndone(d, r.value.0, recs, es, ws, r.value.1))
  {
    LinkedOrder(d, recs, es, ws, order);
    if order != [] {
      var before := order[..|order| - 1];
      ReverseAllEffect(d, recs, es, ws, before, actor, env);
      var r := ReverseAll(d, recs, before, actor, env);
      RaisesInPrefix(d, recs, order, actor, env);
      if r.Ok? {
        ReverseOneMore(d, recs, es, ws, order, r.value.0, actor, env);
      }
    }
  }

  lemma {:induction false} ReverseOneMore(d: Directory, recs: seq<Record>, es: seq<Option<Entity>>, ws: seq<Worth>,
                                          order: seq<nat>, d1: Directory, actor: Uuid, env: Env)
    requires Tracked(d, recs, es, ws) && DistinctEntities(es) && NoRepeats(order) && order != []
    requires forall i :: 0 <= i < |order| ==> order[i] < |recs| && es[order[i]].Some?
    requires Applicable(d, recs, order)
    requires ReverseAll(d, recs, order[..|order| - 1], actor, env) == Ok((d1, Members(order[..|order| - 1])))
    requires PartlyUndone(d, d1, recs, es, ws, Members(order[..|order| - 1]))
    ensures var r := ReverseAll(d, recs, order, actor, env);
            && (r.Err? <==> RaisesAt(d, recs, order, |order| - 1, actor, env))
            && (r.Ok? ==> r.value.1 == Members(order) && PartlyUndone(d, r.value.0, recs, es, ws, r.value.1))
  {
    var before, k := order[..|order| - 1], order[|order| - 1];
    MembersGrow(order);
    UndoOneMore(d, d1, recs, es, ws, Members(before), k, actor, env);
    var one := ReverseRow(d1, recs[k], actor, env);
    assert ReverseAll(d, recs, order, actor, env)
        == match one
           case Err(e) => Err(e)
           case Ok(None) => Ok((d1, Members(before)))
           case Ok(Some(d2)) => Ok((d2, Members(before) + {k}));
  }

  lemma {:induction false} MembersGrow(order: seq<nat>)
    requires order != [] && NoRepeats(order)
    ensures var before, k := order[..|order| - 1], order[|order| - 1];
            Members(order) == Members(before) + {k} && k !in Members(before)
  {
    assert order == order[..|order| - 1] + [order[|order| - 1]];
  }

  lemma {:induction false} RaisesInPrefix(d: Directory, recs: seq<Record>, order: seq<nat>, actor: Uuid, env: Env)
    requires order != [] && Applicable(d, recs, order)
    ensures Applicable(d, recs, order[..|order| - 1])
    ensures SomeRaises(d, recs, order, actor, env) <==>
              SomeRaises(d, recs, order[..|order| - 1], actor, env) || RaisesAt(d, recs, order, |order| - 1, actor, env)
  {
    var before := order[..|order| - 1];
    assert forall i :: 0 <= i < |before| ==> before[i] == order[i];
    assert forall i :: 0 <= i < |before| ==>
      (RaisesAt(d, recs, before, i, actor, env) <==> RaisesAt(d, recs, order, i, actor, env));
  }

  /** The main result. With nothing in between, reversing a committed job in any row order
      gives every entity that existed before the commit its old value back. The reversal
      goes through unless one of its rows would raise for this reverser. */
  lemma {:induction false} ReversalUndoesCommit(d: Directory, kind: ImportType, tasks: seq<Task>, env: Env,
                                order: seq<nat>, actor: Uuid, later: Env)
    requires ValidDirectory(d) && AllFit(d, kind, tasks) && FreshIds(d, tasks) && DistinctTargets(kind, tasks)
    requires CommitAll(d, kind, tasks, env).Ok? && CoversLinked(CommitAll(d, kind, tasks, env).value.1, order)
    ensures var (d1, recs) := CommitAll(d, kind, tasks, env).value;
            && Applicable(d1, recs, order)
            && var r := ReverseAll(d1, recs, order, actor, later);
               && (r.Err? <==> SomeRaises(d1, recs, order, actor, later))
               && (r.Ok? ==>
                     && r.value.1 == Members(order)
                     && ValidDirectory(r.value.0)
                     && forall e :: Look(d, e) != Absent ==> Look(r.value.0, e) == Look(d, e))
  {
    var ws := CommitAllEffect(d, kind, tasks, env);
    var (d1, recs) := CommitAll(d, kind, tasks, env).value;
    var es := Entities(kind, tasks, recs);
    DistinctTargetsDistinctEntities(kind, tasks, recs);
    ReverseAllEffect(d1, recs, es, ws, order, actor, later);
    var r := ReverseAll(d1, recs, order, actor, later);
    if r.Ok? {
      forall e | Look(d, e) != Absent ensures Look(r.value.0, e) == Look(d, e) {
        BackToBefore(d, d1, r.value.0, kind, tasks, recs, ws, order, e);
      }
    }
  }

  lemma {:induction false} DistinctTargetsDistinctEntities(kind: ImportType, tasks: seq<Task>, recs: seq<Record>)
    requires DistinctTargets(kind, tasks) && |recs| == |tasks|
    ensures DistinctEntities(Entities(kind, tasks, recs))
  {
    var es := Entities(kind, tasks, recs);
    forall i, j | 0 <= i < j < |es| && es[i].Some? ensures es[i] != es[j] {
      assert es[i] == TaskTarget(kind, tasks[i]);
      assert es[j] == None || es[j] == TaskTarget(kind, tasks[j]);
    }
  }

  lemma {:induction false} BackToBefore(d: Directory, d1: Directory, d2: Directory, kind: ImportType, tasks: seq<Task>,
                                        recs: seq<Record>, ws: seq<Worth>, order: seq<nat>, e: Entity)
    requires FreshIds(d, tasks) && AllFit(d, kind, tasks) && AllApplied(d, d1, kind, tasks, recs, ws)
    requires CoversLinked(recs, order) && PartlyUndone(d1, d2, recs, Entities(kind, tasks, recs), ws, Members(order))
    requires Look(d, e) != Absent
    ensures Look(d2, e) == Look(d, e)
  {
    var es := Entities(kind, tasks, recs);
    if Some(e) in es {
      var i :| 0 <= i < |es| && es[i] == Some(e);
      assert recs[i].link != NoLink && i in order && Look(d2, e) == ws[i];
      assert recs[i].row == tasks[i].row;
      if recs[i].row.action == Creating {
        CreatedWasAbsent(d, kind, tasks, i);
      }
    }
  }

  lemma {:induction false} CreatedWasAbsent(d: Directory, kind: ImportType, tasks: seq<Task>, i: nat)
    requires AllFit(d, kind, tasks) && FreshIds(d, tasks) && i < |tasks|
    requires TaskTarget(kind, tasks[i]).Some? && tasks[i].row.action == Creating
    ensures Look(d, TaskTarget(kind, tasks[i]).value) == Absent
  {
    assert Fits(d, kind, tasks[i].row);
  }

  // ------------------------------------------------------- when nothing stands in the way

  /** With the viewer role enabled a commit never fails as a whole. */
  lemma {:induction false} CommitGoesThrough(d: Directory, kind: ImportType, tasks: seq<Task>, env: Env)
    requires ValidDirectory(d) && AllFit(d, kind, tasks) && FreshIds(d, tasks) && DistinctTargets(kind, tasks)
    requires env.viewerEnabled
    ensures CommitAll(d, kind, tasks, env).Ok?
  {
    if tasks != [] {
      var n := |tasks| - 1;
      CommitGoesThrough(d, kind, tasks[..n], env);
      ReadyForLast(d, kind, tasks, env);
      CommitRowEffect(CommitAll(d, kind, tasks[..n], env).value.0, kind, tasks[n], env);
    }
  }

  lemma {:induction false} ReadyForLast(d: Directory, kind: ImportType, tasks: seq<Task>, env: Env)
    requires ValidDirectory(d) && AllFit(d, kind, tasks) && FreshIds(d, tasks) && DistinctTargets(kind, tasks)
    requires tasks != [] && CommitAll(d, kind, tasks[..|tasks| - 1], env).Ok?
    ensures var t := tasks[|tasks| - 1];
            var d1 := CommitAll(d, kind, tasks[..|tasks| - 1], env).value.0;
            ValidDirectory(d1) && Fits(d1, kind, t.row) && t.newId !in d1.users
  {
    var ws := CommitAllEffect(d, kind, tasks[..|tasks| - 1], env);
    assert Fits(d, kind, tasks[|tasks| - 1].row);
  }

  /** The user is neither named by a row nor created by one. */
  ghost predicate Outside(actor: Uuid, tasks: seq<Task>) {
    forall i :: 0 <= i < |tasks| ==> tasks[i].row.identity != Some(actor) && tasks[i].newId != actor
  }

  /** A reverser outside the job meets no error, unless a viewer role would have to be granted
      while that flag is off. */
  lemma {:induction false} OutsiderReverses(d: Directory, kind: ImportType, tasks: seq<Task>, env: Env,
                                            order: seq<nat>, actor: Uuid, later: Env)
    requires ValidDirectory(d) && AllFit(d, kind, tasks) && FreshIds(d, tasks) && DistinctTargets(kind, tasks)
    requires CommitAll(d, kind, tasks, env).Ok? && CoversLinked(CommitAll(d, kind, tasks, env).value.1, order)
    requires Outside(actor, tasks) && later.viewerEnabled
    ensures var (d1, recs) := CommitAll(d, kind, tasks, env).value;
            Applicable(d1, recs, order) && !SomeRaises(d1, recs, order, actor, later)
  {
    var ws := CommitAllEffect(d, kind, tasks, env);
    var (d1, recs) := CommitAll(d, kind, tasks, env).value;
    var es := Entities(kind, tasks, recs);
    LinkedOrder(d1, recs, es, ws, order);
    forall i | 0 <= i < |order| ensures !RaisesAt(d1, recs, order, i, actor, later) {
      var k := order[i];
      assert Tracks(d1, recs[k], es[k].value, ws[k]);
      OutsiderRow(d, d1, kind, tasks[k], recs[k], ws[k], actor, later);
    }
  }

  lemma {:induction false} OutsiderRow(d: Directory, d1: Directory, kind: ImportType, t: Task, rec: Record, w: Worth,
                                       actor: Uuid, later: Env)
    requires ValidDirectory(d) && Fits(d, kind, t.row) && rec.row == t.row && TaskTarget(kind, t).Some?
    requires var e := TaskTarget(kind, t).value;
             Tracks(d1, rec, e, w) && (rec.row.action != Creating ==> w == Look(d, e))
    requires t.row.identity != Some(actor) && t.newId != actor && later.viewerEnabled
    ensures !Raises(d1, rec, actor, later)
  {
    if rec.link.LineLink? {
      NoOwnSupervisor(d, d1.lines[rec.link.l].key);
    }
  }

  lemma {:induction false} NoOwnSupervisor(d: Directory, s: Uuid)
    requires ValidDirectory(d)
    ensures Value(d.lines, s) != Some(s)
  {
    if Find(d.lines, s).Some? {
      assert OpenAt(d.lines, s, Find(d.lines, s).value);
    }
  }
}
