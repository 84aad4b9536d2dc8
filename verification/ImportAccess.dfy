/** Who may reach a workforce import: the stored footprint, the single-job check and the
    list that resolves authority once for a whole batch of jobs. */
module ImportAccess {
  import opened Basics
  import opened Tables
  import opened Capabilities
  import opened Authz
  import opened BulkAuthority
  import opened ImportRows
  import UuidText

  // ---------------------------------------------------------- the stored footprint

  /** One part of a stored requirement. Capabilities and scope kinds are stored as the
      strings they already are; identifiers are stored as text. */
  datatype Part = Null | Text(text: string) | CapText(cap: Capability) | KindText(kind: ScopeKind)

  datatype Footprint = Footprint(overCap: bool, entries: seq<seq<Part>>)

  function IdText(id: Option<Uuid>): Part {
    if id.None? then Null else Text(UuidText.Print(id.value))
  }

  function Serialize(r: Requirement): seq<Part> {
    match r
    case Deny => [Text("deny")]
    case MayManage(u) => [Text("user"), IdText(Some(u))]
    case MayScope(cap, scope) => [Text("scope"), CapText(cap), KindText(scope.kind), IdText(scope.id)]
    case MayStaff(c) => [Text("campaign"), IdText(Some(c))]
  }

  function ReadId(p: Part): Option<Uuid> {
    if p.Text? then UuidText.Parse(p.text) else None
  }

  /** The inverse reader; `None` where the source raises. */
  function Deserialize(e: seq<Part>): Option<Requirement> {
    if e == [] then None
    else if e[0] == Text("deny") then Some(Deny)
    else if e[0] == Text("user") && |e| > 1 && ReadId(e[1]).Some? then Some(MayManage(ReadId(e[1]).value))
    else if e[0] == Text("scope") && |e| > 3 && e[1].CapText? && e[2].KindText? then
      if e[3] == Null then Some(MayScope(e[1].cap, Scope(e[2].kind, None)))
      else if ReadId(e[3]).Some? then Some(MayScope(e[1].cap, Scope(e[2].kind, ReadId(e[3]))))
      else None
    else if e[0] == Text("campaign") && |e| > 1 && ReadId(e[1]).Some? then Some(MayStaff(ReadId(e[1]).value))
    else None
  }

  /** Every requirement survives storage. */
  lemma {:induction false} StoredRequirementReadsBack(r: Requirement)
    ensures Deserialize(Serialize(r)) == Some(r)
  {
    match r
    case Deny =>
    case MayManage(u) => UuidText.PrintParses(u);
    case MayScope(_, scope) =>
      if scope.id.Some? {
        UuidText.PrintParses(scope.id.value);
      }
    case MayStaff(c) => UuidText.PrintParses(c);
  }

  /** The distinct requirements of a row sequence. */
  function DistinctRequirements(kind: ImportType, rows: seq<ImportRow>): set<Requirement> {
    set row | row in rows && RowRequirement(kind, row).Some? :: RowRequirement(kind, row).value
  }

  /** The footprint stands for the rows: over the cap it lists nothing, otherwise it lists
      exactly their distinct requirements. */
  ghost predicate StandsFor(fp: Footprint, kind: ImportType, rows: seq<ImportRow>, cap: nat) {
    && (fp.overCap <==> |DistinctRequirements(kind, rows)| > cap)
    && (fp.overCap ==> fp.entries == [])
    && (forall e :: e in fp.entries ==> Deserialize(e).Some?)
    && (!fp.overCap ==> forall r :: r in DistinctRequirements(kind, rows) <==>
        exists e :: e in fp.entries && Deserialize(e) == Some(r))
  }

  /** The parse loop's accumulation: requirements are collected until there are more than
      the cap, and from then on the footprint only says so. */
  method BuildFootprint(kind: ImportType, rows: seq<ImportRow>, cap: nat) returns (fp: Footprint)
    ensures StandsFor(fp, kind, rows, cap)
  {
    var found: set<Requirement> := {};
    var over := false;
    for i := 0 to |rows|
      invariant over ==> found == {} && |DistinctRequirements(kind, rows[..i])| > cap
      invariant !over ==> found == DistinctRequirements(kind, rows[..i]) && |found| <= cap
    {
      DistinctGrows(kind, rows, i);
      if !over {
        var requirement := RowRequirement(kind, rows[i]);
        if requirement.Some? {
          found := found + {requirement.value};
          if |found| > cap {
            over := true;
            found := {};
          }
        }
      }
    }
    assert rows[..|rows|] == rows;
    var entries := StoreRequirements(found);
    fp := Footprint(over, entries);
  }

  /** Serialize a set of requirements, in any order. */
  method StoreRequirements(found: set<Requirement>) returns (entries: seq<seq<Part>>)
    ensures found == {} ==> entries == []
    ensures forall e :: e in entries ==> Deserialize(e).Some? && Deserialize(e).value in found
    ensures forall r :: r in found ==> Serialize(r) in entries && Deserialize(Serialize(r)) == Some(r)
  {
    entries := [];
    var rest := found;
    while rest != {}
      invariant rest <= found && (found == {} ==> entries == [])
      invariant forall e :: e in entries ==> Deserialize(e).Some? && Deserialize(e).value in found
      invariant forall r :: r in found - rest ==> Serialize(r) in entries && Deserialize(Serialize(r)) == Some(r)
    {
      var r :| r in rest;
      StoredRequirementReadsBack(r);
      entries := entries + [Serialize(r)];
      rest := rest - {r};
    }
  }

  lemma {:induction false} DistinctGrows(kind: ImportType, rows: seq<ImportRow>, i: nat)
    requires i < |rows|
    ensures var r := RowRequirement(kind, rows[i]);
            DistinctRequirements(kind, rows[..i + 1]) ==
            DistinctRequirements(kind, rows[..i]) + if r.Some? then {r.value} else {}
    ensures |DistinctRequirements(kind, rows[..i])| <= |DistinctRequirements(kind, rows[..i + 1])|
  {
    var before, after := rows[..i], rows[..i + 1];
    forall r: Requirement
      ensures r in DistinctRequirements(kind, after) <==>
              r in DistinctRequirements(kind, before) || RowRequirement(kind, rows[i]) == Some(r)
    {
      OneMoreRow(kind, before, rows[i], r);
      assert after == before + [rows[i]];
    }
    Bigger(DistinctRequirements(kind, before), DistinctRequirements(kind, after));
  }

  lemma {:induction false} OneMoreRow(kind: ImportType, before: seq<ImportRow>, row: ImportRow, r: Requirement)
    ensures r in DistinctRequirements(kind, before + [row]) <==>
            r in DistinctRequirements(kind, before) || RowRequirement(kind, row) == Some(r)
  {
    assert forall x :: x in before + [row] <==> x in before || x == row;
  }

  lemma {:induction false} Bigger<T>(a: set<T>, b: set<T>)
    requires a <= b
    ensures |a| <= |b|
  {
    assert b == a + (b - a);
  }

  // ------------------------------------------------------------- the access check

  datatype JobState = Quarantined | Parsing | Parsed | Failed | Committed | Expired

  /** The part of a job an access decision reads. */
  datatype Job = Job(
    id: Uuid, uploader: Uuid, kind: ImportType, state: JobState,
    rows: seq<ImportRow>, footprint: Option<Footprint>)

  predicate Holds(a: Authority, now: int, actor: Uuid, r: Option<Requirement>) {
    match r
    case None => true
    case Some(Deny) => false
    case Some(MayManage(u)) => CanManage(a, now, actor, u)
    case Some(MayScope(cap, scope)) => HasScope(a, now, actor, cap, scope)
    case Some(MayStaff(c)) => HasCampaign(a, now, actor, AssignCampaignAgent, c)
  }

  predicate AllHold(a: Authority, now: int, actor: Uuid, rs: seq<Option<Requirement>>) {
    forall i :: 0 <= i < |rs| ==> Holds(a, now, actor, rs[i])
  }

  function ReadEntries(entries: seq<seq<Part>>): (r: seq<Option<Requirement>>)
    ensures |r| == |entries|
    ensures forall i :: 0 <= i < |entries| ==> r[i] == Deserialize(entries[i])
  {
    seq(|entries|, i requires 0 <= i < |entries| => Deserialize(entries[i]))
  }

  /** The requirements a non-uploader must meet, or `None` if no non-uploader may enter. */
  function AccessRequirements(job: Job): Option<seq<Option<Requirement>>> {
    if job.footprint.Some? && !job.footprint.value.overCap then Some(ReadEntries(job.footprint.value.entries))
    else if job.state != Parsed || job.rows == [] then None
    else Some(RowRequirements(job.kind, job.rows))
  }

  /** The single-job rule. */
  predicate CanAccess(a: Authority, now: int, actor: Uuid, job: Job) {
    || actor == job.uploader
    || (AccessRequirements(job).Some? && AllHold(a, now, actor, AccessRequirements(job).value))
  }

  /** Authority over every row, decided from the rows themselves. */
  predicate RowsHold(a: Authority, now: int, actor: Uuid, job: Job) {
    AllHold(a, now, actor, RowRequirements(job.kind, job.rows))
  }

  /** Deciding from the stored footprint equals deciding from all rows, except that a job
      over the cap becomes unreachable for non-uploaders once it is no longer `Parsed`. */
  lemma {:induction false} FootprintAgreesWithRows(a: Authority, now: int, actor: Uuid, job: Job, cap: nat)
    requires job.footprint.Some? && StandsFor(job.footprint.value, job.kind, job.rows, cap)
    requires job.rows != [] && actor != job.uploader
    ensures CanAccess(a, now, actor, job) <==>
            RowsHold(a, now, actor, job) && (job.footprint.value.overCap ==> job.state == Parsed)
  {
    var fp := job.footprint.value;
    var rs := RowRequirements(job.kind, job.rows);
    if !fp.overCap {
      var stored := ReadEntries(fp.entries);
      forall i | 0 <= i < |stored| && RowsHold(a, now, actor, job)
        ensures Holds(a, now, actor, stored[i])
      {
        assert fp.entries[i] in fp.entries;
        var r := Deserialize(fp.entries[i]).value;
        assert r in DistinctRequirements(job.kind, job.rows);
        var k :| 0 <= k < |job.rows| && RowRequirement(job.kind, job.rows[k]) == Some(r);
        assert Holds(a, now, actor, rs[k]);
      }
      forall k | 0 <= k < |rs| && AllHold(a, now, actor, stored)
        ensures Holds(a, now, actor, rs[k])
      {
        if rs[k].Some? {
          assert rs[k].value in DistinctRequirements(job.kind, job.rows);
          var e :| e in fp.entries && Deserialize(e) == rs[k];
          var i :| 0 <= i < |fp.entries| && fp.entries[i] == e;
          assert Holds(a, now, actor, stored[i]);
        }
      }
    }
  }

  /** The actor holds authority over every row of a job and reached it while it was parsed,
      yet is shut out of it as a committed job. */
  ghost predicate ClosedByCommit(a: Authority, now: int, actor: Uuid, job: Job, cap: nat) {
    && job.footprint.Some? && StandsFor(job.footprint.value, job.kind, job.rows, cap)
    && RowsHold(a, now, actor, job) && CanAccess(a, now, actor, job.(state := Parsed))
    && job.state == Committed && !CanAccess(a, now, actor, job)
  }

  /** Any committed job over the cap is such a case for any approver of all its rows. */
  lemma {:induction false} OverCapCloses(a: Authority, now: int, actor: Uuid, job: Job, cap: nat)
    requires job.footprint == Some(Footprint(true, [])) && |DistinctRequirements(job.kind, job.rows)| > cap
    requires job.rows != [] && job.state == Committed && actor != job.uploader && RowsHold(a, now, actor, job)
    ensures ClosedByCommit(a, now, actor, job, cap)
  {
    assert AccessRequirements(job.(state := Parsed)) == Some(RowRequirements(job.kind, job.rows));
  }

  const REQUIREMENTS_CAP := 10_000

  /** The cap's comment says an over-cap job is never skipped or hidden. This one is: ten thousand
      and one users are updated by name, an actor who manages all of them reaches the job while it
      is parsed, and no longer once it is committed. */
  lemma {:induction false} OverCapJobClosesAfterCommit() returns (a: Authority, actor: Uuid, job: Job)
    ensures ClosedByCommit(a, 0, actor, job, REQUIREMENTS_CAP)
  {
    var row := Row(RoleKey(1, Manager, Scope(Installation, None)), Granted, true, 0, None);
    var n := REQUIREMENTS_CAP + 1;
    a, actor := Authority([row], [], map[], map[]), 1;
    job := Job(9, 5, UserRows, Committed, Renamings(n), Some(Footprint(true, [])));
    ManyTargets(n);
    ManagerReaches(a, row, job, n);
    OverCapCloses(a, 0, actor, job, REQUIREMENTS_CAP);
  }

  /** Rows that rename the users 2, 3, ... */
  function Renamings(n: nat): (r: seq<ImportRow>)
    requires n + 2 < UUID_BOUND
    ensures |r| == n
    ensures forall k :: 0 <= k < n ==> r[k].action == Updating && r[k].identity == Some(k + 2)
  {
    if n == 0 then []
    else Renamings(n - 1) + [ImportRow(n, Updating, "x", Some(n + 1), Changes(Some("n"), None, None), Valid, Routine)]
  }

  function Targets(n: nat): set<Requirement>
    requires n + 2 < UUID_BOUND
  {
    set u: Uuid | 2 <= u < n + 2 :: MayManage(u)
  }

  lemma {:induction false} ManyTargets(n: nat)
    requires n + 2 < UUID_BOUND
    ensures |DistinctRequirements(UserRows, Renamings(n))| == n
  {
    var rows := Renamings(n);
    assert forall k :: 0 <= k < n ==> RowRequirement(UserRows, rows[k]) == Some(MayManage(k + 2));
    forall r: Requirement ensures r in DistinctRequirements(UserRows, rows) <==> r in Targets(n) {
      if r in Targets(n) {
        assert rows[r.user - 2] in rows;
      }
    }
    assert DistinctRequirements(UserRows, rows) == Targets(n);
    TargetsCounted(n);
  }

  lemma {:induction false} TargetsCounted(n: nat)
    requires n + 2 < UUID_BOUND
    ensures |Targets(n)| == n
  {
    if n == 0 {
      assert Targets(0) == {};
    } else {
      TargetsCounted(n - 1);
      assert Targets(n) == Targets(n - 1) + {MayManage(n + 1)};
    }
  }

  lemma {:induction false} ManagerReaches(a: Authority, row: RoleRow, job: Job, n: nat)
    requires row == Row(RoleKey(1, Manager, Scope(Installation, None)), Granted, true, 0, None)
    requires a == Authority([row], [], map[], map[])
    requires n + 2 < UUID_BOUND && job.kind == UserRows && job.rows == Renamings(n)
    ensures RowsHold(a, 0, 1, job)
  {
    assert row in a.roles && row.key.scope in RoleScopes(a, 0, 1, AppointTeamCaptain);
    assert HasAssigned(a, 0, 1, AppointTeamCaptain);
    assert HoldsAnyAppointment(a, 0, 1);
    forall k | 0 <= k < n ensures Holds(a, 0, 1, RowRequirements(UserRows, job.rows)[k]) {
      assert job.rows[k].identity == Some(k + 2) && RolesOf(a, 0, k + 2) == {};
    }
  }

  // ------------------------------------------------- resolving many requirements at once

  function TargetsOf(rs: seq<Option<Requirement>>): (r: seq<Uuid>)
    ensures forall u :: u in r <==> Some(MayManage(u)) in rs
  {
    if rs == [] then []
    else
      var rest := TargetsOf(rs[1..]);
      assert rs == [rs[0]] + rs[1..];
      if rs[0].Some? && rs[0].value.MayManage? then [rs[0].value.user] + rest else rest
  }

  function ScopesOf(rs: seq<Option<Requirement>>): (r: seq<ScopeTuple>)
    ensures forall s :: s in r <==> Some(MayScope(s.cap, s.scope)) in rs
  {
    if rs == [] then []
    else
      var rest := ScopesOf(rs[1..]);
      assert rs == [rs[0]] + rs[1..];
      if rs[0].Some? && rs[0].value.MayScope? then [ScopeTuple(rs[0].value.cap, rs[0].value.scope)] + rest else rest
  }

  function CampaignsOf(rs: seq<Option<Requirement>>): (r: seq<Uuid>)
    ensures forall c :: c in r <==> Some(MayStaff(c)) in rs
  {
    if rs == [] then []
    else
      var rest := CampaignsOf(rs[1..]);
      assert rs == [rs[0]] + rs[1..];
      if rs[0].Some? && rs[0].value.MayStaff? then [rs[0].value.campaign] + rest else rest
  }

  /** One requirement looked up in already resolved authority. */
  predicate Met(r: Option<Requirement>, s: Satisfied) {
    match r
    case None => true
    case Some(Deny) => false
    case Some(MayManage(u)) => u in s.targets
    case Some(MayScope(cap, scope)) => ScopeTuple(cap, scope) in s.scopes
    case Some(MayStaff(c)) => c in s.campaigns
  }

  /** The requirement is among those to be resolved. */
  predicate Asked(r: Option<Requirement>, targets: set<Uuid>, scopes: set<ScopeTuple>, campaigns: set<Uuid>) {
    match r
    case Some(MayManage(u)) => u in targets
    case Some(MayScope(cap, scope)) => ScopeTuple(cap, scope) in scopes
    case Some(MayStaff(c)) => c in campaigns
    case _ => true
  }

  /** Resolving a larger set never changes the answer for one of its members. */
  lemma {:induction false} LargerResolutionAgrees(a: Authority, now: int, actor: Uuid, r: Option<Requirement>,
                                 targets: set<Uuid>, scopes: set<ScopeTuple>, campaigns: set<Uuid>)
    requires Asked(r, targets, scopes, campaigns)
    ensures Met(r, SatisfiedOneByOne(a, now, actor, targets, scopes, campaigns)) <==> Holds(a, now, actor, r)
  {
  }

  method RequirementsMet(rs: seq<Option<Requirement>>, s: Satisfied) returns (ok: bool)
    ensures ok <==> forall i :: 0 <= i < |rs| ==> Met(rs[i], s)
  {
    for i := 0 to |rs|
      invariant forall k :: 0 <= k < i ==> Met(rs[k], s)
    {
      if !Met(rs[i], s) {
        return false;
      }
    }
    return true;
  }

  /** The live check over one requirement list. */
  method AuthorityOver(a: Authority, now: int, actor: Uuid, rs: seq<Option<Requirement>>) returns (ok: bool)
    ensures ok <==> AllHold(a, now, actor, rs)
  {
    if Some(Deny) in rs {
      assert !AllHold(a, now, actor, rs);
      return false;
    }
    var targets, scopes, campaigns := TargetsOf(rs), ScopesOf(rs), CampaignsOf(rs);
    var s := SatisfiedAuthority(a, now, actor, targets, scopes, campaigns);
    ok := RequirementsMet(rs, s);
    forall i | 0 <= i < |rs| ensures Met(rs[i], s) <==> Holds(a, now, actor, rs[i]) {
      assert rs[i] in rs;
      LargerResolutionAgrees(a, now, actor, rs[i], set t | t in targets, set x | x in scopes, set c | c in campaigns);
    }
  }

  method CanAccessJob(a: Authority, now: int, actor: Uuid, job: Job) returns (ok: bool)
    ensures ok <==> CanAccess(a, now, actor, job)
  {
    if actor == job.uploader {
      return true;
    }
    var rs := AccessRequirements(job);
    if rs.None? {
      return false;
    }
    ok := AuthorityOver(a, now, actor, rs.value);
  }

  // -------------------------------------------------------------------- the job list

  function Accessible(a: Authority, now: int, actor: Uuid, jobs: seq<Job>): seq<Job> {
    if jobs == [] then []
    else Accessible(a, now, actor, jobs[..|jobs| - 1])
         + if CanAccess(a, now, actor, jobs[|jobs| - 1]) then [jobs[|jobs| - 1]] else []
  }

  function FirstOf<T>(s: seq<T>, n: nat): seq<T> {
    if |s| <= n then s else s[..n]
  }

  lemma {:induction false} AccessibleGrows(a: Authority, now: int, actor: Uuid, jobs: seq<Job>, i: nat)
    requires i <= |jobs|
    ensures Accessible(a, now, actor, jobs[..i]) <= Accessible(a, now, actor, jobs)
    decreases |jobs| - i
  {
    if i < |jobs| {
      assert jobs[..i + 1][..i] == jobs[..i];
      AccessibleGrows(a, now, actor, jobs, i + 1);
    } else {
      assert jobs[..i] == jobs;
    }
  }

  /** All the job's requirements are in the union. */
  predicate Gathered(job: Job, union: seq<Option<Requirement>>) {
    AccessRequirements(job).Some? ==> forall r :: r in AccessRequirements(job).value ==> r in union
  }

  lemma {:induction false} OneMoreAccessible(a: Authority, now: int, actor: Uuid, jobs: seq<Job>, i: nat)
    requires i < |jobs|
    ensures Accessible(a, now, actor, jobs[..i + 1]) ==
            Accessible(a, now, actor, jobs[..i]) + if CanAccess(a, now, actor, jobs[i]) then [jobs[i]] else []
  {
    assert jobs[..i + 1][..i] == jobs[..i] && jobs[..i + 1][i] == jobs[i];
  }

  /** Enough jobs found are the first ones. */
  lemma {:induction false} FirstFound(a: Authority, now: int, actor: Uuid, jobs: seq<Job>, i: nat, n: nat)
    requires i <= |jobs| && |Accessible(a, now, actor, jobs[..i])| == n
    ensures FirstOf(Accessible(a, now, actor, jobs), n) == Accessible(a, now, actor, jobs[..i])
  {
    AccessibleGrows(a, now, actor, jobs, i);
  }

  /** Gather the requirements of every non-uploader candidate and their union. */
  method GatherRequirements(actor: Uuid, candidates: seq<Job>) returns (union: seq<Option<Requirement>>)
    ensures forall i :: 0 <= i < |candidates| && candidates[i].uploader != actor ==> Gathered(candidates[i], union)
  {
    union := [];
    for n := 0 to |candidates|
      invariant forall i :: 0 <= i < n && candidates[i].uploader != actor ==> Gathered(candidates[i], union)
    {
      var rs := AccessRequirements(candidates[n]);
      if candidates[n].uploader != actor && rs.Some? {
        union := union + rs.value;
      }
    }
  }

  /** One job decided from what was resolved for all. */
  method ReachedBy(a: Authority, now: int, actor: Uuid, job: Job, s: Satisfied, ghost union: seq<Option<Requirement>>)
    returns (ok: bool)
    requires job.uploader != actor ==> Gathered(job, union)
    requires s == SatisfiedOneByOne(a, now, actor, set t | t in TargetsOf(union), set x | x in ScopesOf(union),
                                    set c | c in CampaignsOf(union))
    ensures ok <==> CanAccess(a, now, actor, job)
  {
    if job.uploader == actor {
      return true;
    }
    var rs := AccessRequirements(job);
    if rs.None? {
      return false;
    }
    ok := RequirementsMet(rs.value, s);
    forall k | 0 <= k < |rs.value| ensures Met(rs.value[k], s) <==> Holds(a, now, actor, rs.value[k]) {
      assert rs.value[k] in union;
      LargerResolutionAgrees(a, now, actor, rs.value[k], set t | t in TargetsOf(union), set x | x in ScopesOf(union),
                             set c | c in CampaignsOf(union));
    }
  }

  /** The list view resolves authority once over the union of all candidates' requirements,
      and returns exactly the first accessible candidates. A limit of zero or less still
      yields one job, because the limit is tested after a job is added. */
  method VisibleJobs(a: Authority, now: int, actor: Uuid, jobs: seq<Job>, limit: int, candidateLimit: nat)
    returns (visible: seq<Job>)
    ensures visible == FirstOf(Accessible(a, now, actor, FirstOf(jobs, candidateLimit)), if limit < 1 then 1 else limit)
  {
    var candidates := FirstOf(jobs, candidateLimit);
    ghost var most := if limit < 1 then 1 else limit;
    var union := GatherRequirements(actor, candidates);
    var s := SatisfiedAuthority(a, now, actor, TargetsOf(union), ScopesOf(union), CampaignsOf(union));
    visible := [];
    var n := 0;
    while n < |candidates|
      invariant 0 <= n <= |candidates|
      invariant visible == Accessible(a, now, actor, candidates[..n]) && |visible| < most
    {
      var accessible := ReachedBy(a, now, actor, candidates[n], s, union);
      OneMoreAccessible(a, now, actor, candidates, n);
      if accessible {
        visible := visible + [candidates[n]];
        if |visible| >= limit {
          FirstFound(a, now, actor, candidates, n + 1, most);
          return;
        }
      }
      n := n + 1;
    }
    assert candidates[..n] == candidates;
  }
}
