/** A concrete job that one qualified person cannot reverse: they are the user whom one of its
    rows appoints. */
module ReversalCases {
  import opened Basics
  import opened Tables
  import opened Capabilities
  import opened Authz
  import opened ImportRows
  import opened Workforce
  import opened ImportEffects
  import opened ImportReversal
  import opened ImportJobs
  import opened JobRuns
  import A = ImportAccess
  import C = ImportClassify

  const UPLOADER: Uuid := 5
  const APPROVER: Uuid := 1
  const APPOINTED: Uuid := 3
  const EVERYWHERE := Scope(Installation, None)
  const SETTING := Env(0, true, false)

  function Named(id: string): User {
    User(id, "", "", true, ActiveStanding, None, None, None)
  }

  function ManagerRow(u: Uuid): RoleRow {
    Row(RoleKey(u, Manager, EVERYWHERE), Granted, true, 0, None)
  }

  /** Three users, two of them managers. */
  const OFFICE := Directory(
    map[APPROVER := Named("one"), APPOINTED := Named("three"), UPLOADER := Named("five")], [],
    [ManagerRow(APPROVER), ManagerRow(APPOINTED)], [], map[])

  const LOOKUPS := C.Lookups(OFFICE, map["one" := APPROVER, "three" := APPOINTED, "five" := UPLOADER], map[])

  /** The one line of the file: appoint the second manager an agent as well. */
  const LINE := C.Line(2, "assign", "three", "", "", C.NoDay, C.NoDay, "", "agent", "installation", "", "new", "")

  const ROW := ImportRow(2, Assigning, "three", Some(APPOINTED), OfRole(Agent, EVERYWHERE), Valid, HighRisk)

  const NEEDED := MayScope(CreateAgent, EVERYWHERE)

  const PARSED := Ticket(
    9, UPLOADER, RoleRows, A.Parsed, [ROW], Some(A.Footprint(false, [A.Serialize(NEEDED)])),
    Counters(1, 1, 0, 0, 1), [], None, [], [], false, {})

  const APPROVED := PARSED.(decisions := [
    Decision(1, Approve, StandardTier, UPLOADER), Decision(2, Approve, HighRiskTier, APPROVER)])

  lemma {:induction false} LineIsRow()
    ensures C.LookupsOk(LOOKUPS) && C.Rows(LOOKUPS, RoleRows, [LINE]) == [ROW]
  {
    var key := C.KeyOf(LOOKUPS, RoleRows, LINE);
    assert forall i :: 0 <= i < |"three"| ==> !C.IsSpace("three"[i]);
    assert forall i :: 0 <= i < |"new"| ==> C.ReasonChar("new"[i]);
    assert key.Some?;
    C.RowsAt(LOOKUPS, RoleRows, [LINE], 0);
    assert [LINE][..0] == [];
    NotHeld();
  }

  lemma {:induction false} NotHeld()
    ensures Find(OFFICE.roles, RoleKey(APPOINTED, Agent, EVERYWHERE)) == None
  {
    var k := RoleKey(APPOINTED, Agent, EVERYWHERE);
    assert forall i :: !OpenAt(OFFICE.roles, k, i);
  }

  lemma {:induction false} Chosen()
    ensures Select([ROW], With(Valid)) == [ROW] && Select([ROW], Committable(HighRisk)) == [ROW]
    ensures Select([ROW], Committable(Routine)) == [] && Counted([ROW], PARSED.counters)
  {
    assert [ROW][..0] == [];
  }

  lemma {:induction false} ParsedFromFile()
    ensures FromFile(PARSED)
  {
    Chosen();
    A.StoredRequirementReadsBack(NEEDED);
    assert A.DistinctRequirements(RoleRows, [ROW]) == {NEEDED} by {
      assert ROW in [ROW];
    }
    assert A.Serialize(NEEDED) in PARSED.footprint.value.entries;
    assert A.StandsFor(PARSED.footprint.value, RoleRows, [ROW], A.REQUIREMENTS_CAP);
  }

  // ------------------------------------------------------------------ who may act

  function Live(d: Directory): Authority {
    Authority(d.roles, [], d.teams, map[])
  }

  /** A manager other than the uploader may reach, approve and reverse the job. */
  lemma {:induction false} ManagerQualifies(t: Ticket, d: Directory, u: Uuid)
    requires ManagerRow(u) in d.roles && t.uploader == UPLOADER && u != UPLOADER
    requires t.kind == RoleRows && t.rows == [ROW] && t.footprint == PARSED.footprint
    ensures A.CanAccess(Live(d), 0, u, View(t)) && QualifiedNo(t, Live(d), 0, u).None?
  {
    Chosen();
    ManagerCovers(d, u);
    A.StoredRequirementReadsBack(NEEDED);
  }

  lemma {:induction false} ManagerCovers(d: Directory, u: Uuid)
    requires ManagerRow(u) in d.roles
    ensures HasScope(Live(d), 0, u, CreateAgent, EVERYWHERE)
  {
    assert EVERYWHERE in RoleScopes(Live(d), 0, u, CreateAgent);
    assert CoversTarget(Live(d), EVERYWHERE, EVERYWHERE);
  }

  // --------------------------------------------------------------------- the run

  const TASK := Task(ROW, APPROVER, 100)

  const RECORD := Record(ROW, Assigned, RoleLink(2), NoSnapshot, false)

  const LATER := OFFICE.(roles := OFFICE.roles + [Row(RoleKey(APPOINTED, Agent, EVERYWHERE), Granted, true, 0, None)])

  function At(t: Ticket, d: Directory): Stage {
    Stage(t, d, [], map[])
  }

  lemma {:induction false} Decisions()
    ensures Happens(At(PARSED, OFFICE), Deciding(0, UPLOADER, Approve, StandardTier, false),
                    At(Decided(PARSED, UPLOADER, Approve, StandardTier), OFFICE))
    ensures Happens(At(Decided(PARSED, UPLOADER, Approve, StandardTier), OFFICE),
                    Deciding(0, APPROVER, Approve, HighRiskTier, false), At(APPROVED, OFFICE))
  {
    Chosen();
    ManagerQualifies(Decided(PARSED, UPLOADER, Approve, StandardTier), OFFICE, APPROVER);
    assert Decided(Decided(PARSED, UPLOADER, Approve, StandardTier), APPROVER, Approve, HighRiskTier) == APPROVED;
  }

  lemma {:induction false} RowGoesThrough()
    ensures Fits(OFFICE, RoleRows, ROW) && CommitAll(OFFICE, RoleRows, [TASK], SETTING) == Ok((LATER, [RECORD]))
  {
    NotHeld();
    assert AssignRole(OFFICE, RoleKey(APPOINTED, Agent, EVERYWHERE), APPROVER, 0, true) == Ok(LATER);
    assert CommitRow(OFFICE, RoleRows, ROW, APPROVER, SETTING, 100) == Ok((LATER, RECORD));
    assert [TASK][..0] == [];
    assert CommitAll(OFFICE, RoleRows, [], SETTING) == Ok((OFFICE, [])) && [] + [RECORD] == [RECORD];
  }

  const COMMITTED := CommittedTicket(APPROVED, [TASK], [RECORD], "key")

  lemma {:induction false} CommitGoesAhead()
    ensures CommitNo(APPROVED, Live(OFFICE), 0, UPLOADER, 2).None? && ReadyToApply(APPROVED, [100])
    ensures TasksOf(APPROVED, [100]) == [TASK]
  {
    Chosen();
    ManagerQualifies(APPROVED, OFFICE, APPROVER);
    LatestDecisions();
  }

  lemma {:induction false} LatestDecisions()
    ensures LatestOf(APPROVED.decisions, HighRiskTier) == Some(APPROVED.decisions[1])
    ensures LatestOf(APPROVED.decisions, StandardTier) == Some(APPROVED.decisions[0])
  {
    assert APPROVED.decisions[..1] == [APPROVED.decisions[0]];
  }

  lemma {:induction false} Commits() returns (answer: Answer)
    ensures Happens(At(APPROVED, OFFICE), Committing(0, UPLOADER, 2, "key", SETTING, [100], answer),
                    At(COMMITTED, LATER))
  {
    CommitGoesAhead();
    RowGoesThrough();
    answer := Answer(OutcomesOf([RECORD]), TokensOf([RECORD]));
  }

  /** The reverser passes every check and the reversal raises, because the appointed user may not
      strip themselves. The same reversal by anybody else would go through. */
  lemma {:induction false} QualifiedReverserRaises() returns (r: Run)
    ensures IsRun(r) && FromFile(r.states[0].t) && r.states[0].t.rows == C.Rows(LOOKUPS, RoleRows, [LINE])
    ensures r.states[|r.events|] == At(COMMITTED, LATER)
    ensures CoversLinked([RECORD], [0]) && Applicable(LATER, [RECORD], [0])
    ensures ReverseNo(COMMITTED, Live(LATER), 0, APPOINTED).None?
    ensures RaisesAt(LATER, [RECORD], [0], 0, APPOINTED, SETTING)
    ensures Reverse(COMMITTED, LATER, Live(LATER), 0, APPOINTED, SETTING, [0]) == Err(RowFailed(SelfApproval))
    ensures forall u :: u != APPOINTED ==> ReverseAll(LATER, [RECORD], [0], u, SETTING).Ok?
  {
    LineIsRow();
    ParsedFromFile();
    r := CommittedRun();
    ReverserQualifies();
    ReversalRaises();
  }

  lemma {:induction false} CommittedRun() returns (r: Run)
    ensures IsRun(r) && r.states[0].t == PARSED && r.states[|r.events|] == At(COMMITTED, LATER)
  {
    Chosen();
    Decisions();
    var answer := Commits();
    r := ThreeSteps(At(PARSED, OFFICE), Deciding(0, UPLOADER, Approve, StandardTier, false),
                    At(Decided(PARSED, UPLOADER, Approve, StandardTier), OFFICE),
                    Deciding(0, APPROVER, Approve, HighRiskTier, false), At(APPROVED, OFFICE),
                    Committing(0, UPLOADER, 2, "key", SETTING, [100], answer), At(COMMITTED, LATER));
  }

  lemma {:induction false} ThreeSteps(s0: Stage, e0: Event, s1: Stage, e1: Event, s2: Stage, e2: Event, s3: Stage)
    returns (r: Run)
    requires TicketOk(s0.t) && s0.t.state == A.Parsed && s0.t.decisions == [] && !s0.t.reversed
    requires Happens(s0, e0, s1) && Happens(s1, e1, s2) && Happens(s2, e2, s3)
    ensures IsRun(r) && r == Run([s0, s1, s2, s3], [e0, e1, e2])
  {
    r := Run([s0, s1, s2, s3], [e0, e1, e2]);
    forall n: nat ensures StepOf(r, n) {
      if n < 3 {
        assert n == 0 || n == 1 || n == 2;
      }
    }
  }

  lemma {:induction false} ReverserQualifies()
    ensures ReverseNo(COMMITTED, Live(LATER), 0, APPOINTED).None?
  {
    Chosen();
    assert LATER.roles[1] == ManagerRow(APPOINTED);
    ManagerQualifies(COMMITTED, LATER, APPOINTED);
  }

  lemma {:induction false} ReversalRaises()
    ensures CoversLinked([RECORD], [0]) && Applicable(LATER, [RECORD], [0])
    ensures RaisesAt(LATER, [RECORD], [0], 0, APPOINTED, SETTING)
    ensures ReverseAll(LATER, [RECORD], [0], APPOINTED, SETTING) == Err(SelfApproval)
    ensures forall u :: u != APPOINTED ==> ReverseAll(LATER, [RECORD], [0], u, SETTING).Ok?
  {
    assert [0][..0] == [];
    assert forall u :: ReverseAll(LATER, [RECORD], [], u, SETTING) == Ok((LATER, {}));
  }
}
