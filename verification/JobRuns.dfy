/** What holds over every run of an import job: the two-person rule, one effect, exact
    replay, and the way back from a committed file. */
module JobRuns {
  import opened Basics
  import opened Tables
  import opened Capabilities
  import opened Authz
  import opened ImportRows
  import opened Workforce
  import opened ImportEffects
  import opened ImportReversal
  import opened ImportJobs
  import A = ImportAccess
  import C = ImportClassify

  datatype Stage = Stage(t: Ticket, d: Directory, delegations: seq<Delegation>, campaigns: map<Uuid, CampaignInfo>)

  function LiveOf(s: Stage): Authority {
    Authority(s.d.roles, s.delegations, s.d.teams, s.campaigns)
  }

  datatype Event =
    | Deciding(now: int, approver: Uuid, vote: Vote, tier: Tier, ack: bool)
    | Committing(now: int, actor: Uuid, version: nat, key: string, env: Env, ids: seq<Uuid>, answer: Answer)
    | Reversing(now: int, actor: Uuid, env: Env, order: seq<nat>)
    | Expiring
    | Elsewhere

  /** A job that is not committed in time loses its rows. */
  function ExpiredTicket(t: Ticket): Ticket {
    t.(state := A.Expired, rows := [])
  }

  /** Elsewhere, anything may change that the rest of the system can change: rows and users
      are never deleted. */
  ghost predicate Happens(s: Stage, e: Event, s': Stage) {
    match e
    case Deciding(now, approver, vote, tier, ack) =>
      DecisionNo(s.t, LiveOf(s), now, approver, vote, tier, ack).None?
          && s' == s.(t := Decided(s.t, approver, vote, tier))
    case Committing(now, actor, version, key, env, ids, answer) =>
      && (CommitNo(s.t, LiveOf(s), now, actor, version).None? ==>
          ReadyToApply(s.t, ids) && AllFit(s.d, s.t.kind, TasksOf(s.t, ids)))
      && Commit(s.t, s.d, LiveOf(s), now, actor, version, key, env, ids) == Ok((s'.t, s'.d, answer))
      && s' == s.(t := s'.t, d := s'.d)
    case Reversing(now, actor, env, order) =>
      && (ReverseNo(s.t, LiveOf(s), now, actor).None? ==> Applicable(s.d, s.t.records, order))
      && Reverse(s.t, s.d, LiveOf(s), now, actor, env, order) == Ok((s'.t, s'.d)) && s' == s.(t := s'.t, d := s'.d)
    case Expiring => s.t.state != A.Committed && s' == s.(t := ExpiredTicket(s.t))
    case Elsewhere => s'.t == s.t && Larger(s.d, s'.d)
  }

  /** What deciding, committing and reversing do, by their contracts, are events, and so is the
      expiry of a job that is not committed. */
  lemma {:induction false} OperationsHappen(s: Stage, now: int, u: Uuid, vote: Vote, tier: Tier, ack: bool,
                                            version: nat, key: string, env: Env, ids: seq<Uuid>, order: seq<nat>)
    ensures DecisionNo(s.t, LiveOf(s), now, u, vote, tier, ack).None? ==>
              Happens(s, Deciding(now, u, vote, tier, ack), s.(t := Decided(s.t, u, vote, tier)))
    ensures (CommitNo(s.t, LiveOf(s), now, u, version).None? ==>
               ReadyToApply(s.t, ids) && AllFit(s.d, s.t.kind, TasksOf(s.t, ids))) ==>
              match Commit(s.t, s.d, LiveOf(s), now, u, version, key, env, ids)
              case Ok((t, d, answer)) =>
                Happens(s, Committing(now, u, version, key, env, ids, answer), s.(t := t, d := d))
              case Err(_) => true
    ensures (ReverseNo(s.t, LiveOf(s), now, u).None? ==> Applicable(s.d, s.t.records, order)) ==>
              match Reverse(s.t, s.d, LiveOf(s), now, u, env, order)
              case Ok((t, d)) => Happens(s, Reversing(now, u, env, order), s.(t := t, d := d))
              case Err(_) => true
    ensures s.t.state != A.Committed ==> Happens(s, Expiring, s.(t := s.t.(state := A.Expired, rows := [])))
  {
  }

  /** The job's own invariant. */
  ghost predicate TicketOk(t: Ticket) {
    && t.state in {A.Parsed, A.Committed, A.Expired}
    && (if t.state == A.Expired then t.rows == [] else Counted(t.rows, t.counters))
    && (forall i :: 0 <= i < |t.decisions| ==> DecisionOk(t, i))
    && (t.state != A.Committed ==> t.records == [] && t.appliedAs == [] && t.key.None?)
    && (t.state == A.Committed ==> AppliedOk(t) && t.key.Some?)
  }

  /** Versions count up from one, and no high-risk approval is the uploader's own. */
  ghost predicate DecisionOk(t: Ticket, i: nat)
    requires i < |t.decisions|
  {
    && t.decisions[i].version == i + 1
    && (t.decisions[i].tier == HighRiskTier && t.decisions[i].vote == Approve ==>
          t.decisions[i].approver != t.uploader && t.counters.highRisk > 0)
    && (t.decisions[i].vote == Approve ==> t.counters.invalid == 0)
  }

  /** Every valid row, and no other, was applied, each as the approver of its tier. */
  ghost predicate AppliedOk(t: Ticket) {
    var rows := Select(t.rows, With(Valid));
    && t.counters.invalid == 0 && ApprovedBy(t, StandardTier)
        && (t.counters.highRisk > 0 ==> ApprovedBy(t, HighRiskTier))
    && |t.records| == |rows| && |t.appliedAs| == |rows|
    && (forall i :: 0 <= i < |rows| ==> t.records[i].row == rows[i] && t.appliedAs[i] == ActorFor(t, rows[i]))
  }

  lemma {:induction false} EventKeepsTicket(s: Stage, e: Event, s': Stage)
    requires TicketOk(s.t) && Happens(s, e, s')
    ensures TicketOk(s'.t)
    ensures s'.t.kind == s.t.kind && s'.t.counters == s.t.counters && s'.t.uploader == s.t.uploader
    ensures !e.Expiring? ==> s'.t.rows == s.t.rows
    ensures s.t.decisions <= s'.t.decisions
    ensures s.t.state == A.Committed ==> OnlyMarks(s.t, s'.t)
    ensures s.t.state == A.Expired ==> s'.t == s.t
  {
    match e
    case Deciding(now, approver, vote, tier, ack) => DecisionKeepsTicket(s, e, s');
    case Committing(now, actor, version, key, env, ids, answer) => CommitKeepsTicket(s, e, s');
    case Reversing(_, _, _, _) => SameDecisions(s.t, s'.t);
    case Expiring => SameDecisions(s.t, s'.t);
    case Elsewhere =>
  }

  lemma {:induction false} SameDecisions(t: Ticket, t': Ticket)
    requires t'.decisions == t.decisions && t'.uploader == t.uploader && t'.counters == t.counters
    requires forall i :: 0 <= i < |t.decisions| ==> DecisionOk(t, i)
    ensures forall i :: 0 <= i < |t'.decisions| ==> DecisionOk(t', i)
  {
    assert forall i :: 0 <= i < |t.decisions| ==> DecisionOk(t, i) && DecisionOk(t', i);
  }

  lemma {:induction false} DecisionKeepsTicket(s: Stage, e: Event, s': Stage)
    requires TicketOk(s.t) && e.Deciding? && Happens(s, e, s')
    ensures TicketOk(s'.t) && s'.t.state == s.t.state == A.Parsed
  {
    forall i | 0 <= i < |s'.t.decisions| ensures DecisionOk(s'.t, i) {
      if i < |s.t.decisions| {
        assert DecisionOk(s.t, i);
      }
    }
  }

  lemma {:induction false} CommitKeepsTicket(s: Stage, e: Event, s': Stage)
    requires TicketOk(s.t) && e.Committing? && Happens(s, e, s')
    ensures TicketOk(s'.t) && s'.t.decisions == s.t.decisions
    ensures s'.t.kind == s.t.kind && s'.t.rows == s.t.rows && s'.t.counters == s.t.counters
    ensures s'.t.uploader == s.t.uploader
    ensures s.t.state == A.Committed ==> s'.t == s.t
  {
    if s.t.state == A.Parsed {
      var tasks := TasksOf(s.t, e.ids);
      RecordRows(s.d, s.t.kind, tasks, e.env);
      AppliedTicketOk(s.t, e.ids, CommitAll(s.d, s.t.kind, tasks, e.env).value.1, e.key);
    }
  }

  lemma {:induction false} AppliedTicketOk(t: Ticket, ids: seq<Uuid>, recs: seq<Record>, key: string)
    requires TicketOk(t) && t.state == A.Parsed && ReadyToApply(t, ids) && t.counters.invalid == 0
    requires var tasks := TasksOf(t, ids); |recs| == |tasks| && forall i :: 0 <= i < |recs| ==>
        recs[i].row == tasks[i].row
    ensures TicketOk(CommittedTicket(t, TasksOf(t, ids), recs, key))
  {
    var t' := CommittedTicket(t, TasksOf(t, ids), recs, key);
    AppliedRows(t, t', ids, recs);
    forall i | 0 <= i < |t.decisions| ensures DecisionOk(t', i) {
      assert DecisionOk(t, i);
    }
  }

  lemma {:induction false} AppliedRows(t: Ticket, t': Ticket, ids: seq<Uuid>, recs: seq<Record>)
    requires ReadyToApply(t, ids) && t.counters.invalid == 0
    requires var tasks := TasksOf(t, ids); |recs| == |tasks| && forall i :: 0 <= i < |recs| ==>
        recs[i].row == tasks[i].row
    requires t'.rows == t.rows && t'.counters == t.counters && t'.decisions == t.decisions
    requires t'.records == recs && t'.appliedAs == ActorsOf(TasksOf(t, ids))
    ensures AppliedOk(t')
  {
  }

  /** A commit writes one record per row to apply, for that row. */
  lemma {:induction false} RecordRows(d: Directory, kind: ImportType, tasks: seq<Task>, env: Env)
    requires AllFit(d, kind, tasks) && CommitAll(d, kind, tasks, env).Ok?
    ensures var recs := CommitAll(d, kind, tasks, env).value.1;
            |recs| == |tasks| && forall i :: 0 <= i < |recs| ==> recs[i].row == tasks[i].row
  {
    if tasks != [] {
      RecordRows(d, kind, tasks[..|tasks| - 1], env);
    }
  }

  // ------------------------------------------------------------------------ runs

  datatype Run = Run(states: seq<Stage>, events: seq<Event>)

  ghost predicate StepOf(r: Run, n: nat) {
    n < |r.events| && n + 1 < |r.states| ==> Happens(r.states[n], r.events[n], r.states[n + 1])
  }

  /** A run of one job from the moment it is parsed. */
  ghost predicate IsRun(r: Run) {
    && |r.states| == |r.events| + 1 && (forall n: nat :: StepOf(r, n))
    && TicketOk(r.states[0].t) && r.states[0].t.state == A.Parsed && r.states[0].t.decisions == []
        && !r.states[0].t.reversed
  }

  lemma {:induction false} TicketAt(r: Run, n: nat)
    requires IsRun(r) && n < |r.states|
    ensures TicketOk(r.states[n].t)
  {
    if n > 0 {
      TicketAt(r, n - 1);
      HappensAt(r, n - 1);
      EventKeepsTicket(r.states[n - 1], r.events[n - 1], r.states[n]);
    }
  }

  lemma {:induction false} HappensAt(r: Run, n: nat)
    requires IsRun(r) && n < |r.events|
    ensures Happens(r.states[n], r.events[n], r.states[n + 1])
  {
    assert StepOf(r, n);
  }

  /** What one event may do to the ticket. */
  lemma {:induction false} StepKeeps(r: Run, n: nat)
    requires IsRun(r) && n < |r.events|
    ensures r.states[n].t.decisions <= r.states[n + 1].t.decisions
    ensures r.states[n].t.state == A.Committed ==> OnlyMarks(r.states[n].t, r.states[n + 1].t)
    ensures r.states[n].t.state == A.Expired ==> r.states[n + 1].t == r.states[n].t
  {
    TicketAt(r, n);
    HappensAt(r, n);
    EventKeepsTicket(r.states[n], r.events[n], r.states[n + 1]);
  }

  /** Decisions are append-only and carry the versions 1 to n. */
  lemma {:induction false} VersionsCountUp(r: Run, m: nat, n: nat)
    requires IsRun(r) && m <= n < |r.states|
    ensures r.states[m].t.decisions <= r.states[n].t.decisions
    ensures forall i :: 0 <= i < |r.states[n].t.decisions| ==> r.states[n].t.decisions[i].version == i + 1
  {
    if m < n {
      VersionsCountUp(r, m, n - 1);
      StepKeeps(r, n - 1);
    }
    TicketAt(r, n);
    VersionsOk(r.states[n].t);
  }

  lemma {:induction false} VersionsOk(t: Ticket)
    requires TicketOk(t)
    ensures forall i :: 0 <= i < |t.decisions| ==> t.decisions[i].version == i + 1
  {
    forall i | 0 <= i < |t.decisions| ensures t.decisions[i].version == i + 1 {
      assert DecisionOk(t, i);
    }
  }

  /** The ticket, but for being marked reversed. */
  predicate OnlyMarks(t: Ticket, t': Ticket) {
    && t' == t.(reversed := t'.reversed, undone := t'.undone) && (t.reversed ==> t'.reversed)
  }

  /** A committed job stays committed as it was, but for being marked reversed. */
  lemma {:induction false} CommittedStays(r: Run, m: nat, n: nat)
    requires IsRun(r) && m <= n < |r.states| && r.states[m].t.state == A.Committed
    ensures OnlyMarks(r.states[m].t, r.states[n].t)
  {
    if m < n {
      CommittedStays(r, m, n - 1);
      StepKeeps(r, n - 1);
    }
  }

  /** The commit that took effect: the job was still only parsed. */
  ghost predicate FirstCommit(r: Run, m: nat) {
    m < |r.events| && m < |r.states| && r.events[m].Committing? && r.states[m].t.state == A.Parsed
  }

  /** A committed job was committed by such an event. */
  lemma {:induction false} CommittedBy(r: Run, n: nat) returns (m: nat)
    requires IsRun(r) && n < |r.states| && r.states[n].t.state == A.Committed
    ensures m < n && FirstCommit(r, m) && r.states[m + 1].t.state == A.Committed
  {
    if r.states[n - 1].t.state == A.Committed {
      m := CommittedBy(r, n - 1);
    } else {
      m := n - 1;
      TicketAt(r, m);
      HappensAt(r, m);
      OnlyCommitCommits(r.states[m], r.events[m], r.states[n]);
    }
  }

  lemma {:induction false} OnlyCommitCommits(s: Stage, e: Event, s': Stage)
    requires TicketOk(s.t) && Happens(s, e, s') && s.t.state != A.Committed && s'.t.state == A.Committed
    ensures e.Committing? && s.t.state == A.Parsed
  {
  }

  /** The approver named by the last high-risk decision, who is not the uploader and held
      authority over every high-risk row when the job was committed. */
  ghost predicate SecondPerson(s: Stage, now: int, h: Uuid) {
    && h != s.t.uploader && ApprovedBy(s.t, HighRiskTier) && LatestOf(s.t.decisions, HighRiskTier).value.approver == h
    && A.AllHold(LiveOf(s), now, h, RowRequirements(s.t.kind, Select(s.t.rows, Committable(HighRisk))))
  }

  /** The approver named by the last standard decision, who held authority over every routine row
      when the job was committed. */
  ghost predicate FirstPerson(s: Stage, now: int, u: Uuid) {
    && ApprovedBy(s.t, StandardTier) && LatestOf(s.t.decisions, StandardTier).value.approver == u
    && A.AllHold(LiveOf(s), now, u, RowRequirements(s.t.kind, Select(s.t.rows, Committable(Routine))))
  }

  /** The two-person rule. In every reachable state, a committed job has no invalid row; if it
      has valid high-risk rows, a second person approved them, was authorized for all of them
      at the moment of the commit, and is who each of them was applied as; the other rows were
      applied as the approver of the last standard decision, authorized for them at that moment. */
  lemma {:induction false} TwoPersonRule(r: Run, n: nat) returns (m: nat, high: Uuid, standard: Uuid)
    requires IsRun(r) && n < |r.states| && r.states[n].t.state == A.Committed
    ensures m < n && FirstCommit(r, m)
    ensures forall row :: row in r.states[n].t.rows ==> row.validation != Invalid
    ensures r.states[n].t.counters.highRisk > 0 ==> SecondPerson(r.states[m], r.events[m].now, high)
    ensures FirstPerson(r.states[m], r.events[m].now, standard)
    ensures AppliedAsApproved(r.states[n].t, high, standard)
  {
    m := CommittedBy(r, n);
    high, standard := ApproversAt(r, m);
    CommittedStays(r, m + 1, n);
    TicketAt(r, n);
    AppliedAs(r.states[n].t, high, standard);
  }

  /** Who the latest approvals name: for the high-risk rows, if there are any, and for the rest. */
  ghost predicate Approvers(t: Ticket, high: Uuid, standard: Uuid) {
    && ApprovedBy(t, StandardTier) && LatestOf(t.decisions, StandardTier).value.approver == standard
    && (t.counters.highRisk > 0 ==>
          ApprovedBy(t, HighRiskTier) && LatestOf(t.decisions, HighRiskTier).value.approver == high)
  }

  lemma {:induction false} ApproversAt(r: Run, m: nat) returns (high: Uuid, standard: Uuid)
    requires IsRun(r) && FirstCommit(r, m)
    ensures r.states[m].t.counters.highRisk > 0 ==> SecondPerson(r.states[m], r.events[m].now, high)
    ensures FirstPerson(r.states[m], r.events[m].now, standard)
    ensures Approvers(r.states[m + 1].t, high, standard)
    ensures r.states[m + 1].t.counters == r.states[m].t.counters && r.states[m + 1].t.state == A.Committed
  {
    HappensAt(r, m);
    high, standard := ApproversAtCommit(r.states[m], r.events[m], r.states[m + 1]);
  }

  lemma {:induction false} ApproversAtCommit(s: Stage, e: Event, s': Stage) returns (high: Uuid, standard: Uuid)
    requires e.Committing? && s.t.state == A.Parsed && Happens(s, e, s')
    ensures s.t.counters.highRisk > 0 ==> SecondPerson(s, e.now, high)
    ensures FirstPerson(s, e.now, standard)
    ensures Approvers(s'.t, high, standard) && s'.t.counters == s.t.counters && s'.t.state == A.Committed
  {
    var t := s.t;
    assert CommitNo(t, LiveOf(s), e.now, e.actor, e.version).None?;
    standard := LatestOf(t.decisions, StandardTier).value.approver;
    high := if t.counters.highRisk > 0 then LatestOf(t.decisions, HighRiskTier).value.approver else standard;
  }

  /** Every valid row was applied, in order: high-risk rows as `high`, the rest as `standard`. */
  ghost predicate AppliedAsApproved(t: Ticket, high: Uuid, standard: Uuid) {
    && |t.appliedAs| == |t.records| == |Select(t.rows, With(Valid))|
    && forall i :: 0 <= i < |t.records| ==>
         && t.records[i].row == Select(t.rows, With(Valid))[i]
         && t.appliedAs[i] == if t.records[i].row.risk == HighRisk then high else standard
  }

  lemma {:induction false} AppliedAs(t: Ticket, high: Uuid, standard: Uuid)
    requires TicketOk(t) && t.state == A.Committed && Approvers(t, high, standard)
    ensures AppliedAsApproved(t, high, standard)
    ensures forall row :: row in t.rows ==> row.validation != Invalid
  {
    NoInvalidRows(t);
    var rows := Select(t.rows, With(Valid));
    forall i | 0 <= i < |rows| ensures rows[i].risk == HighRisk ==> t.counters.highRisk > 0 {
      if rows[i].risk == HighRisk {
        assert rows[i] in rows;
        HighRiskCounted(t, rows[i]);
      }
    }
  }

  lemma {:induction false} NoInvalidRows(t: Ticket)
    requires Counted(t.rows, t.counters)
    ensures t.counters.invalid == 0 <==> forall row :: row in t.rows ==> row.validation != Invalid
  {
    var bad := Select(t.rows, With(Invalid));
    if t.counters.invalid == 0 {
      assert bad == [];
      assert forall row :: row in t.rows && row.validation == Invalid ==> row in bad;
    } else {
      assert bad[0] in bad;
    }
  }

  lemma {:induction false} HighRiskCounted(t: Ticket, row: ImportRow)
    requires Counted(t.rows, t.counters) && row in Select(t.rows, With(Valid)) && row.risk == HighRisk
    ensures t.counters.highRisk > 0
  {
    assert row in Select(t.rows, Committable(HighRisk));
  }

  /** Effects happen once: after the commit that took effect, every later commit call that
      succeeds carries the same key, changes nothing at all, and returns the same outcomes
      without any token. */
  lemma {:induction false} CommitsOnce(r: Run, m: nat, n: nat)
    requires IsRun(r) && m < n < |r.events| && FirstCommit(r, m) && r.events[n].Committing?
    ensures r.events[n].key == r.events[m].key
    ensures r.states[n + 1] == r.states[n]
    ensures r.events[n].answer == Answer(r.events[m].answer.outcomes, {})
  {
    HappensAt(r, m);
    FirstAnswer(r.states[m], r.events[m], r.states[m + 1]);
    CommittedStays(r, m + 1, n);
    HappensAt(r, n);
    LaterAnswer(r.states[n], r.events[n], r.states[n + 1]);
  }

  lemma {:induction false} FirstAnswer(s: Stage, e: Event, s': Stage)
    requires e.Committing? && s.t.state == A.Parsed && Happens(s, e, s')
    ensures s'.t.state == A.Committed && s'.t.key == Some(e.key) && e.answer.outcomes == OutcomesOf(s'.t.records)
  {
  }

  lemma {:induction false} LaterAnswer(s: Stage, e: Event, s': Stage)
    requires e.Committing? && s.t.state == A.Committed && Happens(s, e, s')
    ensures s' == s && s.t.key == Some(e.key) && e.answer == Answer(OutcomesOf(s.t.records), {})
  {
  }

  /** A job is reversed at most once. */
  lemma {:induction false} ReversesOnce(r: Run, m: nat, n: nat)
    requires IsRun(r) && m < n < |r.events| && r.events[m].Reversing?
    ensures !r.events[n].Reversing?
  {
    HappensAt(r, m);
    ReversingMarks(r.states[m], r.events[m], r.states[m + 1]);
    CommittedStays(r, m + 1, n);
    HappensAt(r, n);
    if r.events[n].Reversing? {
      ReversingMarks(r.states[n], r.events[n], r.states[n + 1]);
    }
  }

  lemma {:induction false} ReversingMarks(s: Stage, e: Event, s': Stage)
    requires e.Reversing? && Happens(s, e, s')
    ensures s.t.state == A.Committed && !s.t.reversed && s'.t.state == A.Committed && s'.t.reversed
  {
  }

  /** An expired job stays as it is, without rows, and nothing is decided, committed or reversed
      on it any more. */
  lemma {:induction false} ExpiredIsFinal(r: Run, m: nat, n: nat)
    requires IsRun(r) && m <= n < |r.states| && r.states[m].t.state == A.Expired
    ensures r.states[n].t == r.states[m].t && r.states[n].t.rows == []
    ensures n < |r.events| ==> r.events[n].Expiring? || r.events[n].Elsewhere?
  {
    ExpiredStays(r, m, n);
    TicketAt(r, n);
    if n < |r.events| {
      HappensAt(r, n);
      ClosedToAll(r.states[n], r.events[n], r.states[n + 1]);
    }
  }

  lemma {:induction false} ExpiredStays(r: Run, m: nat, n: nat)
    requires IsRun(r) && m <= n < |r.states| && r.states[m].t.state == A.Expired
    ensures r.states[n].t == r.states[m].t
  {
    if m < n {
      ExpiredStays(r, m, n - 1);
      StepKeeps(r, n - 1);
    }
  }

  lemma {:induction false} ClosedToAll(s: Stage, e: Event, s': Stage)
    requires s.t.state == A.Expired && Happens(s, e, s')
    ensures e.Expiring? || e.Elsewhere?
  {
  }

  // ------------------------------------------------------ from the file to the way back

  /** Selected rows keep the order of the file. */
  lemma {:induction false} SelectKeepsOrder(rows: seq<ImportRow>, s: Selector, i: nat, j: nat) returns (a: nat, b: nat)
    requires i < j < |Select(rows, s)|
    ensures a < b < |rows| && rows[a] == Select(rows, s)[i] && rows[b] == Select(rows, s)[j]
  {
    var n := |rows| - 1;
    var before := Select(rows[..n], s);
    if j < |before| {
      a, b := SelectKeepsOrder(rows[..n], s, i, j);
    } else {
      assert before[i] in before;
      a :| 0 <= a < n && rows[..n][a] == before[i];
      b := n;
    }
  }

  /** The rows to apply from a parsed file meet everything a commit and its reversal rely on, against
      any later directory. */
  lemma {:induction false} FileTasks(l: C.Lookups, lines: seq<C.Line>, t: Ticket, ids: seq<Uuid>, d: Directory)
    requires C.LookupsOk(l) && t.kind != CampaignRows && t.rows == C.Rows(l, t.kind, lines) && ReadyToApply(t, ids)
    requires l.d.users.Keys <= d.users.Keys && FreshIds(d, TasksOf(t, ids))
    ensures AllFit(d, t.kind, TasksOf(t, ids)) && DistinctTargets(t.kind, TasksOf(t, ids))
  {
    var tasks := TasksOf(t, ids);
    var rows := Select(t.rows, With(Valid));
    forall i | 0 <= i < |tasks| ensures Fits(d, t.kind, tasks[i].row) {
      assert rows[i] in rows && rows[i] in t.rows;
      var n :| 0 <= n < |lines| && t.rows[n] == rows[i];
      C.RowsAt(l, t.kind, lines, n);
      C.ValidRowFits(l, t.kind, lines[n], C.SeenBefore(l, t.kind, lines[..n]));
    }
    forall i, j | 0 <= i < j < |tasks| ensures TaskTarget(t.kind, tasks[i]) != TaskTarget(t.kind, tasks[j]) {
      var a, b := SelectKeepsOrder(t.rows, With(Valid), i, j);
      assert rows[i] in rows && rows[j] in rows;
      C.ValidRowsActApart(l, t.kind, lines, a, b, ids[i], ids[j]);
    }
  }

  /** The way back from a file: parse it, commit it against any later directory, and reverse
      it at once in any row order; every entity that existed before the commit looks as it
      did, unless a row's reversal raises for the reverser, in which case nothing changes. */
  lemma {:induction false} FileRoundTrip(l: C.Lookups, lines: seq<C.Line>, t: Ticket, ids: seq<Uuid>, d: Directory,
                                         env: Env,
                                         order: seq<nat>, actor: Uuid, later: Env)
    requires C.LookupsOk(l) && t.kind != CampaignRows && t.rows == C.Rows(l, t.kind, lines) && ReadyToApply(t, ids)
    requires ValidDirectory(d) && l.d.users.Keys <= d.users.Keys && FreshIds(d, TasksOf(t, ids))
    ensures AllFit(d, t.kind, TasksOf(t, ids))
    ensures var committed := CommitAll(d, t.kind, TasksOf(t, ids), env);
            committed.Ok? && CoversLinked(committed.value.1, order) ==>
              var (d1, recs) := committed.value;
              && Applicable(d1, recs, order)
              && var undone := ReverseAll(d1, recs, order, actor, later);
                 if SomeRaises(d1, recs, order, actor, later) then undone.Err?
                 else
                   && undone.Ok? && undone.value.1 == Members(order)
                   && forall e :: Look(d, e) != Absent ==> Look(undone.value.0, e) == Look(d, e)
  {
    FileTasks(l, lines, t, ids, d);
    var committed := CommitAll(d, t.kind, TasksOf(t, ids), env);
    if committed.Ok? && CoversLinked(committed.value.1, order) {
      ReversalUndoesCommit(d, t.kind, TasksOf(t, ids), env, order, actor, later);
    }
  }

  /** And it does go through, both ways, for a reverser whom no row concerns, as long as the
      viewer role is enabled: the round trip is then the identity on what existed before. */
  lemma {:induction false} FileRoundTripGoesThrough(l: C.Lookups, lines: seq<C.Line>, t: Ticket, ids: seq<Uuid>,
                                                    d: Directory,
                                                    env: Env, order: seq<nat>, actor: Uuid, later: Env)
    requires C.LookupsOk(l) && t.kind != CampaignRows && t.rows == C.Rows(l, t.kind, lines) && ReadyToApply(t, ids)
    requires ValidDirectory(d) && l.d.users.Keys <= d.users.Keys && FreshIds(d, TasksOf(t, ids))
    requires env.viewerEnabled && later.viewerEnabled && Outside(actor, TasksOf(t, ids))
    ensures AllFit(d, t.kind, TasksOf(t, ids))
    ensures var committed := CommitAll(d, t.kind, TasksOf(t, ids), env);
            && committed.Ok?
            && (CoversLinked(committed.value.1, order) ==>
                  var (d1, recs) := committed.value;
                  && Applicable(d1, recs, order)
                  && var undone := ReverseAll(d1, recs, order, actor, later);
                     undone.Ok? && forall e :: Look(d, e) != Absent ==> Look(undone.value.0, e) == Look(d, e))
  {
    FileTasks(l, lines, t, ids, d);
    CommitGoesThrough(d, t.kind, TasksOf(t, ids), env);
    var committed := CommitAll(d, t.kind, TasksOf(t, ids), env);
    if CoversLinked(committed.value.1, order) {
      OutsiderReverses(d, t.kind, TasksOf(t, ids), env, order, actor, later);
      ReversalUndoesCommit(d, t.kind, TasksOf(t, ids), env, order, actor, later);
    }
  }
}
