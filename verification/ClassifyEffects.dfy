/** Which lines of a workforce file are valid or doubtful, and the row each becomes, in terms of the
    line's cells and the directory. */
module ClassifyEffects {
  import opened Basics
  import opened Tables
  import opened Capabilities
  import opened Authz
  import opened ImportRows
  import opened Workforce
  import opened ImportEffects
  import opened ImportClassify
  import opened CommitEffects
  import UuidText

  // ------------------------------------------------------------------- the cells

  predicate Blanks(c: char) {
    c == ' ' || c == '\t' || c == '\n' || c == '\r'
  }

  predicate OneWord(s: string) {
    forall k :: 0 <= k < |s| ==> !Blanks(s[k])
  }

  predicate GoodId(s: string) {
    0 < |s| <= 150 && OneWord(s)
  }

  predicate GoodReason(s: string) {
    0 < |s| <= 50 && forall k :: 0 <= k < |s| ==> 'a' <= s[k] <= 'z' || '0' <= s[k] <= '9' || s[k] == '_'
  }

  /** The first `@` of the address is at `k`. */
  predicate FirstAt(s: string, k: nat) {
    k < |s| && s[k] == '@' && forall j :: 0 <= j < k ==> s[j] != '@'
  }

  /** One word with something before its first `@` and a dot after it. */
  predicate GoodEmail(s: string) {
    |s| <= 320 && OneWord(s) && exists k :: 0 < k < |s| && FirstAt(s, k) && '.' in s[k + 1..]
  }

  predicate GoodDay(d: Day) {
    d != BadDay
  }

  lemma {:induction false} LocalPartEnds(s: string)
    ensures |LocalPart(s)| <= |s|
    ensures forall j :: 0 <= j < |LocalPart(s)| ==> s[j] != '@'
    ensures |LocalPart(s)| < |s| ==> FirstAt(s, |LocalPart(s)|)
    ensures LocalPart(s) == s[..|LocalPart(s)|]
  {
    if s != "" && s[0] != '@' {
      LocalPartEnds(s[1..]);
      assert forall j :: 0 < j < |LocalPart(s)| ==> s[j] == s[1..][j - 1];
    }
  }

  lemma {:induction false} EmailIs(s: string)
    ensures ValidEmail(s) <==> GoodEmail(s)
  {
    LocalPartEnds(s);
    assert forall k :: 0 <= k < |s| ==> (IsSpace(s[k]) <==> Blanks(s[k]));
    if k: nat :| FirstAt(s, k) {
      assert |LocalPart(s)| == k;
    }
  }

  lemma {:induction false} CellsAre(s: string)
    ensures ValidId(s) <==> GoodId(s)
    ensures ValidReason(s) <==> GoodReason(s)
  {
    assert forall k :: 0 <= k < |s| ==> (IsSpace(s[k]) <==> Blanks(s[k]));
    assert forall k :: 0 <= k < |s| ==>
        (ReasonChar(s[k]) <==> 'a' <= s[k] <= 'z' || '0' <= s[k] <= '9' || s[k] == '_');
  }

  // ------------------------------------------------------------------- look-ups

  predicate UserIs(l: Lookups, ext: string, u: Uuid) {
    u in l.d.users && l.d.users[u].workforceId == ext
  }

  predicate TeamIs(l: Lookups, code: string, t: Uuid) {
    code in l.codes && l.codes[code] == t && t in l.d.teams && l.d.teams[t].active
  }

  lemma {:induction false} UserFound(l: Lookups, ext: string)
    requires LookupsOk(l)
    ensures forall u: Uuid :: UserWith(l, ext) == Some(u) <==> UserIs(l, ext, u)
  {
  }

  /** The row repeats the line's number and workforce id. */
  predicate RowOf(row: ImportRow, x: Line, action: Action, id: Option<Uuid>, values: Values, risk: Risk) {
    row == ImportRow(x.number, action, x.ext, id, values, row.validation, risk)
  }

  /** What the line asks for, if its type of file knows it. */
  function Asked(kind: ImportType, x: Line): Action {
    match kind
    case UserRows =>
      (match x.action
       case "create" => Creating
       case "update" => Updating
       case "reactivate" => Reactivating
       case _ => NoAction)
    case DeactivationRows => Deactivating
    case MembershipRows => if x.action == "add" then Adding else if x.action == "end" then Ending else NoAction
    case RoleRows => if x.action == "assign" then Assigning else if x.action == "end" then Ending else NoAction
    case ReportingRows => if x.action == "set" then Setting else NoAction
    case CampaignRows => NoAction
  }

  /** A refused line leaves a routine row that names nobody and asks for nothing further; a malformed
      id is not kept. */
  lemma {:induction false} RefusedLines(l: Lookups, kind: ImportType, x: Line, seen: set<string>)
    requires kind != CampaignRows
    ensures var row := Classify(l, kind, x, seen).row;
            && row.action == Asked(kind, x)
            && (row.validation == Invalid ==>
                  row == ImportRow(x.number, Asked(kind, x), if GoodId(x.ext) then x.ext else "", None, NoValues,
                                   Invalid, Routine))
  {
    CellsAre(x.ext);
  }

  // ------------------------------------------------------------------ user lines

  predicate NoSuchUser(l: Lookups, ext: string) {
    forall u :: u in l.d.users ==> l.d.users[u].workforceId != ext
  }

  function Given(d: Day): Option<int> {
    match d case Day(n) => Some(n) case _ => None
  }

  predicate GoodCreation(l: Lookups, x: Line) {
    && NoSuchUser(l, x.ext) && GoodEmail(x.email) && 0 < |x.name| <= 200 && GoodDay(x.start) && GoodDay(x.end)
  }

  /** Something is to change, and what is given is well formed. */
  predicate GoodUpdate(x: Line) {
    && GoodDay(x.start) && GoodDay(x.end) && |x.name| <= 200 && (x.name != "" || x.start.Day? || x.end.Day?)
  }

  lemma {:induction false} UserLines(l: Lookups, x: Line, seen: set<string>)
    requires LookupsOk(l)
    ensures var row := Classify(l, UserRows, x, seen).row;
            var good := GoodId(x.ext) && x.ext !in seen;
            && (row.validation == Valid <==>
                  good && match x.action
                           case "create" => GoodCreation(l, x)
                           case "update" => GoodUpdate(x) && !NoSuchUser(l, x.ext)
                           case "reactivate" => exists u :: UserIs(l, x.ext, u) && !l.d.users[u].active
                           case _ => false)
            && (row.validation == Warning <==>
                  good && x.action == "reactivate" && exists u :: UserIs(l, x.ext, u) && l.d.users[u].active)
            && (row.validation != Invalid ==>
                  if x.action == "create" then
                    RowOf(row, x, Creating, None, NewUser(x.email, x.name, Given(x.start), Given(x.end)), Routine)
                  else
                    && row.identity.Some? && UserIs(l, x.ext, row.identity.value)
                    && if x.action == "update" then
                         RowOf(row, x, Updating, row.identity,
                               Changes(if x.name == "" then None else Some(x.name), Given(x.start), Given(x.end)),
                               Routine)
                       else RowOf(row, x, Reactivating, row.identity, NoValues, Routine))
  {
    CellsAre(x.ext);
    EmailIs(x.email);
    UserFound(l, x.ext);
    assert NoSuchUser(l, x.ext) <==> UserWith(l, x.ext).None?;
  }

  // ------------------------------------------------------------- deactivation lines

  lemma {:induction false} DeactivationLines(l: Lookups, x: Line, seen: set<string>)
    requires LookupsOk(l)
    ensures var row := Classify(l, DeactivationRows, x, seen).row;
            var good := GoodId(x.ext) && x.ext !in seen && GoodReason(x.reason);
            && (row.validation == Valid <==> good && exists u :: UserIs(l, x.ext, u) && l.d.users[u].active)
            && (row.validation == Warning <==> good && exists u :: UserIs(l, x.ext, u) && !l.d.users[u].active)
            && (row.validation != Invalid ==>
                  && row.identity.Some? && UserIs(l, x.ext, row.identity.value)
                  && RowOf(row, x, Deactivating, row.identity, NoValues, HighRisk))
  {
    CellsAre(x.ext);
    CellsAre(x.reason);
    UserFound(l, x.ext);
  }

  // --------------------------------------------------------------- membership lines

  predicate GoodMembership(l: Lookups, x: Line, seen: set<string>) {
    && GoodId(x.ext) && x.action in {"add", "end"} && x.teamCode != "" && x.ext + ":" + x.teamCode !in seen
  }

  lemma {:induction false} MembershipLines(l: Lookups, x: Line, seen: set<string>)
    requires LookupsOk(l)
    ensures var row := Classify(l, MembershipRows, x, seen).row;
            && (row.validation == Valid <==>
                  GoodMembership(l, x, seen) && exists u, t :: && UserIs(l, x.ext, u) && TeamIs(l, x.teamCode, t)
                                                              && (x.action == "add" <==> !InTeam(l.d, t, u)))
            && (row.validation == Warning <==>
                  GoodMembership(l, x, seen) && exists u, t :: && UserIs(l, x.ext, u) && TeamIs(l, x.teamCode, t)
                                                              && x.action == "add" && InTeam(l.d, t, u))
            && (row.validation != Invalid ==>
                  && row.identity.Some? && UserIs(l, x.ext, row.identity.value)
                  && row.values.OfTeam? && TeamIs(l, x.teamCode, row.values.team)
                  && RowOf(row, x, if x.action == "add" then Adding else Ending, row.identity, row.values, Routine))
  {
    CellsAre(x.ext);
    UserFound(l, x.ext);
    if UserWith(l, x.ext).Some? && ActiveTeam(l, x.teamCode).Some? {
      MemberIs(l.d, ActiveTeam(l, x.teamCode).value, UserWith(l, x.ext).value);
    }
  }

  // ---------------------------------------------------------------------- role lines

  const ROLE_NAMES: map<string, Role> :=
    map["manager" := Manager, "team_leader" := TeamLeader, "team_captain" := TeamCaptain, "agent" := Agent,
        "viewer" := Viewer]

  const SCOPE_NAMES: map<string, ScopeKind> :=
    map["installation" := Installation, "organization" := Organization, "team" := Team]

  /** The scope the line names; only a team is given by its code. */
  predicate ScopeIs(l: Lookups, x: Line, s: Scope) {
    && x.scopeType in SCOPE_NAMES && s.kind == SCOPE_NAMES[x.scopeType]
    && if s.kind == Team then s.id.Some? && x.scopeCode != "" && TeamIs(l, x.scopeCode, s.id.value) else s.id.None?
  }

  function RoleText(x: Line, s: Scope): string {
    x.ext + ":" + x.roleCode + ":" + x.scopeType + ":" + if s.id.Some? then UuidText.Print(s.id.value) else "None"
  }

  predicate GoodRoleLine(l: Lookups, x: Line, seen: set<string>, s: Scope) {
    && GoodId(x.ext) && x.action in {"assign", "end"} && x.roleCode in ROLE_NAMES && GoodReason(x.reason)
    && ScopeIs(l, x, s) && RoleText(x, s) !in seen
  }

  lemma {:induction false} NamesAre(x: Line)
    ensures RoleNamed(x.roleCode) == if x.roleCode in ROLE_NAMES then Some(ROLE_NAMES[x.roleCode]) else None
    ensures ScopeNamed(x.scopeType) == if x.scopeType in SCOPE_NAMES then Some(SCOPE_NAMES[x.scopeType]) else None
  {
  }

  lemma {:induction false} RoleLines(l: Lookups, x: Line, seen: set<string>)
    requires LookupsOk(l)
    ensures var v := Classify(l, RoleRows, x, seen).row.validation;
            && (v == Valid <==>
                  exists u, s :: && GoodRoleLine(l, x, seen, s) && UserIs(l, x.ext, u)
                                 && (x.action == "assign" <==> !HoldsRole(l.d, u, ROLE_NAMES[x.roleCode], s)))
            && (v == Warning <==>
                  exists u, s :: && GoodRoleLine(l, x, seen, s) && UserIs(l, x.ext, u)
                                 && x.action == "assign" && HoldsRole(l.d, u, ROLE_NAMES[x.roleCode], s))
  {
    RoleLineKey(l, x);
    UserFound(l, x.ext);
    if UserWith(l, x.ext).Some? && x.roleCode in ROLE_NAMES && x.scopeType in SCOPE_NAMES {
      RoleIs(l.d, UserWith(l, x.ext).value, ROLE_NAMES[x.roleCode], ScopeOf(l, x));
    }
  }

  /** The one scope the line can name. */
  function ScopeOf(l: Lookups, x: Line): Scope
    requires x.scopeType in SCOPE_NAMES
  {
    Scope(SCOPE_NAMES[x.scopeType],
          if x.scopeType == "team" && x.scopeCode in l.codes then Some(l.codes[x.scopeCode]) else None)
  }

  lemma {:induction false} RoleLineKey(l: Lookups, x: Line)
    ensures var key := KeyOf(l, RoleRows, x);
            && (key.Some? <==>
                  && GoodId(x.ext) && x.action in {"assign", "end"} && x.roleCode in ROLE_NAMES && GoodReason(x.reason)
                  && x.scopeType in SCOPE_NAMES && ScopeIs(l, x, ScopeOf(l, x)))
            && (key.Some? ==> key.value == RoleText(x, ScopeOf(l, x)))
    ensures RoleNamed(x.roleCode) == if x.roleCode in ROLE_NAMES then Some(ROLE_NAMES[x.roleCode]) else None
    ensures ScopeNamed(x.scopeType) == if x.scopeType in SCOPE_NAMES then Some(SCOPE_NAMES[x.scopeType]) else None
  {
    CellsAre(x.ext);
    CellsAre(x.reason);
    NamesAre(x);
  }

  lemma {:induction false} RoleLineRow(l: Lookups, x: Line, seen: set<string>)
    requires LookupsOk(l)
    ensures var row := Classify(l, RoleRows, x, seen).row;
            row.validation != Invalid ==>
              && row.identity.Some? && UserIs(l, x.ext, row.identity.value) && x.roleCode in ROLE_NAMES
              && row.values.OfRole? && row.values.role == ROLE_NAMES[x.roleCode] && ScopeIs(l, x, row.values.scope)
              && if x.action == "assign" then RowOf(row, x, Assigning, row.identity, row.values, HighRisk)
                 else RowOf(row, x, Ending, row.identity, row.values, Routine)
  {
    UserFound(l, x.ext);
    NamesAre(x);
  }

  // ----------------------------------------------------------------- reporting lines

  predicate GoodReporting(x: Line, seen: set<string>) {
    && GoodId(x.ext) && x.action == "set" && GoodId(x.supervisor) && x.supervisor != x.ext && x.ext !in seen
  }

  lemma {:induction false} ReportingLines(l: Lookups, x: Line, seen: set<string>)
    requires LookupsOk(l) && UniqueOpen(l.d.lines)
    ensures var row := Classify(l, ReportingRows, x, seen).row;
            && (row.validation == Valid <==>
                  GoodReporting(x, seen) && exists u, v :: && UserIs(l, x.ext, u) && UserIs(l, x.supervisor, v)
                                                           && l.d.users[v].active && !ReportsTo(l.d, u, v))
            && (row.validation == Warning <==>
                  GoodReporting(x, seen) && exists u, v :: && UserIs(l, x.ext, u) && UserIs(l, x.supervisor, v)
                                                           && l.d.users[v].active && ReportsTo(l.d, u, v))
            && (row.validation != Invalid ==>
                  && row.identity.Some? && UserIs(l, x.ext, row.identity.value)
                  && row.values.OfSupervisor? && UserIs(l, x.supervisor, row.values.supervisor)
                  && RowOf(row, x, Setting, row.identity, row.values, Routine))
  {
    CellsAre(x.ext);
    CellsAre(x.supervisor);
    UserFound(l, x.ext);
    UserFound(l, x.supervisor);
    if UserWith(l, x.ext).Some? && UserWith(l, x.supervisor).Some? {
      LineIs(l.d, UserWith(l, x.ext).value, UserWith(l, x.supervisor).value);
    }
  }
}
