/** Classifying the rows of a workforce file: per-type validity, lookups against the current
    directory, and the in-file duplicate keys that keep committed rows apart. */
module ImportClassify {
  import opened Basics
  import opened Tables
  import opened Capabilities
  import opened Authz
  import opened ImportRows
  import opened Workforce
  import opened ImportEffects
  import UuidText

  const MAX_WORKFORCE_ID := 150
  const MAX_NAME := 200
  const MAX_EMAIL := 320
  const MAX_REASON := 50

  datatype Day = NoDay | Day(n: int) | BadDay

  /** One line of the file, its cells already stripped and lower-cased where the classifier
      does so; an e-mail address is already normalized. */
  datatype Line = Line(
    number: nat, action: string, ext: string, email: string, name: string, start: Day, end: Day,
    teamCode: string, roleCode: string, scopeType: string, scopeCode: string, reason: string, supervisor: string)

  predicate IsSpace(c: char) {
    c in {' ', '\t', '\n', '\r'}
  }

  predicate NoSpace(s: string) {
    forall i :: 0 <= i < |s| ==> !IsSpace(s[i])
  }

  predicate ValidId(s: string) {
    s != "" && |s| <= MAX_WORKFORCE_ID && NoSpace(s)
  }

  /** A local part, an `@`, and a domain with a dot. */
  predicate ValidEmail(s: string) {
    && s != "" && |s| <= MAX_EMAIL && NoSpace(s) && '@' in s
    && var at := |LocalPart(s)|;
       at > 0 && at < |s| && s[at + 1..] != "" && '.' in s[at + 1..]
  }

  predicate ReasonChar(c: char) {
    'a' <= c <= 'z' || '0' <= c <= '9' || c == '_'
  }

  predicate ValidReason(s: string) {
    s != "" && |s| <= MAX_REASON && forall i :: 0 <= i < |s| ==> ReasonChar(s[i])
  }

  /** What a row is looked up in: users by the unique index on workforce ids, teams by code. */
  datatype Lookups = Lookups(d: Directory, ids: map<string, Uuid>, codes: map<string, Uuid>)

  ghost predicate LookupsOk(l: Lookups) {
    && (forall x :: x in l.ids ==> l.ids[x] in l.d.users && l.d.users[l.ids[x]].workforceId == x)
    && (forall u :: u in l.d.users ==> l.d.users[u].workforceId in l.ids && l.ids[l.d.users[u].workforceId] == u)
    && (forall x, y :: x in l.codes && y in l.codes && l.codes[x] == l.codes[y] ==> x == y)
  }

  function UserWith(l: Lookups, ext: string): Option<Uuid> {
    if ext in l.ids && l.ids[ext] in l.d.users then Some(l.ids[ext]) else None
  }

  function ActiveTeam(l: Lookups, code: string): Option<Uuid> {
    if code in l.codes && l.codes[code] in l.d.teams && l.d.teams[l.codes[code]].active then Some(l.codes[code])
        else None
  }

  function RoleNamed(code: string): Option<Role> {
    if code == "manager" then Some(Manager)
    else if code == "team_leader" then Some(TeamLeader)
    else if code == "team_captain" then Some(TeamCaptain)
    else if code == "agent" then Some(Agent)
    else if code == "viewer" then Some(Viewer)
    else None
  }

  function ScopeNamed(s: string): Option<ScopeKind> {
    if s == "installation" then Some(Installation)
    else if s == "organization" then Some(Organization)
    else if s == "team" then Some(Team)
    else None
  }

  // ------------------------------------------------------------------- the rows

  function Rejected(x: Line, action: Action): ImportRow {
    ImportRow(x.number, action, if ValidId(x.ext) then x.ext else "", None, NoValues, Invalid, Routine)
  }

  function Accepted(x: Line, action: Action, id: Option<Uuid>, values: Values, validation: Validation, risk: Risk)
    : ImportRow {
    ImportRow(x.number, action, x.ext, id, values, validation, risk)
  }

  /** The classified row, and the duplicate key if the row got far enough to claim it. */
  datatype Verdict = Verdict(row: ImportRow, claims: Option<string>)

  function Refused(x: Line, action: Action): Verdict {
    Verdict(Rejected(x, action), None)
  }

  function RoleKeyText(x: Line, team: Option<Uuid>): string {
    x.ext + ":" + x.roleCode + ":" + x.scopeType + ":" + (if team.None? then "None" else UuidText.Print(team.value))
  }

  /** The membership key joins two cells with a colon. */
  function PairKey(ext: string, teamCode: string): string {
    ext + ":" + teamCode
  }

  /** The in-file key of a line, absent when the line fails before the key is looked at. */
  function KeyOf(l: Lookups, kind: ImportType, x: Line): Option<string> {
    match kind
    case UserRows => if ValidId(x.ext) && x.action in {"create", "update", "reactivate"} then Some(x.ext) else None
    case DeactivationRows => if ValidId(x.ext) then Some(x.ext) else None
    case MembershipRows =>
      if ValidId(x.ext) && x.action in {"add", "end"} && x.teamCode != "" then Some(PairKey(x.ext, x.teamCode))
      else None
    case RoleRows =>
      if !ValidId(x.ext) || x.action !in {"assign", "end"} || RoleNamed(x.roleCode).None?
        || ScopeNamed(x.scopeType).None? || !ValidReason(x.reason) then None
      else if x.scopeType != "team" then Some(RoleKeyText(x, None))
      else if x.scopeCode == "" || ActiveTeam(l, x.scopeCode).None? then None
      else Some(RoleKeyText(x, ActiveTeam(l, x.scopeCode)))
    case ReportingRows =>
      if ValidId(x.ext) && x.action == "set" && ValidId(x.supervisor) && x.supervisor != x.ext then Some(x.ext)
      else None
    case CampaignRows => None
  }

  function UserAction(s: string): Action {
    if s == "create" then Creating
    else if s == "update" then Updating
    else if s == "reactivate" then Reactivating
    else NoAction
  }

  function MemberAction(s: string): Action {
    if s == "add" then Adding else if s == "end" then Ending else NoAction
  }

  function RoleAction(s: string): Action {
    if s == "assign" then Assigning else if s == "end" then Ending else NoAction
  }

  function ClassAction(kind: ImportType, s: string): Action {
    match kind
    case UserRows => UserAction(s)
    case DeactivationRows => Deactivating
    case MembershipRows => MemberAction(s)
    case RoleRows => RoleAction(s)
    case ReportingRows => if s == "set" then Setting else NoAction
    case CampaignRows => NoAction
  }

  function ClassifyUser(l: Lookups, x: Line): ImportRow {
    var user := UserWith(l, x.ext);
    if x.action == "create" then
      if user.Some? || !ValidEmail(x.email) || x.name == "" || |x.name| > MAX_NAME || x.start.BadDay? || x.end.BadDay?
      then Rejected(x, Creating)
      else Accepted(x, Creating, None, NewUser(x.email, x.name, DayValue(x.start), DayValue(x.end)), Valid, Routine)
    else if user.None? then Rejected(x, UserAction(x.action))
    else if x.action == "reactivate" then
      Accepted(x, Reactivating, user, NoValues, if l.d.users[user.value].active then Warning else Valid, Routine)
    else if x.start.BadDay? || x.end.BadDay? || |x.name| > MAX_NAME then Rejected(x, Updating)
    else if x.name == "" && x.start.NoDay? && x.end.NoDay? then Rejected(x, Updating)
    else
      var changes := Changes(if x.name == "" then None else Some(x.name), DayValue(x.start), DayValue(x.end));
      Accepted(x, Updating, user, changes, Valid, Routine)
  }

  function DayValue(d: Day): Option<int> {
    if d.Day? then Some(d.n) else None
  }

  function ClassifyDeactivation(l: Lookups, x: Line): ImportRow {
    var user := UserWith(l, x.ext);
    if !ValidReason(x.reason) || user.None? then Rejected(x, Deactivating)
    else Accepted(x, Deactivating, user, NoValues, if l.d.users[user.value].active then Valid else Warning, HighRisk)
  }

  function ClassifyMembership(l: Lookups, x: Line): ImportRow {
    var action := MemberAction(x.action);
    var team, user := ActiveTeam(l, x.teamCode), UserWith(l, x.ext);
    if team.None? || user.None? then Rejected(x, action)
    else
      var member := Find(l.d.members, MemberKey(team.value, user.value)).Some?;
      if action == Ending && !member then Rejected(x, action)
      else Accepted(x, action, user, OfTeam(team.value), if action == Adding && member then Warning else Valid, Routine)
  }

  function ClassifyRole(l: Lookups, x: Line): ImportRow
    requires RoleNamed(x.roleCode).Some? && ScopeNamed(x.scopeType).Some?
  {
    var action := RoleAction(x.action);
    var user := UserWith(l, x.ext);
    if user.None? then Rejected(x, action)
    else
      var role := RoleNamed(x.roleCode).value;
      var team := if x.scopeType == "team" then ActiveTeam(l, x.scopeCode) else None;
      var scope := Scope(ScopeNamed(x.scopeType).value, team);
      var held := Find(l.d.roles, RoleKey(user.value, role, scope)).Some?;
      if action == Ending && !held then Rejected(x, action)
      else Accepted(x, action, user, OfRole(role, scope), if action == Assigning && held then Warning else Valid,
                    if action == Assigning then HighRisk else Routine)
  }

  function ClassifyReporting(l: Lookups, x: Line): ImportRow {
    var user, supervisor := UserWith(l, x.ext), UserWith(l, x.supervisor);
    if user.None? || supervisor.None? || !l.d.users[supervisor.value].active then Rejected(x, Setting)
    else
      Accepted(x, Setting, user, OfSupervisor(supervisor.value),
               if Value(l.d.lines, user.value) == supervisor then Warning else Valid, Routine)
  }

  /** One line against the keys claimed so far: malformed lines claim nothing, a repeated key
      is a duplicate, and any other line claims its key before it is looked up. */
  function Classify(l: Lookups, kind: ImportType, x: Line, seen: set<string>): Verdict
    requires kind != CampaignRows
  {
    var key := KeyOf(l, kind, x);
    if key.None? || key.value in seen then Refused(x, ClassAction(kind, x.action))
    else
      Verdict(match kind
              case UserRows => ClassifyUser(l, x)
              case DeactivationRows => ClassifyDeactivation(l, x)
              case MembershipRows => ClassifyMembership(l, x)
              case RoleRows => ClassifyRole(l, x)
              case ReportingRows => ClassifyReporting(l, x),
              key)
  }

  // --------------------------------------------------------------------- the file

  function SeenBefore(l: Lookups, kind: ImportType, lines: seq<Line>): set<string> {
    set i | 0 <= i < |lines| && KeyOf(l, kind, lines[i]).Some? :: KeyOf(l, kind, lines[i]).value
  }

  /** The rows of a file: each line judged against the keys of all lines before it. */
  function Rows(l: Lookups, kind: ImportType, lines: seq<Line>): (r: seq<ImportRow>)
    requires kind != CampaignRows
    ensures |r| == |lines|
  {
    if lines == [] then []
    else
      var n := |lines| - 1;
      Rows(l, kind, lines[..n]) + [Classify(l, kind, lines[n], SeenBefore(l, kind, lines[..n])).row]
  }

  lemma {:induction false} RowsAt(l: Lookups, kind: ImportType, lines: seq<Line>, i: nat)
    requires kind != CampaignRows && i < |lines|
    ensures Rows(l, kind, lines)[i] == Classify(l, kind, lines[i], SeenBefore(l, kind, lines[..i])).row
    decreases |lines|
  {
    var n := |lines| - 1;
    if i < n {
      RowsAt(l, kind, lines[..n], i);
      assert lines[..n][..i] == lines[..i];
    }
  }

  /** A valid row fits its type: whatever commit needs of it, classification checked. */
  lemma {:induction false} ValidRowFits(l: Lookups, kind: ImportType, x: Line, seen: set<string>)
    requires kind != CampaignRows && Classify(l, kind, x, seen).row.validation == Valid
    ensures Fits(l.d, kind, Classify(l, kind, x, seen).row)
  {
  }

  /** Only deactivations and role assignments are ever high-risk. */
  lemma {:induction false} HighRiskKinds(l: Lookups, kind: ImportType, x: Line, seen: set<string>)
    requires kind != CampaignRows && Classify(l, kind, x, seen).row.risk == HighRisk
    ensures kind in {DeactivationRows, RoleRows}
  {
    match kind
    case UserRows =>
    case MembershipRows =>
    case ReportingRows =>
    case _ =>
  }

  /** Two valid rows that act on the same entity have the same in-file key. */
  lemma {:induction false} SameTargetSameKey(l: Lookups, kind: ImportType, x: Line, y: Line, xs: set<string>,
                                             ys: set<string>, newX: Uuid, newY: Uuid)
    requires LookupsOk(l) && kind != CampaignRows && newX !in l.d.users && newY !in l.d.users && newX != newY
    requires Classify(l, kind, x, xs).row.validation == Valid && Classify(l, kind, y, ys).row.validation == Valid
    requires Target(kind, Classify(l, kind, x, xs).row, newX) == Target(kind, Classify(l, kind, y, ys).row, newY)
    ensures KeyOf(l, kind, x).Some? && KeyOf(l, kind, x) == KeyOf(l, kind, y)
  {
    match kind
    case UserRows =>
    case DeactivationRows =>
    case MembershipRows => assert x.ext == y.ext && x.teamCode == y.teamCode;
    case RoleRows => SameRoleSameKey(l, x, y, xs, ys);
    case ReportingRows =>
  }

  lemma {:induction false} SameRoleSameKey(l: Lookups, x: Line, y: Line, xs: set<string>, ys: set<string>)
    requires LookupsOk(l)
    requires Classify(l, RoleRows, x, xs).row.validation == Valid
    requires Classify(l, RoleRows, y, ys).row.validation == Valid
    requires Target(RoleRows, Classify(l, RoleRows, x, xs).row, 0) ==
        Target(RoleRows, Classify(l, RoleRows, y, ys).row, 0)
    ensures KeyOf(l, RoleRows, x).Some? && KeyOf(l, RoleRows, x) == KeyOf(l, RoleRows, y)
  {
    assert x.ext == y.ext && x.roleCode == y.roleCode && x.scopeType == y.scopeType;
  }

  /** Valid rows of one file act on distinct entities, provided created users get fresh
      identifiers of their own. */
  lemma {:induction false} ValidRowsActApart(l: Lookups, kind: ImportType, lines: seq<Line>, i: nat, j: nat,
                                             newI: Uuid, newJ: Uuid)
    requires LookupsOk(l) && kind != CampaignRows && i < j < |lines|
    requires newI !in l.d.users && newJ !in l.d.users && newI != newJ
    requires Rows(l, kind, lines)[i].validation == Valid && Rows(l, kind, lines)[j].validation == Valid
    ensures Target(kind, Rows(l, kind, lines)[i], newI) != Target(kind, Rows(l, kind, lines)[j], newJ)
  {
    RowsAt(l, kind, lines, i);
    RowsAt(l, kind, lines, j);
    var before := SeenBefore(l, kind, lines[..j]);
    assert lines[..j][i] == lines[i];
    assert KeyOf(l, kind, lines[i]).Some? ==> KeyOf(l, kind, lines[i]).value in before;
    if Target(kind, Rows(l, kind, lines)[i], newI) == Target(kind, Rows(l, kind, lines)[j], newJ) {
      SameTargetSameKey(l, kind, lines[i], lines[j], SeenBefore(l, kind, lines[..i]), before, newI, newJ);
    }
  }

  // ------------------------------------------------- how sharp the membership key is

  /** One id continues the other with a colon and the start of the other's team code. */
  predicate Continues(e: string, t: string, f: string, u: string) {
    |e| < |f| && f[..|e|] == e && f[|e|] == ':' && t == f[|e| + 1..] + ":" + u
  }

  /** Exactly when two membership pairs have one in-file key. */
  lemma {:induction false} PairKeysCollideIff(e: string, t: string, f: string, u: string)
    ensures PairKey(e, t) == PairKey(f, u) <==> (e == f && t == u) || Continues(e, t, f, u) || Continues(f, u, e, t)
  {
    if |e| <= |f| {
      KeysContinue(e, t, f, u);
    } else {
      KeysContinue(f, u, e, t);
    }
  }

  lemma {:induction false} KeysContinue(e: string, t: string, f: string, u: string)
    requires |e| <= |f|
    ensures PairKey(e, t) == PairKey(f, u) <==> (e == f && t == u) || Continues(e, t, f, u)
  {
    var k, m := PairKey(e, t), PairKey(f, u);
    if k == m {
      assert e == k[..|e|] == f[..|e|];
      assert t == k[|e| + 1..] == m[|e| + 1..];
      if |e| == |f| {
        assert u == m[|e| + 1..];
      } else {
        assert f[|e|] == m[|e|] == k[|e|] == ':';
        assert m[|e| + 1..] == f[|e| + 1..] + ":" + u;
      }
    }
    if Continues(e, t, f, u) {
      assert f == e + ":" + f[|e| + 1..];
      assert k == e + ":" + (f[|e| + 1..] + ":" + u) == m;
    }
  }

  /** An earlier line takes the key of a later one. */
  predicate Clashes(l: Lookups, x: Line, y: Line) {
    && KeyOf(l, MembershipRows, x).Some?
    && ((x.ext == y.ext && x.teamCode == y.teamCode)
        || Continues(x.ext, x.teamCode, y.ext, y.teamCode) || Continues(y.ext, y.teamCode, x.ext, x.teamCode))
  }

  /** A well-formed membership line is refused for its key exactly if an earlier line names the
      same pair, or a pair whose two ids continue one another that way. Otherwise it is judged as
      if it stood alone. */
  lemma {:induction false} MembershipRefusedIff(l: Lookups, lines: seq<Line>, n: nat)
    requires n < |lines| && KeyOf(l, MembershipRows, lines[n]).Some?
    ensures KeyOf(l, MembershipRows, lines[n]).value in SeenBefore(l, MembershipRows, lines[..n]) <==>
              exists i :: 0 <= i < n && Clashes(l, lines[i], lines[n])
    ensures Rows(l, MembershipRows, lines)[n] ==
              if exists i :: 0 <= i < n && Clashes(l, lines[i], lines[n])
              then Rejected(lines[n], MemberAction(lines[n].action)) else ClassifyMembership(l, lines[n])
  {
    var y := lines[n];
    RowsAt(l, MembershipRows, lines, n);
    forall i | 0 <= i < n
      ensures KeyOf(l, MembershipRows, lines[i]) == KeyOf(l, MembershipRows, y) <==> Clashes(l, lines[i], y)
    {
      PairKeysCollideIff(lines[i].ext, lines[i].teamCode, y.ext, y.teamCode);
    }
    assert forall i :: 0 <= i < n ==> lines[..n][i] == lines[i];
    if KeyOf(l, MembershipRows, y).value in SeenBefore(l, MembershipRows, lines[..n]) {
      var i :| 0 <= i < n && KeyOf(l, MembershipRows, lines[..n][i]) == KeyOf(l, MembershipRows, y);
      assert Clashes(l, lines[i], y);
    }
    if i :| 0 <= i < n && Clashes(l, lines[i], y) {
      assert KeyOf(l, MembershipRows, lines[..n][i]) == KeyOf(l, MembershipRows, y);
    }
  }

  function Joining(number: nat, ext: string, teamCode: string): Line {
    Line(number, "add", ext, "", "", NoDay, NoDay, teamCode, "", "", "", "", "")
  }

  /** Two lines of one file, for two users and two teams: alone, each of them is valid and would
      add its own user to its own team; together, the second is refused as a duplicate. */
  lemma {:induction false} DifferentPairsCanCollide() returns (l: Lookups, x: Line, y: Line)
    ensures LookupsOk(l) && ValidDirectory(l.d)
    ensures var alone, other := Rows(l, MembershipRows, [y])[0], Rows(l, MembershipRows, [x])[0];
            && alone.validation == Valid && other.validation == Valid
            && alone.identity != other.identity && alone.values != other.values
    ensures Rows(l, MembershipRows, [x, y])[1].validation == Invalid
  {
    l := TwoOfEach();
    x, y := Joining(2, "a", "b:c"), Joining(3, "a:b", "c");
    TwoKeys(l, x, y);
    JudgedAlone(l, x);
    JudgedAlone(l, y);
    SecondRefused(l, x, y);
  }

  lemma {:induction false} TwoOfEach() returns (l: Lookups)
    ensures LookupsOk(l) && ValidDirectory(l.d) && l.d.members == []
    ensures UserWith(l, "a") == Some(1) && UserWith(l, "a:b") == Some(2)
    ensures ActiveTeam(l, "b:c") == Some(11) && ActiveTeam(l, "c") == Some(12)
  {
    var one, two := User("a", "", "", true, ActiveStanding, None, None, None),
        User("a:b", "", "", true, ActiveStanding, None, None, None);
    var d := Directory(map[1 := one, 2 := two], [], [], [], map[11 := TeamInfo(0, true), 12 := TeamInfo(0, true)]);
    l := Lookups(d, map["a" := 1, "a:b" := 2], map["b:c" := 11, "c" := 12]);
  }

  lemma {:induction false} JudgedAlone(l: Lookups, x: Line)
    requires KeyOf(l, MembershipRows, x).Some?
    ensures Rows(l, MembershipRows, [x])[0] == ClassifyMembership(l, x)
  {
    MembershipRefusedIff(l, [x], 0);
  }

  lemma {:induction false} SecondRefused(l: Lookups, x: Line, y: Line)
    requires KeyOf(l, MembershipRows, y).Some? && Clashes(l, x, y)
    ensures Rows(l, MembershipRows, [x, y])[1].validation == Invalid
  {
    MembershipRefusedIff(l, [x, y], 1);
    assert Clashes(l, [x, y][0], y);
  }

  lemma {:induction false} TwoKeys(l: Lookups, x: Line, y: Line)
    requires x == Joining(2, "a", "b:c") && y == Joining(3, "a:b", "c")
    ensures KeyOf(l, MembershipRows, x).Some? && KeyOf(l, MembershipRows, y).Some? && Clashes(l, x, y)
  {
    assert "a:b"[2..] == "b";
  }
}
