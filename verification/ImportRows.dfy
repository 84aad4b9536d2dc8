/** Classified rows of a workforce import and the one authorization fact each depends on. */
module ImportRows {
  import opened Basics
  import opened Capabilities
  import opened Authz

  datatype ImportType =
    | UserRows | DeactivationRows | MembershipRows | RoleRows | ReportingRows | CampaignRows

  datatype Action =
    | Creating | Updating | Reactivating | Deactivating | Adding | Ending | Assigning | Setting | NoAction

  datatype Validation = Valid | Warning | Invalid

  datatype Risk = Routine | HighRisk

  /** The parsed values of a row; a field the classifier did not set is absent. */
  datatype Values =
    | NoValues
    | NewUser(login: string, name: string, start: Option<int>, end: Option<int>)
    | Changes(newName: Option<string>, newStart: Option<int>, newEnd: Option<int>)
    | OfTeam(team: Uuid)
    | OfRole(role: Role, scope: Scope)
    | OfSupervisor(supervisor: Uuid)
    | OfCampaign(campaign: Uuid, assignTeam: Option<Uuid>)

  datatype ImportRow = ImportRow(
    number: nat, action: Action, ext: string, identity: Option<Uuid>,
    values: Values, validation: Validation, risk: Risk)

  datatype Requirement =
    | Deny
    | MayManage(user: Uuid)
    | MayScope(cap: Capability, scope: Scope)
    | MayStaff(campaign: Uuid)

  /** What acting on the row requires; `None` only for a valid plain user creation. */
  function RowRequirement(kind: ImportType, row: ImportRow): Option<Requirement> {
    var target := if row.identity.None? then Deny else MayManage(row.identity.value);
    match kind
    case DeactivationRows => Some(target)
    case ReportingRows => Some(target)
    case UserRows =>
      if row.action == Creating then (if row.validation == Valid then None else Some(Deny))
      else if row.action == Updating || row.action == Reactivating then Some(target)
      else Some(Deny)
    case MembershipRows =>
      if row.values.OfTeam? then Some(MayScope(AppointTeamCaptain, Scope(Team, Some(row.values.team)))) else Some(Deny)
    case RoleRows =>
      if row.values.OfRole? && Appointment(row.values.role).Some?
      then Some(MayScope(Appointment(row.values.role).value, row.values.scope))
      else Some(Deny)
    case CampaignRows =>
      if row.values.OfCampaign? then Some(MayStaff(row.values.campaign)) else Some(Deny)
  }

  function RowRequirements(kind: ImportType, rows: seq<ImportRow>): (r: seq<Option<Requirement>>)
    ensures |r| == |rows|
    ensures forall i :: 0 <= i < |rows| ==> r[i] == RowRequirement(kind, rows[i])
  {
    seq(|rows|, i requires 0 <= i < |rows| => RowRequirement(kind, rows[i]))
  }
}
