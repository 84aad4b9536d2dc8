/** Capabilities, roles and the default role-to-capability map. */
module Capabilities {
  import opened Basics

  datatype Capability =
    | TechnicalConfig
    | ResetUserAuth
    | ViewAudit
    | CreateManager
    | ManageRoles
    | AppointTeamLeader
    | AppointTeamCaptain
    | CreateAgent
    | CreateCampaign
    | ViewCampaign
    | ManageCampaign
    | PauseCampaign
    | LaunchCampaign
    | ArchiveCampaign
    | WorkQueue
    | AssignCampaignAgent
    | ViewCampaignReports
    | ExportCompletedCampaign
    | UnknownCapability(code: string)

  datatype Role = SuperAdmin | Manager | TeamLeader | TeamCaptain | Agent | Viewer | UnknownRole(code: string)

  function RoleCapabilities(r: Role): set<Capability> {
    match r
    case SuperAdmin => {TechnicalConfig, ResetUserAuth, ViewAudit, CreateManager, ManageRoles}
    case Manager => {
      AppointTeamLeader, AppointTeamCaptain, CreateAgent, ManageRoles, CreateCampaign, ViewCampaign,
      ManageCampaign, PauseCampaign, LaunchCampaign, ArchiveCampaign, AssignCampaignAgent,
      ViewCampaignReports, ExportCompletedCampaign, ViewAudit
    }
    case TeamLeader => {
      AppointTeamCaptain, CreateAgent, CreateCampaign, ViewCampaign, ManageCampaign, PauseCampaign,
      AssignCampaignAgent, ViewCampaignReports, ExportCompletedCampaign, ViewAudit
    }
    case TeamCaptain => {
      CreateAgent, ViewCampaign, AssignCampaignAgent, ViewCampaignReports, ExportCompletedCampaign, ViewAudit
    }
    case Agent => {WorkQueue}
    case Viewer => {ViewCampaign, ViewCampaignReports}
    case UnknownRole(_) => {}
  }

  const ALL_CAPABILITIES: set<Capability> :=
    RoleCapabilities(SuperAdmin) + RoleCapabilities(Manager) + RoleCapabilities(TeamLeader)
    + RoleCapabilities(TeamCaptain) + RoleCapabilities(Agent) + RoleCapabilities(Viewer)

  /** Role elevation and system configuration: never part of a delegation. */
  const NON_DELEGABLE: set<Capability> := {TechnicalConfig, ResetUserAuth, CreateManager, ManageRoles}

  /** The capability that gates appointing a user into a role; super administrators are
      never appointed through the application. */
  function Appointment(r: Role): Option<Capability> {
    match r
    case Manager => Some(CreateManager)
    case TeamLeader => Some(AppointTeamLeader)
    case TeamCaptain => Some(AppointTeamCaptain)
    case Agent => Some(CreateAgent)
    case Viewer => Some(ManageRoles)
    case _ => None
  }

  const APPOINTMENT_CAPABILITIES: set<Capability> :=
    {CreateManager, AppointTeamLeader, AppointTeamCaptain, CreateAgent, ManageRoles}
}
