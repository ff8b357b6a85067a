/** The rows of the tables the service keeps. */
module Records {
  import opened Results

  datatype Role = Admin | Operator

  /** `role` is None for a text the role parser rejects. */
  datatype User = User(id: int, username: string, passwordHash: string, role: Option<Role>, enabled: bool)

  datatype Site = Site(
    name: string,
    provider: string,
    routerHost: string,
    sshPort: int,
    lanInterface: string,
    sshUsername: string,
    fingerprint: Option<string>,
    allowLegacySsh: bool,
    enabled: bool)

  datatype Device = Device(
    name: string,
    siteId: int,
    mac: string,
    ip: Option<string>,
    description: string,
    enabled: bool)

  /** A credential at rest. The cipher is ideal: opening what was sealed gives it back, or fails. */
  datatype Secret = Secret(kind: string, plaintext: string)

  datatype WakeStatus = Success | Failed

  datatype WakeEvent = WakeEvent(userId: Option<int>, deviceId: int, siteId: int, status: WakeStatus)

  datatype AuditAction =
    | LoginFailed | LoginSucceeded
    | SiteCreated | SiteUpdated | SiteDeleted | SiteHostKeyTrusted
    | DeviceCreated | DeviceUpdated | DeviceDeleted | DeviceWake | DeviceWakeFailed
    | UserCreated | UserPasswordReset | UserPasswordChanged | SettingsUpdated

  datatype AuditEvent = AuditEvent(userId: Option<int>, action: AuditAction, target: Option<int>)
}
