/** The relational store: tables with their constraints and cascades. Every call holds the one
    connection, so it is one atomic step; it may also fail for reasons of its own, and then it
    changes nothing. */
module Store {
  import opened Results
  import opened Records
  import opened Forms

  /** `siteSeq` and its kin are the highest ids ever given out: AUTOINCREMENT never reuses one. */
  datatype StoreModel = StoreModel(
    users: map<string, User>,
    settings: map<string, string>,
    sites: map<int, Site>,
    devices: map<int, Device>,
    secrets: map<int, Secret>,
    wakeEvents: seq<WakeEvent>,
    auditEvents: seq<AuditEvent>,
    userSeq: int,
    siteSeq: int,
    deviceSeq: int)

  datatype DbCall =
    | FindUser(username: string)
    | InsertUser(username: string, passwordHash: string, role: Role)
    | UpdatePassword(username: string, passwordHash: string)
    | SetSetting(key: string, value: string)
    | GetSite(id: int)
    | InsertSite(site: SiteValues)
    | UpdateSite(id: int, site: SiteValues)
    | TrustFingerprint(id: int, fingerprint: string)
    | ClearFingerprint(id: int)
    | DeleteSite(id: int)
    | GetDevice(id: int)
    | InsertDevice(device: DeviceValues)
    | UpdateDevice(id: int, device: DeviceValues)
    | DeleteDevice(id: int)
    | UpsertSecret(id: int, secret: Secret)
    | GetSecret(id: int)
    | InsertWakeEvent(event: WakeEvent)
    | InsertAuditEvent(audit: AuditEvent)

  datatype DbReply =
    | DbFailed
    | Stored
    | Changed(rows: bool)
    | NewId(id: int)
    | UserRow(user: Option<User>)
    | SiteRow(site: Option<Site>)
    | DeviceRow(device: Option<Device>)
    | SecretRow(secret: Option<Secret>)

  predicate NameTaken(sites: map<int, Site>, id: int, name: string) {
    exists other | other in sites :: other != id && sites[other].name == name
  }

  predicate AddressTaken(devices: map<int, Device>, id: int, siteId: int, mac: string) {
    exists other | other in devices :: other != id && devices[other].siteId == siteId && devices[other].mac == mac
  }

  predicate UserKnown(users: map<string, User>, id: int) {
    exists name | name in users :: users[name].id == id
  }

  /** The nullable reference of an event row to its user. */
  predicate UserRefOk(users: map<string, User>, id: Option<int>) {
    id.None? || UserKnown(users, id.value)
  }

  function NewSite(v: SiteValues): Site {
    Site(v.name, "yamaha_rtx", v.routerHost, v.sshPort, v.lanInterface, v.sshUsername, None, v.allowLegacySsh, true)
  }

  function EditedSite(site: Site, v: SiteValues): Site {
    site.(name := v.name, routerHost := v.routerHost, sshPort := v.sshPort, lanInterface := v.lanInterface,
          sshUsername := v.sshUsername, allowLegacySsh := v.allowLegacySsh, enabled := v.enabled)
  }

  function NewDevice(v: DeviceValues): Device {
    Device(v.name, v.siteId, v.mac, v.ip, v.description, true)
  }

  function EditedDevice(v: DeviceValues): Device {
    Device(v.name, v.siteId, v.mac, v.ip, v.description, v.enabled)
  }

  /** Deleting a site takes its devices and its secret with it. */
  function WithoutSite(s: StoreModel, id: int): StoreModel {
    s.(sites := s.sites - {id},
       devices := map d | d in s.devices && s.devices[d].siteId != id :: s.devices[d],
       secrets := s.secrets - {id})
  }

  /** The specification of one call. */
  function Execute(s: StoreModel, call: DbCall, fails: bool): (StoreModel, DbReply) {
    if fails then (s, DbFailed)
    else match call
      case FindUser(_) | InsertUser(_, _, _) | UpdatePassword(_, _) | SetSetting(_, _) => OnAccounts(s, call)
      case GetSite(_) | InsertSite(_) | UpdateSite(_, _) => OnSites(s, call)
      case TrustFingerprint(_, _) | ClearFingerprint(_) | DeleteSite(_) => OnSites(s, call)
      case GetDevice(_) | InsertDevice(_) | UpdateDevice(_, _) | DeleteDevice(_) => OnDevices(s, call)
      case UpsertSecret(_, _) | GetSecret(_) => OnSecrets(s, call)
      case InsertWakeEvent(_) | InsertAuditEvent(_) => OnEvents(s, call)
  }

  // One table group each; a call of another group does not come here.

  function OnAccounts(s: StoreModel, call: DbCall): (StoreModel, DbReply) {
    match call
    case FindUser(name) => (s, UserRow(if name in s.users then Some(s.users[name]) else None))
    case InsertUser(name, hash, role) =>
      if name in s.users then (s, DbFailed)
      else (s.(users := s.users[name := User(s.userSeq + 1, name, hash, Some(role), true)], userSeq := s.userSeq + 1),
            NewId(s.userSeq + 1))
    case UpdatePassword(name, hash) =>
      if name in s.users then (s.(users := s.users[name := s.users[name].(passwordHash := hash)]), Changed(true))
      else (s, Changed(false))
    case SetSetting(key, value) => (s.(settings := s.settings[key := value]), Stored)
    case _ => (s, DbFailed)
  }

  function OnSites(s: StoreModel, call: DbCall): (StoreModel, DbReply) {
    match call
    case GetSite(id) => (s, SiteRow(if id in s.sites then Some(s.sites[id]) else None))
    case InsertSite(v) =>
      if NameTaken(s.sites, s.siteSeq + 1, v.name) then (s, DbFailed)
      else (s.(sites := s.sites[s.siteSeq + 1 := NewSite(v)], siteSeq := s.siteSeq + 1), NewId(s.siteSeq + 1))
    case UpdateSite(id, v) =>
      if id !in s.sites then (s, Changed(false))
      else if NameTaken(s.sites, id, v.name) then (s, DbFailed)
      else (s.(sites := s.sites[id := EditedSite(s.sites[id], v)]), Changed(true))
    case TrustFingerprint(id, fingerprint) =>
      if id !in s.sites then (s, Changed(false))
      else (s.(sites := s.sites[id := s.sites[id].(fingerprint := Some(fingerprint))]), Changed(true))
    case ClearFingerprint(id) =>
      if id !in s.sites then (s, Changed(false))
      else (s.(sites := s.sites[id := s.sites[id].(fingerprint := None)]), Changed(true))
    case DeleteSite(id) =>
      if id !in s.sites then (s, Changed(false)) else (WithoutSite(s, id), Changed(true))
    case _ => (s, DbFailed)
  }

  function OnDevices(s: StoreModel, call: DbCall): (StoreModel, DbReply) {
    match call
    case GetDevice(id) =>
      (s, DeviceRow(if id in s.devices && s.devices[id].siteId in s.sites then Some(s.devices[id]) else None))
    case InsertDevice(v) =>
      if v.siteId !in s.sites || AddressTaken(s.devices, s.deviceSeq + 1, v.siteId, v.mac) then (s, DbFailed)
      else (s.(devices := s.devices[s.deviceSeq + 1 := NewDevice(v)], deviceSeq := s.deviceSeq + 1),
          NewId(s.deviceSeq + 1))
    case UpdateDevice(id, v) =>
      if id !in s.devices then (s, Changed(false))
      else if v.siteId !in s.sites || AddressTaken(s.devices, id, v.siteId, v.mac) then (s, DbFailed)
      else (s.(devices := s.devices[id := EditedDevice(v)]), Changed(true))
    case DeleteDevice(id) =>
      if id !in s.devices then (s, Changed(false)) else (s.(devices := s.devices - {id}), Changed(true))
    case _ => (s, DbFailed)
  }

  function OnSecrets(s: StoreModel, call: DbCall): (StoreModel, DbReply) {
    match call
    case UpsertSecret(id, secret) =>
      if id !in s.sites then (s, DbFailed) else (s.(secrets := s.secrets[id := secret]), Stored)
    case GetSecret(id) => (s, SecretRow(if id in s.secrets then Some(s.secrets[id]) else None))
    case _ => (s, DbFailed)
  }

  function OnEvents(s: StoreModel, call: DbCall): (StoreModel, DbReply) {
    match call
    case InsertWakeEvent(event) =>
      if !UserRefOk(s.users, event.userId) then (s, DbFailed)
      else (s.(wakeEvents := s.wakeEvents + [event]), Stored)
    case InsertAuditEvent(audit) =>
      if !UserRefOk(s.users, audit.userId) then (s, DbFailed)
      else (s.(auditEvents := s.auditEvents + [audit]), Stored)
    case _ => (s, DbFailed)
  }

  /** The database object: one field per table. */
  class Db {
    var users: map<string, User>
    var settings: map<string, string>
    var sites: map<int, Site>
    var devices: map<int, Device>
    var secrets: map<int, Secret>
    var wakeEvents: seq<WakeEvent>
    var auditEvents: seq<AuditEvent>
    var userSeq: int
    var siteSeq: int
    var deviceSeq: int

    ghost function Model(): StoreModel
      reads this
    {
      StoreModel(users, settings, sites, devices, secrets, wakeEvents, auditEvents, userSeq, siteSeq, deviceSeq)
    }

    constructor (users: map<string, User>, settings: map<string, string>, userSeq: int)
      ensures Model() == StoreModel(users, settings, map[], map[], map[], [], [], userSeq, 0, 0)
    {
      this.users, this.settings, this.userSeq := users, settings, userSeq;
      sites, devices, secrets, wakeEvents, auditEvents := map[], map[], map[], [], [];
      siteSeq, deviceSeq := 0, 0;
    }

    method FindUser(username: string, fails: bool) returns (r: DbReply)
      ensures (Model(), r) == Execute(Model(), DbCall.FindUser(username), fails)
    {
      if fails {
        return DbFailed;
      }
      r := UserRow(if username in users then Some(users[username]) else None);
    }

    method InsertUser(username: string, passwordHash: string, role: Role, fails: bool) returns (r: DbReply)
      modifies this
      ensures (Model(), r) == Execute(old(Model()), DbCall.InsertUser(username, passwordHash, role), fails)
    {
      if fails || username in users {
        return DbFailed;
      }
      userSeq := userSeq + 1;
      users := users[username := User(userSeq, username, passwordHash, Some(role), true)];
      return NewId(userSeq);
    }

    method SetSetting(key: string, value: string, fails: bool) returns (r: DbReply)
      modifies this
      ensures (Model(), r) == Execute(old(Model()), DbCall.SetSetting(key, value), fails)
    {
      if fails {
        return DbFailed;
      }
      settings := settings[key := value];
      return Stored;
    }

    method UpdatePassword(username: string, passwordHash: string, fails: bool) returns (r: DbReply)
      modifies this
      ensures (Model(), r) == Execute(old(Model()), DbCall.UpdatePassword(username, passwordHash), fails)
    {
      if fails {
        return DbFailed;
      }
      if username !in users {
        return Changed(false);
      }
      users := users[username := users[username].(passwordHash := passwordHash)];
      return Changed(true);
    }

    method GetSite(id: int, fails: bool) returns (r: DbReply)
      ensures (Model(), r) == Execute(Model(), DbCall.GetSite(id), fails)
    {
      if fails {
        return DbFailed;
      }
      r := SiteRow(if id in sites then Some(sites[id]) else None);
    }

    method InsertSite(site: SiteValues, fails: bool) returns (r: DbReply)
      modifies this
      ensures (Model(), r) == Execute(old(Model()), DbCall.InsertSite(site), fails)
    {
      if fails {
        return DbFailed;
      }
      var id := siteSeq + 1;
      if NameTaken(sites, id, site.name) {
        return DbFailed;
      }
      siteSeq := id;
      sites := sites[id := NewSite(site)];
      return NewId(id);
    }

    method UpdateSite(id: int, site: SiteValues, fails: bool) returns (r: DbReply)
      modifies this
      ensures (Model(), r) == Execute(old(Model()), DbCall.UpdateSite(id, site), fails)
    {
      if fails {
        return DbFailed;
      }
      if id !in sites {
        return Changed(false);
      }
      if NameTaken(sites, id, site.name) {
        return DbFailed;
      }
      sites := sites[id := EditedSite(sites[id], site)];
      return Changed(true);
    }

    method TrustSiteFingerprint(id: int, fingerprint: string, fails: bool) returns (r: DbReply)
      modifies this
      ensures (Model(), r) == Execute(old(Model()), TrustFingerprint(id, fingerprint), fails)
    {
      if fails {
        return DbFailed;
      }
      if id !in sites {
        return Changed(false);
      }
      sites := sites[id := sites[id].(fingerprint := Some(fingerprint))];
      return Changed(true);
    }

    method ClearSiteFingerprint(id: int, fails: bool) returns (r: DbReply)
      modifies this
      ensures (Model(), r) == Execute(old(Model()), ClearFingerprint(id), fails)
    {
      if fails {
        return DbFailed;
      }
      if id !in sites {
        return Changed(false);
      }
      sites := sites[id := sites[id].(fingerprint := None)];
      return Changed(true);
    }

    /** ON DELETE CASCADE: devices and secrets of the site go first. */
    method DeleteSite(id: int, fails: bool) returns (r: DbReply)
      modifies this
      ensures (Model(), r) == Execute(old(Model()), DbCall.DeleteSite(id), fails)
    {
      if fails {
        return DbFailed;
      }
      if id !in sites {
        return Changed(false);
      }
      devices := map d | d in devices && devices[d].siteId != id :: devices[d];
      secrets := secrets - {id};
      sites := sites - {id};
      return Changed(true);
    }

    method GetDevice(id: int, fails: bool) returns (r: DbReply)
      ensures (Model(), r) == Execute(Model(), DbCall.GetDevice(id), fails)
    {
      if fails {
        return DbFailed;
      }
      r := DeviceRow(if id in devices && devices[id].siteId in sites then Some(devices[id]) else None);
    }

    method InsertDevice(device: DeviceValues, fails: bool) returns (r: DbReply)
      modifies this
      ensures (Model(), r) == Execute(old(Model()), DbCall.InsertDevice(device), fails)
    {
      if fails {
        return DbFailed;
      }
      var id := deviceSeq + 1;
      if device.siteId !in sites || AddressTaken(devices, id, device.siteId, device.mac) {
        return DbFailed;
      }
      deviceSeq := id;
      devices := devices[id := NewDevice(device)];
      return NewId(id);
    }

    method UpdateDevice(id: int, device: DeviceValues, fails: bool) returns (r: DbReply)
      modifies this
      ensures (Model(), r) == Execute(old(Model()), DbCall.UpdateDevice(id, device), fails)
    {
      if fails {
        return DbFailed;
      }
      if id !in devices {
        return Changed(false);
      }
      if device.siteId !in sites || AddressTaken(devices, id, device.siteId, device.mac) {
        return DbFailed;
      }
      devices := devices[id := EditedDevice(device)];
      return Changed(true);
    }

    method DeleteDevice(id: int, fails: bool) returns (r: DbReply)
      modifies this
      ensures (Model(), r) == Execute(old(Model()), DbCall.DeleteDevice(id), fails)
    {
      if fails {
        return DbFailed;
      }
      if id !in devices {
        return Changed(false);
      }
      devices := devices - {id};
      return Changed(true);
    }

    method UpsertSecret(id: int, secret: Secret, fails: bool) returns (r: DbReply)
      modifies this
      ensures (Model(), r) == Execute(old(Model()), DbCall.UpsertSecret(id, secret), fails)
    {
      if fails || id !in sites {
        return DbFailed;
      }
      secrets := secrets[id := secret];
      return Stored;
    }

    method GetSecret(id: int, fails: bool) returns (r: DbReply)
      ensures (Model(), r) == Execute(Model(), DbCall.GetSecret(id), fails)
    {
      if fails {
        return DbFailed;
      }
      r := SecretRow(if id in secrets then Some(secrets[id]) else None);
    }

    method InsertWakeEvent(event: WakeEvent, fails: bool) returns (r: DbReply)
      modifies this
      ensures (Model(), r) == Execute(old(Model()), DbCall.InsertWakeEvent(event), fails)
    {
      if fails || !UserRefOk(users, event.userId) {
        return DbFailed;
      }
      wakeEvents := wakeEvents + [event];
      return Stored;
    }

    method InsertAuditEvent(audit: AuditEvent, fails: bool) returns (r: DbReply)
      modifies this
      ensures (Model(), r) == Execute(old(Model()), DbCall.InsertAuditEvent(audit), fails)
    {
      if fails || !UserRefOk(users, audit.userId) {
        return DbFailed;
      }
      auditEvents := auditEvents + [audit];
      return Stored;
    }
  }
}
