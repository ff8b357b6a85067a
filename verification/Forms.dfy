/** The validators of the web forms, and their agreement with the router-side checks. */
module Forms {
  import opened Results
  import opened Text
  import opened Mac
  import opened Ipv4
  import opened Wol

  datatype FormError =
    | UnsupportedProvider | BadTitle | BadHost | BadPort | BadLanInterface | BadUsername
    | MissingCredential | BadSiteId | BadMacAddress | BadIpAddress | DescriptionTooLong

  datatype SiteForm = SiteForm(
    name: string, provider: string, routerHost: string, sshPort: string, lanInterface: string,
    sshUsername: string, sshCredential: string, allowLegacySsh: bool, enabled: bool)

  datatype SiteValues = SiteValues(
    name: string, routerHost: string, sshPort: int, lanInterface: string, sshUsername: string,
    allowLegacySsh: bool, enabled: bool)

  datatype DeviceForm = DeviceForm(
    name: string, siteId: string, mac: string, ip: string, description: string, enabled: bool)

  datatype DeviceValues = DeviceValues(
    name: string, siteId: int, mac: string, ip: Option<string>, description: string, enabled: bool)

  function ValidateTitle(value: string): Result<string, FormError> {
    var v := Trim(value);
    if v == [] || |v| > 64 || exists c | c in v :: IsControl(c) then Err(BadTitle) else Ok(v)
  }

  function ValidateRouterHost(value: string): Result<string, FormError> {
    var v := Trim(value);
    if v == [] || ByteLen(v) > 253 then Err(BadHost)
    else if exists c | c in v :: IsControl(c) || IsWhitespace(c) || IsShellMark(c) || c == '\0' then Err(BadHost)
    else Ok(v)
  }

  function ValidateInterface(value: string): Result<string, FormError> {
    var v := Trim(value);
    if || v == [] || ByteLen(v) > 32
       || exists c | c in v :: !IsAsciiAlphanumeric(c) && c != '.' && c != '_' && c != '-' && c != '/'
    then Err(BadLanInterface) else Ok(v)
  }

  function ValidateSshUsername(value: string): Result<string, FormError> {
    var v := Trim(value);
    if || v == [] || ByteLen(v) > 64
       || exists c | c in v :: IsControl(c) || IsWhitespace(c) || c == ':'
    then Err(BadUsername) else Ok(v)
  }

  function ValidateUsername(value: string): Result<string, FormError> {
    var v := Trim(value);
    if || v == [] || ByteLen(v) > 64
       || exists c | c in v :: !IsAsciiAlphanumeric(c) && c != '.' && c != '_' && c != '-'
    then Err(BadUsername) else Ok(v)
  }

  /** `str::parse` of an integer that must be positive: an optional plus sign, digits only, and a
      value in range. A minus sign gives an error, or a value the caller filters out. */
  function ParsePositive(s: string, max: int): Option<int> {
    var digits := if s != [] && s[0] == '+' then s[1..] else s;
    if digits != [] && AllDigits(digits) && 0 < Decimal(digits) <= max then Some(Decimal(digits)) else None
  }

  /** The first error among the fields, in the order the form is checked, or the values. */
  function CheckSite(
    provider: string, name: Result<string, FormError>, host: Result<string, FormError>, port: Option<int>,
    lan: Result<string, FormError>, user: Result<string, FormError>, missingCredential: bool,
    allowLegacySsh: bool, enabled: bool): Result<SiteValues, FormError>
  {
    if provider != "yamaha_rtx" then Err(UnsupportedProvider)
    else if name.Err? then Err(name.error)
    else if host.Err? then Err(host.error)
    else if port.None? then Err(BadPort)
    else if lan.Err? then Err(lan.error)
    else if user.Err? then Err(user.error)
    else if missingCredential then Err(MissingCredential)
    else Ok(SiteValues(name.value, host.value, port.value, lan.value, user.value, allowLegacySsh, enabled))
  }

  function ValidateSiteForm(form: SiteForm, creating: bool): Result<SiteValues, FormError> {
    CheckSite(form.provider, ValidateTitle(form.name), ValidateRouterHost(form.routerHost),
              ParsePositive(form.sshPort, 65535), ValidateInterface(form.lanInterface),
              ValidateSshUsername(form.sshUsername), creating && form.sshCredential == [],
              form.allowLegacySsh, form.enabled)
  }

  function CheckDevice(
    name: Result<string, FormError>, siteId: Option<int>, mac: Result<string, MacError>,
    ip: Result<Option<string>, IpError>, description: string, enabled: bool): Result<DeviceValues, FormError>
  {
    if name.Err? then Err(name.error)
    else if siteId.None? then Err(BadSiteId)
    else if mac.Err? then Err(BadMacAddress)
    else if ip.Err? then Err(BadIpAddress)
    else if |description| > 500 then Err(DescriptionTooLong)
    else Ok(DeviceValues(name.value, siteId.value, mac.value, ip.value, Trim(description), enabled))
  }

  /** A blank address field means no address. */
  function FormIp(ip: string): Result<Option<string>, IpError> {
    NormalizeOptionalIp(if Trim(ip) == [] then None else Some(ip))
  }

  function ValidateDeviceForm(form: DeviceForm): Result<DeviceValues, FormError> {
    CheckDevice(ValidateTitle(form.name), ParsePositive(form.siteId, 0x7FFF_FFFF_FFFF_FFFF),
                NormalizeMac(form.mac), FormIp(form.ip), form.description, form.enabled)
  }

  /** What the connection code checks of a site before it dials. */
  predicate SiteDialable(provider: string, host: string, port: int, username: string) {
    HostOk(host) && UsernameOk(username) && provider == "yamaha_rtx" && 0 < port < 65536
  }

  predicate SiteValuesOk(v: SiteValues) {
    SiteDialable("yamaha_rtx", v.routerHost, v.sshPort, v.sshUsername) && InterfaceOk(v.lanInterface)
  }

  /** A device row carries canonical addresses: normalising them again changes nothing. */
  predicate AddressesOk(mac: string, ip: Option<string>) {
    && NormalizeMac(mac) == Ok(mac)
    && (ip.Some? ==> NormalizeIp(ip.value) == Ok(ip.value))
  }

  /** Field by field, the form accepts exactly the texts whose trimmed form the router side accepts. */
  lemma FieldValidatorsAgree(value: string)
    ensures ValidateRouterHost(value) == if HostOk(Trim(value)) then Ok(Trim(value)) else Err(BadHost)
    ensures ValidateSshUsername(value) == if UsernameOk(Trim(value)) then Ok(Trim(value)) else Err(BadUsername)
    ensures ValidateInterface(value) == if InterfaceOk(Trim(value)) then Ok(Trim(value)) else Err(BadLanInterface)
  {
  }

  /** A site form that is accepted gives a row the connection code accepts. */
  lemma SiteFormAgrees(form: SiteForm, creating: bool)
    requires ValidateSiteForm(form, creating).Ok?
    ensures SiteValuesOk(ValidateSiteForm(form, creating).value)
  {
  }

  /** Canonical texts are fixed by their canonicalisers. */
  lemma OutputsAreCanonical(mac: string, ip: string)
    ensures NormalizeMac(mac).Ok? ==> NormalizeMac(NormalizeMac(mac).value) == NormalizeMac(mac)
    ensures FormIp(ip).Ok? && FormIp(ip).value.Some? ==>
              NormalizeIp(FormIp(ip).value.value) == Ok(FormIp(ip).value.value)
  {
    if NormalizeMac(mac).Ok? {
      NormalizeMacIdempotent(mac);
    }
    if Trim(ip) != [] && NormalizeIp(ip).Ok? {
      NormalizeIpIdempotent(ip);
    }
  }

  lemma CheckedAddresses(
    name: Result<string, FormError>, siteId: Option<int>, mac: Result<string, MacError>,
    ip: Result<Option<string>, IpError>, description: string, enabled: bool)
    ensures CheckDevice(name, siteId, mac, ip, description, enabled).Ok? ==>
              var v := CheckDevice(name, siteId, mac, ip, description, enabled).value;
              mac == Ok(v.mac) && ip == Ok(v.ip)
  {
  }

  /** A device form that is accepted gives canonical addresses. */
  lemma DeviceFormAgrees(form: DeviceForm)
    requires ValidateDeviceForm(form).Ok?
    ensures AddressesOk(ValidateDeviceForm(form).value.mac, ValidateDeviceForm(form).value.ip)
  {
    OutputsAreCanonical(form.mac, form.ip);
    CheckedAddresses(ValidateTitle(form.name), ParsePositive(form.siteId, 0x7FFF_FFFF_FFFF_FFFF),
                     NormalizeMac(form.mac), FormIp(form.ip), form.description, form.enabled);
  }
}
