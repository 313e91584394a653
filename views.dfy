/** The two read-only views of the connection state: the `/status` JSON
    snapshot and the choice of page that `/qr` serves. */
module Views {
  import opened Wrappers
  import opened Connection

  /** `connectedAs` of the snapshot; absent parts are left out of the JSON. */
  datatype Identity = Identity(name: Option<string>, phone: Option<string>)

  /** The body of `GET /status`. */
  datatype StatusReport = StatusReport(
    status: string,
    qrCode: Option<string>,
    connectedAs: Option<Identity>,
    lastError: Option<string>)

  function StatusView(s: State): (r: StatusReport)
    ensures ParseStatus(r.status) == Some(s.status)
    ensures r.qrCode == s.qrCode && r.lastError == s.lastError
    ensures r.connectedAs.None? <==> s.clientInfo.None?
    ensures r.connectedAs.Some? ==>
      r.connectedAs.value.name == s.clientInfo.value.pushname &&
      r.connectedAs.value.phone == s.clientInfo.value.user
  {
    StatusLabelRoundTrip(s.status);
    StatusReport(
      StatusLabel(s.status),
      s.qrCode,
      match s.clientInfo
      case None => None
      case Some(info) => Some(Identity(info.pushname, info.user)),
      s.lastError)
  }

  const UNKNOWN_NAME: string := "Unknown"

  /** The three pages `GET /qr` can serve; only what varies between them is kept. */
  datatype Page =
    | PairingPage(image: string)
    | ConnectedPage(name: string, phone: string)
    | LoadingPage(status: string)
  {
    /** The page's meta-refresh interval in seconds, if it has one. */
    function RefreshSeconds(): Option<nat> {
      match this
      case PairingPage(_) => Some(5)
      case ConnectedPage(_, _) => None
      case LoadingPage(_) => Some(3)
    }
  }

  /** JavaScript truthiness of an optional string of the state: present and
      not empty. Request fields, which can be any JSON value, have their own
      `Gateway.Truthy`. */
  predicate Truthy(v: Option<string>) {
    v.Some? && v.value != ""
  }

  /** `v || fallback` on an optional string. */
  function OrElse(v: Option<string>, fallback: string): (r: string)
    ensures Truthy(v) ==> r == v.value
    ensures !Truthy(v) ==> r == fallback
  {
    if Truthy(v) then v.value else fallback
  }

  /** The page served by `GET /qr`, chosen by priority: a held pairing image
      first, then the connected confirmation, otherwise the loading page. */
  function QrView(s: State): (p: Page)
    ensures p.PairingPage? <==> Truthy(s.qrCode)
    ensures p.PairingPage? ==> p.image == s.qrCode.value && p.RefreshSeconds() == Some(5)
    ensures p.ConnectedPage? <==> !Truthy(s.qrCode) && s.status == Connected
    ensures p.ConnectedPage? ==> p.RefreshSeconds().None?
    ensures p.ConnectedPage? && (s.clientInfo.None? || !Truthy(s.clientInfo.value.pushname)) ==> p.name == UNKNOWN_NAME
    ensures p.ConnectedPage? && s.clientInfo.Some? && Truthy(s.clientInfo.value.pushname) ==> p.name == s.clientInfo.value.pushname.value
    ensures p.ConnectedPage? ==> p.phone == (if s.clientInfo.Some? then OrElse(s.clientInfo.value.user, "") else "")
    ensures p.LoadingPage? ==> ParseStatus(p.status) == Some(s.status) && s.status != Connected && p.RefreshSeconds() == Some(3)
  {
    if Truthy(s.qrCode) then PairingPage(s.qrCode.value)
    else if s.status == Connected then
      match s.clientInfo
      case None => ConnectedPage(UNKNOWN_NAME, "")
      case Some(info) => ConnectedPage(OrElse(info.pushname, UNKNOWN_NAME), OrElse(info.user, ""))
    else
      StatusLabelRoundTrip(s.status);
      LoadingPage(StatusLabel(s.status))
  }

  /** In a consistent state, a connected service always shows the confirmation
      page and the pairing page is only shown while not connected. */
  lemma ConnectedShowsConfirmation(s: State)
    requires Consistent(s)
    ensures s.status == Connected <==> QrView(s).ConnectedPage?
  {
  }
}
