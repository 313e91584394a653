/** The values of the service's connection state: the status and what is
    known about pairing, identity and the last failure. */
module Connection {
  import opened Wrappers

  /** The values `connectionStatus` takes. */
  datatype Status = Disconnected | QrReady | Connecting | Connected

  /** The string the service reports for a status. */
  function StatusLabel(s: Status): (text: string)
    ensures text != ""
  {
    match s
    case Disconnected => "disconnected"
    case QrReady => "qr_ready"
    case Connecting => "connecting"
    case Connected => "connected"
  }

  /** Reads a reported status back; the partner of `StatusLabel`. */
  function ParseStatus(text: string): (s: Option<Status>)
    ensures s.Some? ==> StatusLabel(s.value) == text
  {
    if text == "disconnected" then Some(Disconnected)
    else if text == "qr_ready" then Some(QrReady)
    else if text == "connecting" then Some(Connecting)
    else if text == "connected" then Some(Connected)
    else None
  }

  lemma StatusLabelRoundTrip(s: Status)
    ensures ParseStatus(StatusLabel(s)) == Some(s)
  {
  }

  /** The two parts of the library's `client.info` that the service reads:
      the display name (`pushname`) and the account number (`wid.user`). */
  datatype ClientInfo = ClientInfo(pushname: Option<string>, user: Option<string>)

  /** A snapshot of the four state variables. */
  datatype State = State(
    status: Status,
    qrCode: Option<string>,
    clientInfo: Option<ClientInfo>,
    lastError: Option<string>)

  /** No pairing image is held while connected. */
  predicate Consistent(s: State) {
    s.status == Connected ==> s.qrCode.None?
  }

  /** The answer to `/logout` and `/restart`: 200 with a message, or 500 with
      the error's message. */
  datatype CommandReply = Done(message: string) | CommandFailed(error: string) {
    function Code(): int {
      if Done? then 200 else 500
    }
  }

  const AUTH_FAILED_PREFIX: string := "Authentication failed: "
  const LOGGED_OUT: string := "Logged out"
  const RESTARTING: string := "Restarting..."
}
