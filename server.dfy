/** The service itself: the four module-level state variables of the server,
    the client's event handlers and the operator commands that overwrite them,
    and the read-only HTTP handlers that consult them. Every handler runs as
    one atomic step. */
module Server {
  import opened Wrappers
  import opened Connection
  import Views
  import Gateway

  /** The service's connection state. `reinitScheduled` is not a variable of
      the service: it records that a delayed `client.initialize()` has been
      scheduled (by a disconnect or by a restart), whose timer is not modelled. */
  class Service {
    var connectionStatus: Status
    var qrCodeData: Option<string>
    var clientInfo: Option<ClientInfo>
    var lastError: Option<string>
    var reinitScheduled: bool

    function Current(): (s: State)
      reads this
      ensures s.status == connectionStatus && s.qrCode == qrCodeData
      ensures s.clientInfo == clientInfo && s.lastError == lastError
    {
      State(connectionStatus, qrCodeData, clientInfo, lastError)
    }

    predicate Valid()
      reads this
    {
      Consistent(Current())
    }

    /** The state at start-up: disconnected, nothing else known. */
    constructor ()
      ensures Valid()
      ensures Current() == State(Disconnected, None, None, None)
      ensures !reinitScheduled
    {
      connectionStatus := Disconnected;
      qrCodeData := None;
      clientInfo := None;
      lastError := None;
      reinitScheduled := false;
    }

    /** The `qr` event. `rendered` is what rendering the code as an image
        produced, `None` when the renderer failed; a failed render keeps the
        previous image. */
    method OnQr(rendered: Option<string>)
      modifies this
      ensures connectionStatus == QrReady
      ensures qrCodeData == if rendered.Some? then rendered else old(qrCodeData)
      ensures clientInfo == old(clientInfo) && lastError == old(lastError)
      ensures reinitScheduled == old(reinitScheduled)
      ensures Valid()
    {
      connectionStatus := QrReady;
      if rendered.Some? {
        qrCodeData := rendered;
      }
    }

    /** The `ready` event; `info` is the library's `client.info` at that moment. */
    method OnReady(info: Option<ClientInfo>)
      modifies this
      ensures connectionStatus == Connected && qrCodeData == None && clientInfo == info
      ensures lastError == old(lastError) && reinitScheduled == old(reinitScheduled)
      ensures Valid()
    {
      connectionStatus := Connected;
      qrCodeData := None;
      clientInfo := info;
    }

    /** The `authenticated` event. */
    method OnAuthenticated()
      modifies this
      ensures connectionStatus == Connecting
      ensures qrCodeData == old(qrCodeData) && clientInfo == old(clientInfo) && lastError == old(lastError)
      ensures reinitScheduled == old(reinitScheduled)
      ensures Valid()
    {
      connectionStatus := Connecting;
    }

    /** The `auth_failure` event with the library's message. */
    method OnAuthFailure(msg: string)
      modifies this
      ensures connectionStatus == Disconnected && lastError == Some(AUTH_FAILED_PREFIX + msg)
      ensures qrCodeData == old(qrCodeData) && clientInfo == old(clientInfo)
      ensures reinitScheduled == old(reinitScheduled)
      ensures Valid()
    {
      connectionStatus := Disconnected;
      lastError := Some(AUTH_FAILED_PREFIX + msg);
    }

    /** The `disconnected` event with the library's reason; it also schedules
        a reconnection. */
    method OnDisconnected(reason: string)
      modifies this
      ensures connectionStatus == Disconnected && clientInfo == None && lastError == Some(reason)
      ensures qrCodeData == old(qrCodeData)
      ensures reinitScheduled
      ensures Valid()
    {
      connectionStatus := Disconnected;
      clientInfo := None;
      lastError := Some(reason);
      reinitScheduled := true;
    }

    /** The `loading_screen` event; its percentage and message are only logged. */
    method OnLoadingScreen()
      modifies this
      ensures connectionStatus == Connecting
      ensures qrCodeData == old(qrCodeData) && clientInfo == old(clientInfo) && lastError == old(lastError)
      ensures reinitScheduled == old(reinitScheduled)
      ensures Valid()
    {
      connectionStatus := Connecting;
    }

    /** `POST /logout`. `signedOut` is the answer of the library's `logout()`;
        only when it returns is the state changed. */
    method Logout(signedOut: Reply<()>) returns (r: CommandReply)
      requires Valid()
      modifies this
      ensures signedOut.Returned? ==> r == Done(LOGGED_OUT)
      ensures signedOut.Returned? ==> connectionStatus == Disconnected && clientInfo == None && qrCodeData == None
      ensures signedOut.Threw? ==> r == CommandFailed(signedOut.message)
      ensures signedOut.Threw? ==> connectionStatus == old(connectionStatus) && clientInfo == old(clientInfo) && qrCodeData == old(qrCodeData)
      ensures lastError == old(lastError) && reinitScheduled == old(reinitScheduled)
      ensures Valid()
    {
      match signedOut
      case Returned(_) =>
        connectionStatus := Disconnected;
        clientInfo := None;
        qrCodeData := None;
        r := Done(LOGGED_OUT);
      case Threw(message) =>
        r := CommandFailed(message);
    }

    /** `POST /restart`. The status and image are reset before the library's
        `destroy()` is awaited, so they stay reset when it throws; only a
        successful destroy schedules the reinitialisation. */
    method Restart(destroyed: Reply<()>) returns (r: CommandReply)
      modifies this
      ensures connectionStatus == Disconnected && qrCodeData == None
      ensures clientInfo == old(clientInfo) && lastError == old(lastError)
      ensures destroyed.Returned? ==> r == Done(RESTARTING) && reinitScheduled
      ensures destroyed.Threw? ==> r == CommandFailed(destroyed.message) && reinitScheduled == old(reinitScheduled)
      ensures Valid()
    {
      connectionStatus := Disconnected;
      qrCodeData := None;
      match destroyed
      case Returned(_) =>
        reinitScheduled := true;
        r := Done(RESTARTING);
      case Threw(message) =>
        r := CommandFailed(message);
    }

    /** `GET /status`: a snapshot of the state, which it leaves unchanged. */
    method GetStatus() returns (r: Views.StatusReport)
      ensures r == Views.StatusView(Current())
    {
      r := Views.StatusView(Current());
    }

    /** `GET /qr`: the page chosen from the state, which it leaves unchanged. */
    method GetQr() returns (p: Views.Page)
      requires Valid()
      ensures p == Views.QrView(Current())
      ensures p.PairingPage? ==> connectionStatus != Connected
      ensures connectionStatus == Connected ==> p.ConnectedPage?
    {
      Views.ConnectedShowsConfirmation(Current());
      p := Views.QrView(Current());
    }

    /** `POST /send`, decided against the current status. */
    method PostSend(req: Gateway.SendRequest, o: Gateway.Oracle) returns (h: Gateway.Handled)
      ensures h == Gateway.Send(req, connectionStatus, o)
    {
      h := Gateway.Send(req, connectionStatus, o);
    }

    /** `POST /send-pdf`, decided against the current status. */
    method PostSendPdf(req: Gateway.PdfRequest, o: Gateway.Oracle) returns (h: Gateway.Handled)
      ensures h == Gateway.SendPdf(req, connectionStatus, o)
    {
      h := Gateway.SendPdf(req, connectionStatus, o);
    }
  }

  /** A pairing session as an operator sees it: start-up, a QR code, the scan,
      the handshake, then a restart whose destroy fails; and the page `/qr`
      serves along the way. */
  method PairingScenario(image: string, info: ClientInfo)
    requires image != ""
  {
    var svc := new Service();
    var page := svc.GetQr();
    assert page.LoadingPage?;
    svc.OnQr(Some(image));
    page := svc.GetQr();
    assert page == Views.PairingPage(image);
    svc.OnAuthenticated();
    page := svc.GetQr();
    assert page == Views.PairingPage(image);  // the image is kept while connecting
    svc.OnLoadingScreen();
    svc.OnReady(Some(info));
    page := svc.GetQr();
    assert page.ConnectedPage?;
    var r := svc.Restart(Threw("browser closed"));
    assert r.Code() == 500 && svc.connectionStatus == Disconnected && svc.clientInfo == Some(info);
  }
}
