/** The decision chains of `POST /send` and `POST /send-pdf`: from the request
    body, the connection status and the answers of the messaging library to
    the HTTP outcome and the library calls made, in order. */
module Gateway {
  import opened Wrappers
  import opened Phone
  import Connection

  /** A field of the JSON request body as JavaScript sees it: missing, a
      string, or some other JSON value, which is truthy or not. */
  datatype Json = Absent | Str(text: string) | NonString(truthy: bool)

  /** JavaScript truthiness of a request field. The views define their own
      `Truthy` over the optional strings of the state, which are never other
      JSON values. */
  predicate Truthy(v: Json) {
    match v
    case Absent => false
    case Str(t) => t != ""
    case NonString(b) => b
  }

  /** `v || fallback`. */
  function Or(v: Json, fallback: string): (r: Json)
    ensures Truthy(v) ==> r == v
    ensures !Truthy(v) ==> r == Str(fallback)
  {
    if Truthy(v) then v else Str(fallback)
  }

  /** What is handed to the library's `sendMessage`. */
  datatype Content =
    | Text(body: Json)
    | Document(data: Json, filename: Json, caption: Json)

  /** A call into the messaging library. */
  datatype Call =
    | CheckRegistered(chatId: string)
    | SendMessage(chatId: string, content: Content)

  /** The library's answers, in call order: whether the number is registered,
      and the first and second `sendMessage` calls (a returned message id or
      a thrown error). An answer that is never asked for is ignored. */
  datatype Oracle = Oracle(
    registered: Reply<bool>,
    firstSend: Reply<string>,
    secondSend: Reply<string>)

  /** The HTTP result of a send handler. */
  datatype Outcome =
    | BadRequest(error: string)
    | NotReady(error: string)
    | NotRegistered(error: string)
    | Ok(to: string, messageId: Option<string>)
    | Failed(error: string)
  {
    function Code(): int {
      match this
      case BadRequest(_) => 400
      case NotReady(_) => 503
      case NotRegistered(_) => 400
      case Ok(_, _) => 200
      case Failed(_) => 500
    }
  }

  datatype Handled = Handled(outcome: Outcome, calls: seq<Call>)

  const SEND_MISSING_FIELDS: string := "Phone and message are required"
  const SEND_NOT_CONNECTED: string := "WhatsApp not connected. Please scan QR code first."
  const SEND_NOT_REGISTERED: string := "This phone number is not registered on WhatsApp"
  const PDF_MISSING_PHONE: string := "Phone is required"
  const PDF_NOT_CONNECTED: string := "WhatsApp not connected"
  const PDF_NOT_REGISTERED: string := "Phone not on WhatsApp"
  const DEFAULT_FILENAME: string := "Invoice.pdf"
  /** The TypeError a truthy non-string `phone` raises at `phone.replace`. */
  const PHONE_NOT_TEXT: string := "phone.replace is not a function"

  datatype SendRequest = SendRequest(phone: Json, message: Json)

  /** `POST /send`. */
  function Send(req: SendRequest, status: Connection.Status, o: Oracle): (h: Handled)
    // validation comes first, whatever the status
    ensures !Truthy(req.phone) || !Truthy(req.message) ==>
      h == Handled(BadRequest(SEND_MISSING_FIELDS), [])
    // then the connection, before any library call
    ensures Truthy(req.phone) && Truthy(req.message) && status != Connection.Connected ==>
      h == Handled(NotReady(SEND_NOT_CONNECTED), [])
    // no library call unless the request is valid and the service connected
    ensures h.calls != [] ==> req.phone.Str? && Truthy(req.message) && status == Connection.Connected
    ensures h.calls != [] ==> h.calls[0] == CheckRegistered(ChatId(req.phone.text))
    // at most one message, only to a registered number
    ensures |h.calls| <= 2
    ensures |h.calls| == 2 ==>
      o.registered == Returned(true) && h.calls[1] == SendMessage(ChatId(req.phone.text), Text(req.message))
    ensures h.outcome.NotRegistered? <==> h.calls != [] && o.registered == Returned(false)
    ensures h.outcome.NotRegistered? ==> h.outcome.error == SEND_NOT_REGISTERED && |h.calls| == 1
    ensures h.outcome.Ok? <==> |h.calls| == 2 && o.firstSend.Returned?
    ensures h.outcome.Ok? ==> h.outcome == Ok(Normalize(req.phone.text), Some(o.firstSend.value))
    ensures h.outcome.BadRequest? ==> !Truthy(req.phone) || !Truthy(req.message)
    ensures h.outcome.NotReady? ==> status != Connection.Connected
    // every thrown error ends in 500 with the error's message
    ensures h.outcome.Failed? ==>
      (req.phone.NonString? && h.calls == [] && h.outcome.error == PHONE_NOT_TEXT) ||
      (|h.calls| == 1 && o.registered == Threw(h.outcome.error)) ||
      (|h.calls| == 2 && o.firstSend == Threw(h.outcome.error))
    ensures h.calls != [] && o.registered.Threw? ==> h.outcome == Failed(o.registered.message)
    ensures |h.calls| == 2 && o.firstSend.Threw? ==> h.outcome == Failed(o.firstSend.message)
  {
    if !Truthy(req.phone) || !Truthy(req.message) then Handled(BadRequest(SEND_MISSING_FIELDS), [])
    else if status != Connection.Connected then Handled(NotReady(SEND_NOT_CONNECTED), [])
    else if !req.phone.Str? then Handled(Failed(PHONE_NOT_TEXT), [])
    else
      var to := Normalize(req.phone.text);
      var chatId := ChatId(req.phone.text);
      var check := CheckRegistered(chatId);
      match o.registered
      case Threw(m) => Handled(Failed(m), [check])
      case Returned(false) => Handled(NotRegistered(SEND_NOT_REGISTERED), [check])
      case Returned(true) =>
        var send := SendMessage(chatId, Text(req.message));
        match o.firstSend
        case Threw(m) => Handled(Failed(m), [check, send])
        case Returned(id) => Handled(Ok(to, Some(id)), [check, send])
  }

  datatype PdfRequest = PdfRequest(phone: Json, message: Json, pdfBase64: Json, filename: Json)

  /** What `/send-pdf` sends once the recipient is confirmed: the text if
      given, then the document if given, named and captioned by the filename
      or `Invoice.pdf`. */
  function Attachments(req: PdfRequest): (cs: seq<Content>)
    ensures |cs| == (if Truthy(req.message) then 1 else 0) + (if Truthy(req.pdfBase64) then 1 else 0)
    ensures Truthy(req.message) ==> cs[0] == Text(req.message)
    ensures Truthy(req.pdfBase64) ==>
      cs[|cs| - 1] == Document(req.pdfBase64, Or(req.filename, DEFAULT_FILENAME), Or(req.filename, DEFAULT_FILENAME))
  {
    (if Truthy(req.message) then [Text(req.message)] else [])
    + (if Truthy(req.pdfBase64)
       then var name := Or(req.filename, DEFAULT_FILENAME); [Document(req.pdfBase64, name, name)]
       else [])
  }

  datatype Delivery = Delivery(calls: seq<Call>, failure: Option<string>)

  /** Awaits `sendMessage` for each content in turn, the i-th call answered by
      `replies[i]`; the first thrown error stops the sequence. */
  function Deliver(chatId: string, contents: seq<Content>, replies: seq<Reply<string>>): (d: Delivery)
    requires |contents| <= |replies|
    ensures |d.calls| <= |contents|
    ensures forall i :: 0 <= i < |d.calls| ==> d.calls[i] == SendMessage(chatId, contents[i])
    ensures d.failure.None? <==> |d.calls| == |contents| && forall i :: 0 <= i < |contents| ==> replies[i].Returned?
    ensures d.failure.Some? ==>
      0 < |d.calls| && replies[|d.calls| - 1] == Threw(d.failure.value) &&
      forall i :: 0 <= i < |d.calls| - 1 ==> replies[i].Returned?
    decreases |contents|
  {
    if contents == [] then Delivery([], None)
    else
      var call := SendMessage(chatId, contents[0]);
      match replies[0]
      case Threw(m) => Delivery([call], Some(m))
      case Returned(_) =>
        var rest := Deliver(chatId, contents[1..], replies[1..]);
        Delivery([call] + rest.calls, rest.failure)
  }

  /** `POST /send-pdf`. */
  function SendPdf(req: PdfRequest, status: Connection.Status, o: Oracle): (h: Handled)
    // only the phone is required
    ensures !Truthy(req.phone) ==> h == Handled(BadRequest(PDF_MISSING_PHONE), [])
    ensures Truthy(req.phone) && status != Connection.Connected ==> h == Handled(NotReady(PDF_NOT_CONNECTED), [])
    ensures h.calls != [] ==> req.phone.Str? && status == Connection.Connected
    ensures h.calls != [] ==> h.calls[0] == CheckRegistered(ChatId(req.phone.text))
    ensures h.outcome.NotRegistered? <==> h.calls != [] && o.registered == Returned(false)
    ensures h.outcome.NotRegistered? ==> h.outcome.error == PDF_NOT_REGISTERED && |h.calls| == 1
    // success: every attachment sent in order, and the normalised number reported
    ensures h.outcome.Ok? ==>
      req.phone.Str? && o.registered == Returned(true) &&
      h.outcome == Ok(Normalize(req.phone.text), None) &&
      h.calls == [CheckRegistered(ChatId(req.phone.text))] + Sends(ChatId(req.phone.text), Attachments(req))
    ensures h.outcome.BadRequest? ==> !Truthy(req.phone)
    ensures h.outcome.NotReady? ==> status != Connection.Connected
    // every thrown error ends in 500 with the error's message
    ensures h.outcome.Failed? ==>
      (req.phone.NonString? && h.calls == [] && h.outcome.error == PHONE_NOT_TEXT) ||
      (|h.calls| == 1 && o.registered == Threw(h.outcome.error)) ||
      (|h.calls| == 2 && o.firstSend == Threw(h.outcome.error)) ||
      (|h.calls| == 3 && o.secondSend == Threw(h.outcome.error))
    ensures h.calls != [] && o.registered.Threw? ==> h == Handled(Failed(o.registered.message), [h.calls[0]])
    // once the number is confirmed, the sends stop at the first thrown error
    ensures Truthy(req.phone) && req.phone.Str? && status == Connection.Connected && o.registered == Returned(true) ==>
      var d := Deliver(ChatId(req.phone.text), Attachments(req), [o.firstSend, o.secondSend]);
      h.calls == [CheckRegistered(ChatId(req.phone.text))] + d.calls &&
      (h.outcome.Failed? <==> d.failure.Some?) &&
      (d.failure.Some? ==> h.outcome.error == d.failure.value)
  {
    if !Truthy(req.phone) then Handled(BadRequest(PDF_MISSING_PHONE), [])
    else if status != Connection.Connected then Handled(NotReady(PDF_NOT_CONNECTED), [])
    else if !req.phone.Str? then Handled(Failed(PHONE_NOT_TEXT), [])
    else
      var to := Normalize(req.phone.text);
      var chatId := ChatId(req.phone.text);
      var check := CheckRegistered(chatId);
      match o.registered
      case Threw(m) => Handled(Failed(m), [check])
      case Returned(false) => Handled(NotRegistered(PDF_NOT_REGISTERED), [check])
      case Returned(true) =>
        var d := Deliver(chatId, Attachments(req), [o.firstSend, o.secondSend]);
        assert d.failure.None? ==> d.calls == Sends(chatId, Attachments(req));
        match d.failure
        case Some(m) => Handled(Failed(m), [check] + d.calls)
        case None => Handled(Ok(to, None), [check] + d.calls)
  }

  /** The `sendMessage` calls for the given contents, all to one chat. */
  function Sends(chatId: string, contents: seq<Content>): (calls: seq<Call>)
    ensures |calls| == |contents|
    ensures forall i :: 0 <= i < |calls| ==> calls[i] == SendMessage(chatId, contents[i])
  {
    seq(|contents|, i requires 0 <= i < |contents| => SendMessage(chatId, contents[i]))
  }

  // ---------------------------------------------------------------- lemmas

  /** `/send-pdf` succeeds exactly when the phone is a non-empty string, the
      service is connected, the number is registered and every send it
      performs returns. */
  lemma SendPdfSucceeds(req: PdfRequest, status: Connection.Status, o: Oracle)
    ensures SendPdf(req, status, o).outcome.Ok? <==>
      Truthy(req.phone) && req.phone.Str? && status == Connection.Connected &&
      o.registered == Returned(true) &&
      forall i :: 0 <= i < |Attachments(req)| ==> [o.firstSend, o.secondSend][i].Returned?
  {
    if Truthy(req.phone) && req.phone.Str? && status == Connection.Connected
       && o.registered == Returned(true) {
      var d := Deliver(ChatId(req.phone.text), Attachments(req), [o.firstSend, o.secondSend]);
      assert SendPdf(req, status, o).outcome.Ok? <==> d.failure.None?;
    }
  }

  /** With both a text and a document, the text goes first and the document
      second, named and captioned by the filename or `Invoice.pdf`. */
  lemma TextBeforeDocument(req: PdfRequest, status: Connection.Status, o: Oracle)
    requires Truthy(req.message) && Truthy(req.pdfBase64)
    requires SendPdf(req, status, o).outcome.Ok?
    ensures var chatId := ChatId(req.phone.text);
      var name := Or(req.filename, DEFAULT_FILENAME);
      SendPdf(req, status, o).calls ==
        [CheckRegistered(chatId), SendMessage(chatId, Text(req.message)),
         SendMessage(chatId, Document(req.pdfBase64, name, name))]
  {
    var chatId := ChatId(req.phone.text);
    var h := SendPdf(req, status, o);
    var sends := Sends(chatId, Attachments(req));
    assert |sends| == 2;
    assert h.calls == [h.calls[0], h.calls[1], h.calls[2]];
  }

  /** A request with neither text nor document still succeeds once the number
      is confirmed, having sent nothing. */
  lemma NothingToSend(req: PdfRequest, o: Oracle)
    requires Truthy(req.phone) && req.phone.Str?
    requires !Truthy(req.message) && !Truthy(req.pdfBase64)
    requires o.registered == Returned(true)
    ensures SendPdf(req, Connection.Connected, o) ==
      Handled(Ok(Normalize(req.phone.text), None), [CheckRegistered(ChatId(req.phone.text))])
  {
    assert Attachments(req) == [];
    assert Sends(ChatId(req.phone.text), []) == [];
  }

  /** On a text-only request both handlers make the same library calls,
      answer with the same status code and report the same recipient: they
      share the guard order and the normalisation rule. */
  lemma SendAgreesWithSendPdf(phone: Json, message: Json, filename: Json,
                              status: Connection.Status, o: Oracle)
    requires Truthy(message)
    ensures var h := Send(SendRequest(phone, message), status, o);
      var p := SendPdf(PdfRequest(phone, message, Absent, filename), status, o);
      h.calls == p.calls && h.outcome.Code() == p.outcome.Code() &&
      (h.outcome.Ok? ==> p.outcome.Ok? && h.outcome.to == p.outcome.to) &&
      (h.outcome.Failed? ==> p.outcome == h.outcome)
  {
    var req := PdfRequest(phone, message, Absent, filename);
    assert Attachments(req) == [Text(message)];
    SendPdfSucceeds(req, status, o);
  }

  /** A send of "Hi" to the local number `01712345678` while disconnected is
      refused with 503; once connected and registered it reports the number
      with the country code. */
  lemma SendExample(status: Connection.Status, id: string)
    ensures status != Connection.Connected ==>
      Send(SendRequest(Str("01712345678"), Str("Hi")), status,
           Oracle(Returned(true), Returned(id), Returned(id))).outcome.Code() == 503
    ensures status == Connection.Connected ==>
      Send(SendRequest(Str("01712345678"), Str("Hi")), status,
           Oracle(Returned(true), Returned(id), Returned(id))).outcome == Ok("8801712345678", Some(id))
  {
    var req := SendRequest(Str("01712345678"), Str("Hi"));
    assert Truthy(req.phone) && Truthy(req.message);
    LocalMobileExample();
  }
}
