# WhatsApp relay service — connection state, pairing views and send decisions

This project models the core of a small HTTP service that keeps one WhatsApp Web
session for a hotel and relays text messages and PDF invoices through it. The
service holds four pieces of state: the connection status
(`disconnected | qr_ready | connecting | connected`), the rendered pairing QR
image, the connected account's info, and the last error. The session client's
lifecycle events (`qr`, `ready`, `authenticated`, `auth_failure`,
`disconnected`, `loading_screen`) and the operator commands `/logout` and
`/restart` overwrite that state. `/status` and `/qr` read it. `/send` and
`/send-pdf` check a request against it, normalise the recipient's phone number
to a Bangladesh chat ID and call the session client.

The modules follow the components of `index.js`:

- `Wrappers` (`wrappers.dfy`): `Option`, and `Reply`, the answer of an awaited
  library call (it returns a value or throws an error with a message).
- `Phone` (`phone.dfy`): the phone-number normaliser and chat ID, with its laws:
  the result is all digits, it is idempotent, it never starts with `0`, and the
  chat ID round-trips.
- `Connection` (`connection.dfy`): the status enum and its labels, the
  `ClientInfo` record, the `State` snapshot value and the consistency predicate
  "connected ⇒ no QR image".
- `Views` (`views.dfy`): the `/status` snapshot and the `/qr` page choice, both
  pure projections of a `State`.
- `Gateway` (`gateway.dfy`): the `/send` and `/send-pdf` guard chains. Each one
  is a function from the request body, the status and the library's answers
  (the `Oracle`) to an HTTP outcome plus the ordered list of library calls made.
- `Server` (`server.dfy`): class `Service`, which holds the four module-level
  variables as fields. It has one method per event handler and per operator
  command, each stating exactly which fields it sets and which it leaves alone.
  Its read-only methods delegate to `Views` and `Gateway`. The class invariant
  `Valid()` ("connected ⇒ no QR image") holds after every event, whatever the
  state before it. `PairingScenario` is a client of these contracts: start-up,
  QR code, scan, handshake, then a restart whose `destroy()` fails.

Request fields are modelled as JSON values (`Json`): missing, a string, or some
other value that is truthy or not. This keeps JavaScript's `!phone` truthiness.
It also models the case where `phone` is a truthy non-string (a number, say):
`phone.replace` then throws a `TypeError` and the handler answers 500.

Some consequences of the code worth knowing:

- The status starts at `disconnected` and takes only the four values above.
- Nothing counts connection attempts or caps retries; `/status` reports four
  fields: status, QR image, `connectedAs` and last error.
- The QR image is cleared only by `ready`, a successful `/logout` and `/restart`.
  `auth_failure` and `disconnected` leave it in place, so a stale image can still
  be shown after a drop.
- `auth_failure` does not clear the account info. Nothing clears `lastError`.
- `/restart` answers 500 when `destroy()` throws. The status and image it reset
  stay reset, and no reinitialisation is scheduled.

## Model

| member | source | states |
|---|---|---|
| `Phone.Digits` | index.js:226 | the digit filter `replace(/[^0-9]/g, '')` yields only ASCII digits and is no longer than its input |
| `Phone.Normalize` | index.js:226-231 | the result is all digits and never starts with `0`; it is `88` + digits exactly when the digits start with `0`, or are 11 long and do not start with `88`; otherwise it is the digits unchanged (the same rule is repeated at index.js:275-280) |
| `Phone.ChatId` | index.js:234 | the chat ID is the normalised number followed by the 5-character suffix `@c.us`, and its number part is all digits (repeated at index.js:282) |
| `Phone.Recipient` | index.js:234 | reading a chat ID back gives an all-digit number that, followed by `@c.us`, is that chat ID |
| `Phone.DigitsAppend` | index.js:226 | the digit filter distributes over concatenation |
| `Phone.DigitsFixedPoint` | index.js:226 | a string is unchanged by the filter exactly when it is all digits |
| `Phone.DigitsIdempotent` | index.js:226 | filtering twice equals filtering once |
| `Phone.NormalizeIdempotent` | index.js:226-231 | normalising a normalised number changes nothing |
| `Phone.DigitsDropsNonDigit` | index.js:226 | a non-digit character is removed by the filter wherever it stands in the input |
| `Phone.NormalizeIgnoresSeparators` | index.js:226-231 | inserting a non-digit character anywhere in the input does not change the normalised number |
| `Phone.RecipientOfChatId` | index.js:226-234 | the chat ID round-trips to the normalised number |
| `Phone.ChatIdInjective` | index.js:226-234 | two inputs address the same chat exactly when they normalise to the same number |
| `Phone.LocalMobileExample` | index.js:227-228 | `01712345678` normalises to `8801712345678` (the leading `0` is kept) with chat ID `8801712345678@c.us` |
| `Connection.StatusLabel` | index.js:15 | every status has a non-empty label, and the labels are the four values the service reports |
| `Connection.ParseStatus` | index.js:15 | a label read back gives a status whose label is that label |
| `Connection.StatusLabelRoundTrip` | index.js:15 | reading back the label of any status gives that status |
| `Server.Service.constructor` | index.js:14-17 | the initial state is `disconnected` with no QR image, no account info and no last error, and no reinitialisation is scheduled |
| `Server.Service.OnQr` | index.js:40-48 | `qr` sets `qr_ready` and stores the rendered image only if rendering succeeded, keeping the old image otherwise; account info and last error are untouched |
| `Server.Service.OnReady` | index.js:51-57 | `ready` sets `connected`, clears the QR image and stores the client info; last error is untouched |
| `Server.Service.OnAuthenticated` | index.js:60-63 | `authenticated` sets `connecting` and changes nothing else |
| `Server.Service.OnAuthFailure` | index.js:66-70 | `auth_failure` sets `disconnected` and last error "Authentication failed: " + message, leaving image and account info untouched |
| `Server.Service.OnDisconnected` | index.js:73-84 | `disconnected` sets `disconnected`, clears account info, records the reason as last error, keeps the QR image and schedules a reconnect |
| `Server.Service.OnLoadingScreen` | index.js:87-90 | `loading_screen` sets `connecting` and changes nothing else |
| `Server.Service.Logout` | index.js:310-320 | a successful library logout sets `disconnected` and clears account info and QR image, answering "Logged out"; a failed one answers 500 with its message and changes nothing; last error is never touched |
| `Server.Service.Restart` | index.js:323-335 | status becomes `disconnected` and the QR image is cleared before `destroy()`, and both stay so when it throws (500 with its message); account info and last error are kept; only a successful destroy schedules reinitialisation and answers "Restarting..." |
| `Server.Service.GetStatus` | index.js:108-118 | `/status` answers the snapshot of the current state and changes nothing |
| `Server.Service.GetQr` | index.js:121-210 | `/qr` answers the page chosen from the current state and changes nothing; while connected it is always the confirmation page |
| `Server.Service.PostSend` | index.js:213-259 | `/send` is decided by the guard chain against the current status |
| `Server.Service.PostSendPdf` | index.js:262-307 | `/send-pdf` is decided by its guard chain against the current status |
| `Views.StatusView` | index.js:108-118 | the snapshot reports the status label, QR image and last error as held; `connectedAs` is absent exactly when there is no account info, and otherwise carries its name and number |
| `Views.OrElse` | index.js:177 | JavaScript's logical-or default on an optional string gives `v` when it is non-empty and the fallback otherwise |
| `Views.QrView` | index.js:121-210 | the pairing page (refresh 5 s) is shown exactly when a non-empty QR image is held, whatever the status; otherwise the confirmation page (no refresh, name defaulting to `Unknown`, number defaulting to the empty string) exactly when connected; otherwise the loading page with the current status (refresh 3 s) |
| `Views.ConnectedShowsConfirmation` | index.js:121-153 | in a consistent state, `/qr` shows the confirmation page exactly when connected |
| `Gateway.Or` | index.js:297-298 | JavaScript's logical-or default on a request field gives the field when it is truthy and the fallback string otherwise |
| `Gateway.Send` | index.js:213-259 | a missing or empty phone or message gives 400 whatever the status; otherwise not connected gives 503; neither makes a library call; a registration check for the normalised chat precedes at most one message; unregistered gives 400 with no send; success reports the normalised number and the message ID; every thrown error gives 500 with its message |
| `Gateway.Attachments` | index.js:290-299 | `/send-pdf` sends the text first if it is given, then the document if it is given, with filename and caption both defaulting to `Invoice.pdf` |
| `Gateway.Deliver` | index.js:290-299 | sends are made in order, each to the chat; the sequence stops at the first thrown error, whose message is reported; it completes exactly when every answer returns |
| `Gateway.SendPdf` | index.js:262-307 | only the phone is required (400); not connected gives 503 with no call; unregistered gives 400 after only the registration check; success reports the normalised number and is preceded by exactly the attachment sends in order; after a successful registration check the calls are the check followed by the sends up to and including the first one that throws, and the outcome is 500 with that error's message exactly when one throws |
| `Gateway.SendPdfSucceeds` | index.js:262-307 | `/send-pdf` succeeds exactly when the phone is a non-empty string, the service is connected, the number is registered and every send it makes returns |
| `Gateway.TextBeforeDocument` | index.js:290-299 | on success with both text and document, the calls are the registration check, the text, then the document named and captioned by the filename or `Invoice.pdf` |
| `Gateway.NothingToSend` | index.js:290-301 | with neither text nor document, a connected service answers success with the normalised number after only the registration check (zero sends) |
| `Gateway.SendAgreesWithSendPdf` | index.js:213-307 | on a text-only request both handlers make the same calls, give the same status code and report the same recipient, and fail with the same message |
| `Gateway.SendExample` | index.js:213-253 | `{"phone":"01712345678","message":"Hi"}` gives 503 while not connected, and once connected and registered gives success to `8801712345678` |

## Left out

- Express routing, CORS, JSON body parsing, the health check `GET /` with its timestamp, and `app.listen` (index.js:7-11, 99-105, 338-340): HTTP plumbing.
- The session client and its configuration (puppeteer flags, `LocalAuth`, index.js:20-37): a foreign library. Only the answers of `isRegisteredUser`, `sendMessage`, `logout` and `destroy` are modelled, as `Reply` values and the `Oracle`. `client.info` at `ready` is a parameter.
- `QRCode.toDataURL` (index.js:44): a foreign image renderer, modelled as "some string, or failed" (`Option<string>`).
- The `setTimeout` reconnect and restart timers and the `client.initialize()` calls they make (index.js:80-83, 94, 328-330): timing. The model records only that a reinitialisation was scheduled (`reinitScheduled`), not how many timers are pending or when they fire.
- The `await` inside the `qr` handler (index.js:42-44): another event such as `ready` can run between the status write and the image write, and the image would then be stored while connected. Every handler is treated as atomic, and the invariant "connected ⇒ no QR image" holds only under that reading.
- The effect of the library's own `logout()` and `destroy()` on the session, such as whether they emit a `disconnected` event: foreign behaviour.
- HTML, CSS and emoji of the `/qr` pages: presentation. Only the page kind, its varying text and its refresh interval are kept.
- Logging, the base64 PDF contents and the MIME type `application/pdf`: passthrough data. The PDF data is carried through unchanged as a request field.
- Gateway.Send: a `sendMessage` result without an `id._serialized` (which would throw while building the response) is not modelled; a returned send always carries a message ID.
- Gateway.SendPdf: a document built by `new MessageMedia` is not checked by the library in the model; a malformed base64 string reaches `sendMessage` and its failure is just the oracle's thrown answer.
- A thrown value without a `message` (index.js:257, 305, 318, 333 then answer `{success:false}` with no `error` field) is not modelled: every thrown error carries a message string.
- JSON serialisation: a `connectedAs` whose name or number is missing is modelled with absent (`None`) parts, not as the JSON text.
