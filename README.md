# pglet page hub: a Dafny model

This project models the in-memory core of the pglet page server (Go package
`page`): the control table of a page and the hub that turns WebSocket frames
from clients into registrations, replies and forwarded events.

- **Control table** (`control_table.dfy`, and `Hub.Page` in `hub.dfy`): a page
  hands out control IDs as decimal strings from a counter, stores controls in
  a map from ID to control, and keeps a pool of host clients keyed by client ID.
  Storing a control under a parent first appends the control's ID to the
  parent's child list; a parent ID that is set but not stored is an error.
  The pure insertion rule is `ControlTable.InsertControl`. `Hub.Page.AddControl`
  is proved to follow it.
- **Wire** (`wire.dfy`): the message envelope, the five action names, the
  action payloads, and how `encoding/json` fills the Go structs. A missing or
  mistyped field is left at its zero value. Every encoder is proved to decode
  back to its input.
- **Hub** (`hub.dfy`): classes `Page`, `Session`, `Client` and `Registry` with
  the fields the handlers update in place. The handlers are `ReadHandler`,
  `RegisterWebClient`, `RegisterHostClient`, `ExecuteCommandFromHostClient`
  and `ProcessPageEventFromWebClient`. The membership bookkeeping is
  `Client.RegisterPage`, `Client.RegisterSession` and `Client.Unregister`.
  A client's `send` channel is its `outbox`, the sequence of messages queued
  for it. Each handler's effect is stated as a two-state predicate
  (`WebRegistered`, `HostRegistered`, `CommandAnswered`, `EventForwarded`,
  `Untouched`). `ReadHandler` is proved to keep the registry invariant
  `Registry.Valid` whichever handler it runs: pages are filed under their
  names, sessions under their IDs, and a shared page always has its zero
  session.
- **Scenarios** (`scenarios.dfy`): end-to-end runs on fresh objects, proved
  from the handlers' contracts alone. They also hold small properties of the
  bookkeeping over any state: idempotence, undo, and distinct IDs.

Assumptions about code outside the two modelled files:

- The `Session` type, the page registry behind `Pages()`, `Page.IsApp`,
  `page.sessions`, `GetSession`, `AddSession`, `NewSession`, `ZeroSession` and
  the `Control` type are not in the two modelled Go files. They are modelled as
  the smallest collaborators the call sites need. A session has an ID, a
  back-reference to its page and a set of clients. The registry is a map from
  page name to page. `ZeroSession` is taken to be `"0"`.
- A `Control` is taken to behave like a reference (as a Go map does). The
  `AddChildID` call on the looked-up parent is then visible in the table, and
  it appends the ID.
- `uuid.New()` is `Hub.NewSessionId`, which returns an ID that is non-empty
  and not among the page's session IDs. Client IDs come from the caller.
- `client.go` calls `NewPage(name, isApp)` with one result and then adds the
  page to the registry itself (page/client.go:308-309). `page.go` defines
  `NewPage(name)`, which also adds the page (page/page.go:20-26). The model
  follows the call site. `Hub.Page.constructor` builds the page (root control,
  counter, empty pool and sessions) and does not touch the registry.

Three behaviours of the code worth knowing:

- The reply to `registerWebClient` never carries a session ID. It is "" even
  when the client joined a session (page/client.go:252-255, 282-289).
- A page command is always answered with result "Good" and no error, whatever
  the page or the command (page/client.go:347-357).
- A host of an app page joins the page's host pool and no session, and a new
  app session notifies no host (page/client.go:275-279, a TODO). So an event
  from a browser on an app page reaches no host.

## Model

| member | source | states |
|---|---|---|
| ControlTable.DecimalString | page/page.go:33 | the counter's rendering is a non-empty string of decimal digits that starts with '0' exactly when the counter is 0 |
| ControlTable.DecimalRoundTrip | page/page.go:33 | reading the rendering back as a decimal number gives the counter |
| ControlTable.DecimalStringInjective | page/page.go:30-36 | different counter values give different IDs |
| ControlTable.ParentNotFound | page/page.go:48 | the error text names the missing parent ID: "parent control with id '<id>' not found" |
| ControlTable.NewControl | page/page.go:24 | a control with the given type, parent ID and ID and no children |
| ControlTable.Control.AddChildID | page/page.go:53 | the control with the ID appended at the end of its child list |
| ControlTable.InsertControl | page/page.go:39-61 | the insertion rule: it fails, with the missing parent's name, exactly when a parent ID is set but not stored; on success the keys are the old keys plus the control's ID and the control is stored under its ID (the parent's child list is InsertUnderParent's part) |
| ControlTable.InsertUnknownParentFails | page/page.go:42-49 | a parent ID that is set but not stored fails with "parent control with id '…' not found" |
| ControlTable.InsertRootSucceeds | page/page.go:57-60 | a control with no parent is always accepted and stored under its ID, and nothing else changes |
| ControlTable.InsertUnderParent | page/page.go:51-59 | under a stored parent: the control is stored under its ID, the parent's child list gains that ID (unless the control replaces its own parent), and no other entry changes |
| ControlTable.InsertKeepsKeysAreIds | page/page.go:42-59 | insertion keeps every control stored under its own ID |
| ControlTable.InsertKeepsParentsPresent | page/page.go:42-59 | insertion keeps every named parent ID a key of the table |
| ControlTable.InsertKeepsChildrenPresent | page/page.go:51-59 | insertion of a control whose own children are stored (as a fresh control's are) keeps every child ID a key of the table |
| ControlTable.InitialTableWellFormed | page/page.go:23-24 | the first insertion into an empty table stores the root "Page" control under "0", and that table is well formed |
| Hub.Page.constructor | page/page.go:20-26 | a new page holds exactly the root control of type "Page" with no parent under ID "0"; the counter is 1; the table is well formed; pool and sessions are empty |
| Hub.Page.NextControlID | page/page.go:30-36 | returns the decimal rendering of the counter and increments the counter by exactly one |
| Hub.Page.AddControl | page/page.go:39-61 | follows InsertControl: on a missing parent it returns that error and leaves the table unchanged, otherwise it stores the new table; it keeps KeysAreIds and ParentsPresent |
| Hub.Page.RegisterClient | page/page.go:63-67 | the pool gains the client under its ID, and no other entry changes |
| Hub.Page.UnregisterClient | page/page.go:69-73 | the pool loses exactly the key of the client's ID |
| Hub.Page.GetSession | page/client.go:314 | the session filed under the ID, or null |
| Hub.Page.AddSession | page/client.go:270 | files the session under its own ID |
| Hub.Session.constructor | page/client.go:269 | a new session has the given ID and page and no clients |
| Hub.Session.RegisterClient | page/client.go:408 | the session's client set gains the client |
| Hub.Session.UnregisterClient | page/client.go:415 | the session's client set loses the client |
| Hub.Registry.Get | page/client.go:250 | the page registered under the name, or null |
| Hub.Registry.Add | page/client.go:309 | files the page under its name |
| Hub.Client.constructor | page/client.go:112-120 | a new client has no role, no sessions, no pages and an empty outbox |
| Hub.Client.Send | page/client.go:289 | the message is appended to the client's outbox |
| Hub.Client.RegisterPage | page/client.go:402-405 | membership is two-sided: the page's pool maps the client's ID to the client, and the page is among the client's pages |
| Hub.Client.RegisterSession | page/client.go:407-410 | membership is two-sided: the client is in the session's set, and the session is among the client's sessions |
| Hub.Client.Unregister | page/client.go:412-422 | afterwards the client is absent from every one of its sessions and the pool of every one of its pages has lost its ID; nothing else in them changes |
| Hub.PushedEvent | page/client.go:379-392 | the forwarded event has an empty ID and action pageEventToHost; its page name and session ID are the session's; target, name and data are the sender's |
| Hub.NewSessionId | page/client.go:269 | the new session ID is non-empty and not yet used on the page |
| Hub.JoinAsWeb | page/client.go:260-273 | a shared page's web client joins the existing zero session; an app page's web client joins a new session with an unused ID, filed under the page; the page's sessions stay well kept |
| Hub.RegisterWebClient | page/client.go:241-290 | role becomes WebClient in every case; an unknown page joins nothing and is answered "Page not found or access denied"; a known page joins a session as in JoinAsWeb; the reply carries the request ID and SessionID ""; nothing else changes |
| Hub.GetOrAddPage | page/client.go:306-310 | the page is created, with the requested mode and only its root control, exactly when the registry lacks the name; a registered page is reused as it is |
| Hub.JoinZeroSession | page/client.go:313-320 | the client joins the page's zero session, which is created and filed only when the page has none |
| Hub.JoinAsHost | page/client.go:312-323 | on a shared page the host joins the zero session, on an app page it joins the host pool and no session; the page's sessions stay well kept |
| Hub.RegisterHostClient | page/client.go:292-334 | role becomes HostClient; the page is created only when missing; a shared page's host joins the zero session and is answered ZeroSession, an app page's host joins the pool and is answered ""; the reply carries the request ID |
| Hub.ExecuteCommandFromHostClient | page/client.go:336-365 | the only effect is the reply under the request's ID with result "Good" and no error, on the requester's outbox |
| Hub.ProcessPageEventFromWebClient | page/client.go:367-400 | with the sender in at least one session: every HostClient member of one of its sessions gets the stamped event once, and every other client gets nothing |
| Hub.ReadHandler | page/client.go:214-239 | a frame that does not decode is an error; a decoded one goes to the handler its action names; any other action changes nothing and is not an error; the registry invariant is kept; only the requester's outbox gains replies |
| Hub.IsHandled | page/client.go:224-236 | the four action names the dispatcher's switch handles |
| Wire.DecodeMessage | page/client.go:217-222 | decoding fails exactly when the frame is not JSON, is neither an object nor null, or has an id or action that is neither a string nor null; null decodes to the empty envelope |
| Wire.EncodeMessage | page/client.go:66-70 | an encoded envelope decodes back to itself |
| Wire.EncodeRegisterRequest | page/client.go:72-75 | an encoded register request decodes back to itself |
| Wire.EncodeRegisterResponse | page/client.go:77-80 | an encoded register response decodes back to itself |
| Wire.EncodeCommandRequest | page/client.go:82-86 | an encoded command request decodes back to itself |
| Wire.EncodeCommandResponse | page/client.go:88-91 | an encoded command response decodes back to itself |
| Wire.EncodePageEvent | page/client.go:93-99 | an encoded page event decodes back to itself |
| Wire.DecodeRegisterRequest | page/client.go:243-244 | the register payload's pageName and isApp, each at its zero value when missing or mistyped (also page/client.go:294-295) |
| Wire.DecodeCommandRequest | page/client.go:339-340 | the command payload's pageName, sessionID and command, each "" when missing or mistyped |
| Wire.DecodePageEvent | page/client.go:379-380 | the event payload's five string fields, each "" when missing or mistyped |
| Wire.RegisterReply | page/client.go:282-289 | the register reply carries the request's ID and no action, and its payload decodes to the response (also page/client.go:326-333) |
| Wire.CommandReply | page/client.go:347-357 | the command reply carries the request's ID and decodes to result "Good", error "" |
| Scenarios.HostOpensSharedPage | page/client.go:292-320 | on an empty registry a host creates the shared page and its zero session, joins it, and is answered ZeroSession |
| Scenarios.WebJoinsSharedPage | page/client.go:241-273 | a web client on that page joins the host's zero session and is answered with no session ID |
| Scenarios.WebSendsEvent | page/client.go:367-400 | the web client's event reaches the host stamped with the zero session, and nothing is queued for the sender |
| Scenarios.SharedPageRun | page/client.go:214-400 | host registers, browser registers and clicks: the host's outbox is its reply followed by the event with page "home", session ZeroSession and the browser's target, name and data |
| Scenarios.HostRejoinsSharedPage | page/client.go:312-320 | a second host of the shared page joins the same zero session and is answered ZeroSession |
| Scenarios.TwoHostsRun | page/client.go:312-320 | repeated host registration gives the same session ID and the same session |
| Scenarios.LeaveSharedPageRun | page/client.go:412-422 | after the browser unregisters (twice), the zero session holds only the host and the page's host pool is empty |
| Scenarios.HostOpensAppPage | page/client.go:306-323 | a host of a new app page joins the page's pool, no session, and is answered "" |
| Scenarios.WebOpensAppSession | page/client.go:266-273 | each web client of an app page gets a new session with an unused non-empty ID |
| Scenarios.TwoBrowsersOpenAppPage | page/client.go:266-273 | two web clients of an app page, one after the other, get new sessions with distinct non-empty IDs, each holding only its browser, and each is answered with no session ID |
| Scenarios.WebSendsAppEvent | page/client.go:367-400 | an event from an app session nobody else is in queues nothing for the sender |
| Scenarios.AppPageRun | page/client.go:262-279 | two browsers of an app page get distinct non-empty session IDs, and an event from the first reaches no one: every outbox holds only its register reply |
| Scenarios.CommandAndNoiseRun | page/client.go:214-239 | a command is answered "Good" under its ID, a non-JSON frame is an error, an unknown action is ignored without error |
| Scenarios.TwoControlIDs | page/page.go:30-36 | two IDs handed out in a row differ |
| Scenarios.UnregisterClientTwice | page/page.go:69-73 | removing a client from the pool twice equals removing it once |
| Scenarios.RegisterThenUnregisterClient | page/page.go:63-73 | removing a client just added under an absent ID restores the pool |
| Scenarios.UnregisterTwice | page/client.go:412-422 | a client unregistering twice leaves its sessions and pages as unregistering once does |
| Scenarios.ControlTableRun | page/page.go:20-73 | a new page hands out "1" and "2"; a control under the root is stored and listed as the root's child; a control under a missing parent fails with that parent's name; joining and leaving the pool leaves it empty |

## Left out

- `readPump`, `writePump` and `WebsocketHandler` (page/client.go:122-212): WebSocket I/O, deadlines, ping/pong timers and goroutines. The end of the read loop on a handler error is the `Fail` outcome of `Hub.ReadHandler`.
- The locks of `Page` and of the registry: every operation is one sequential step, so interleavings are not modelled.
- JSON text: a frame is taken as already parsed into a JSON value, or found not to be JSON. Parsing, `encoding/json`'s case-insensitive key matching, numbers and arrays, and the exact error texts of the decoder are not modelled.
- The `send` channel's capacity (256) and blocking: the outbox is unbounded.
- Logging (`fmt.Println`, `fmt.Printf`, `log.Printf`).
- The TODO parts of `executeCommandFromHostClient` and of app-page host notification: they do nothing in the code, and so do they here.
- Hub.Page.NextControlID: the Go counter is an `int` and could wrap around after 2^63 IDs. The model's counter is unbounded.
- Hub.NewSessionId: a UUID is random. The model only promises what the hub relies on: the ID is non-empty and unused on the page.
- Hub.ProcessPageEventFromWebClient: requires the sender to be in at least one session, because the code dereferences a nil session otherwise (page/client.go:370-377). The model does not describe that crash.
- Hub.RegisterWebClient: requires the registry invariant, under which a shared page always has its zero session. `NewPage` of page/page.go:20-26 adds a page with no sessions; a web client on such a shared page would join a nil session. That path is not used by the modelled handlers and is not modelled.
- Go's map iteration order: which session an event is taken from, and the order in which sessions, pages and members are visited, are left open.
- client/src/generateTree.js: a random demo tree built with floating point. It is not part of this model.
