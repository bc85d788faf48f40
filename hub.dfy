/**
 * The hub: pages with their control tables, sessions, connected clients, the
 * process-wide page registry, and the handlers that turn a client's frames
 * into registrations, replies and forwarded events.
 *
 * Each operation is one sequential step: the locks that guard these tables
 * are not modelled. A client's `send` channel is its `outbox`, the sequence
 * of messages queued for it, oldest first.
 */
module Hub {
  import opened Outcomes
  import opened ControlTable
  import opened Wire

  /**
   * The ID of the single session of a shared page. The session type is not
   * in the two modelled Go files; the constant is taken to be "0".
   */
  const ZeroSession: string := "0"

  /** What a client registered as; `None` until its first register request. */
  datatype ClientRole = None | WebClient | HostClient

  // ===========================================================================
  // Page
  // ===========================================================================

  class Page {
    const Name: string
    /** Whether the page is an app page (one session per viewer) rather than a shared one. */
    const IsApp: bool
    var Controls: map<string, Control>
    var nextControlID: nat
    /** The host pool of an app page, keyed by client ID. */
    var clients: map<string, Client>
    var sessions: map<string, Session>

    /**
     * A new page holds only its root control, of type "Page" with no parent,
     * under the first ID the counter hands out ("0"); the counter is then 1.
     */
    constructor (name: string, isApp: bool)
      ensures Name == name && IsApp == isApp
      ensures JustBuilt()
      ensures WellFormed(Controls)
      ensures clients == map[] && sessions == map[]
    {
      Name, IsApp := name, isApp;
      Controls, nextControlID := map[], 0;
      clients, sessions := map[], map[];
      new;
      var rootID := NextControlID();
      var _ := AddControl(NewControl("Page", "", rootID));
      InitialTableWellFormed();
    }

    /** Hands out the decimal rendering of the counter and advances the counter by one. */
    method NextControlID() returns (id: string)
      modifies this`nextControlID
      ensures id == DecimalString(old(nextControlID))
      ensures nextControlID == old(nextControlID) + 1
    {
      id := DecimalString(nextControlID);
      nextControlID := nextControlID + 1;
    }

    /**
     * Stores `ctl`, after appending its ID to its parent's child list. A parent
     * ID that is set but not stored is an error, and the table is left as it was.
     */
    method AddControl(ctl: Control) returns (err: Outcome)
      modifies this`Controls
      ensures match InsertControl(old(Controls), ctl)
        case Ok(table) => err == Pass && Controls == table
        case Err(e) => err == Fail(e) && Controls == old(Controls)
      ensures old(KeysAreIds(Controls)) ==> KeysAreIds(Controls)
      ensures old(ParentsPresent(Controls)) ==> ParentsPresent(Controls)
    {
      if KeysAreIds(Controls) {
        InsertKeepsKeysAreIds(Controls, ctl);
      }
      if ParentsPresent(Controls) {
        InsertKeepsParentsPresent(Controls, ctl);
      }
      var parentID := ctl.parentID;
      if parentID != "" {
        if parentID !in Controls {
          return Fail(ParentNotFound(parentID));
        }
        var parentCtl := Controls[parentID];
        Controls := Controls[parentID := parentCtl.AddChildID(ctl.id)];
      }
      Controls := Controls[ctl.id := ctl];
      return Pass;
    }

    /** Adds `client` to the host pool under its ID. */
    method RegisterClient(client: Client)
      modifies this`clients
      ensures clients == old(clients)[client.id := client]
    {
      clients := clients[client.id := client];
    }

    /** Removes the entry under `client`'s ID from the host pool. */
    method UnregisterClient(client: Client)
      modifies this`clients
      ensures clients == old(clients) - {client.id}
    {
      clients := clients - {client.id};
    }

    /** The session with the given ID, if the page has one (assumed collaborator). */
    method GetSession(id: string) returns (session: Session?)
      ensures session == if id in sessions then sessions[id] else null
    {
      session := if id in sessions then sessions[id] else null;
    }

    /** Files `session` under its ID (assumed collaborator). */
    method AddSession(session: Session)
      modifies this`sessions
      ensures sessions == old(sessions)[session.ID := session]
    {
      sessions := sessions[session.ID := session];
    }

    /** Every session is filed under its own ID and points back at this page. */
    ghost predicate SessionsFiled()
      reads this
    {
      forall id | id in sessions :: sessions[id].ID == id && sessions[id].page == this
    }

    /** The table and counter as the constructor leaves them: the root "Page" control under "0", counter 1. */
    ghost predicate JustBuilt()
      reads this
    {
      Controls == map["0" := NewControl("Page", "", "0")] && nextControlID == 1
    }

    /** The sessions are filed, and a shared page has its zero session. */
    ghost predicate SessionsWellKept()
      reads this
    {
      SessionsFiled() && (!IsApp ==> ZeroSession in sessions)
    }
  }

  // ===========================================================================
  // Session (assumed collaborator: its type is not in the two modelled Go files)
  // ===========================================================================

  class Session {
    const ID: string
    /** The page the session belongs to (a back-reference, not ownership). */
    const page: Page
    var clients: set<Client>

    constructor (page: Page, id: string)
      ensures ID == id && this.page == page && clients == {}
    {
      ID, this.page := id, page;
      clients := {};
    }

    method RegisterClient(client: Client)
      modifies this`clients
      ensures clients == old(clients) + {client}
    {
      clients := clients + {client};
    }

    method UnregisterClient(client: Client)
      modifies this`clients
      ensures clients == old(clients) - {client}
    {
      clients := clients - {client};
    }
  }

  // ===========================================================================
  // Client
  // ===========================================================================

  class Client {
    const id: string
    var role: ClientRole
    var sessions: set<Session>
    var pages: set<Page>
    var outbox: seq<Message>

    /** A newly connected client: no role, no memberships, nothing queued. The ID comes from the caller. */
    constructor (id: string)
      ensures this.id == id && role == None
      ensures sessions == {} && pages == {} && outbox == []
    {
      this.id := id;
      role, sessions, pages, outbox := None, {}, {}, [];
    }

    /** Every client that shares a session with this one. */
    ghost function Peers(): set<Client>
      reads this, sessions
    {
      set s, c | s in sessions && c in s.clients :: c
    }

    /** Queues `m` for the peer (`client.send <- m`). */
    method Send(m: Message)
      modifies this`outbox
      ensures outbox == old(outbox) + [m]
    {
      outbox := outbox + [m];
    }

    /** Joins the host pool of `page`, and records the page among the client's own. */
    method RegisterPage(page: Page)
      modifies this`pages, page`clients
      ensures page.clients == old(page.clients)[id := this]
      ensures pages == old(pages) + {page}
    {
      page.RegisterClient(this);
      pages := pages + {page};
    }

    /** Joins `session`, and records the session among the client's own. */
    method RegisterSession(session: Session)
      modifies this`sessions, session`clients
      ensures session.clients == old(session.clients) + {this}
      ensures sessions == old(sessions) + {session}
    {
      session.RegisterClient(this);
      sessions := sessions + {session};
    }

    /**
     * Leaves every session and every page the client recorded. The client's
     * own records are kept as they are.
     */
    method Unregister()
      modifies sessions`clients, pages`clients
      ensures forall s :: s in sessions ==> s.clients == old(s.clients) - {this}
      ensures forall p :: p in pages ==> p.clients == old(p.clients) - {id}
    {
      var todo := sessions;
      while todo != {}
        invariant todo <= sessions
        invariant forall s :: s in sessions && s !in todo ==> s.clients == old(s.clients) - {this}
        invariant forall s :: s in todo ==> s.clients == old(s.clients)
        invariant forall p :: p in pages ==> p.clients == old(p.clients)
        decreases todo
      {
        var s :| s in todo;
        s.UnregisterClient(this);
        todo := todo - {s};
      }
      var left := pages;
      while left != {}
        invariant left <= pages
        invariant forall s :: s in sessions ==> s.clients == old(s.clients) - {this}
        invariant forall p :: p in pages && p !in left ==> p.clients == old(p.clients) - {id}
        invariant forall p :: p in left ==> p.clients == old(p.clients)
        decreases left
      {
        var p :| p in left;
        p.UnregisterClient(this);
        left := left - {p};
      }
    }
  }

  // ===========================================================================
  // Page registry (assumed collaborator behind `Pages()`)
  // ===========================================================================

  class Registry {
    var pages: map<string, Page>

    constructor ()
      ensures pages == map[]
    {
      pages := map[];
    }

    /** Every session of every registered page. */
    ghost function Sessions(): set<Session>
      reads this, pages.Values
    {
      set p, s | p in pages.Values && s in p.sessions.Values :: s
    }

    /** Pages are filed under their names, and their sessions are well kept. */
    ghost predicate Valid()
      reads this, pages.Values
    {
      forall name | name in pages :: pages[name].Name == name && pages[name].SessionsWellKept()
    }

    method Get(name: string) returns (page: Page?)
      ensures page == if name in pages then pages[name] else null
    {
      page := if name in pages then pages[name] else null;
    }

    method Add(page: Page)
      modifies this`pages
      ensures pages == old(pages)[page.Name := page]
    {
      pages := pages[page.Name := page];
    }
  }

  // ===========================================================================
  // What each handler does, as relations between the state before and after
  // ===========================================================================

  /** The pageEventToHost push built from a web client's event payload on `session`. */
  function PushedEvent(session: Session, payload: Json): (m: Message)
    ensures m.id == "" && m.action == PageEventToHostAction
    ensures var e, sent := DecodePageEvent(m.payload), DecodePageEvent(payload);
      && e.pageName == session.page.Name && e.sessionID == session.ID
      && e.eventTarget == sent.eventTarget && e.eventName == sent.eventName && e.eventData == sent.eventData
  {
    var sent := DecodePageEvent(payload);
    Message("", PageEventToHostAction, EncodePageEvent(sent.(pageName := session.page.Name, sessionID := session.ID)))
  }

  /** `client`'s role and records, and the registry's table, are as they were. */
  twostate predicate ClientRecordsUnchanged(client: Client, registry: Registry)
    reads client, registry
  {
    && client.role == old(client.role) && client.sessions == old(client.sessions) && client.pages == old(client.pages)
    && registry.pages == old(registry.pages)
  }

  /** Nothing about `client` or the registry's table changed, and nothing was queued for `client`. */
  twostate predicate Untouched(client: Client, registry: Registry)
    reads client, registry
  {
    ClientRecordsUnchanged(client, registry) && client.outbox == old(client.outbox)
  }

  /**
   * A web client joined `joined` on the found `page`: on a shared page the
   * page's existing zero session, on an app page a new session with an ID the
   * page did not have, filed under the page.
   */
  twostate predicate WebJoined(client: Client, page: Page, new joined: Session)
    reads client, page, joined
  {
    && joined.page == page
    && client.sessions == old(client.sessions) + {joined}
    && (!page.IsApp ==>
          && ZeroSession in old(page.sessions) && joined == old(page.sessions[ZeroSession])
          && page.sessions == old(page.sessions)
          && joined.clients == old(joined.clients) + {client})
    && (page.IsApp ==>
          && fresh(joined) && joined.ID != "" && joined.ID !in old(page.sessions)
          && page.sessions == old(page.sessions)[joined.ID := joined]
          && joined.clients == {client})
  }

  /**
   * The effect of registerWebClient: the role becomes WebClient in every case;
   * an unknown page name joins nothing and is answered with PageNotFound;
   * a known one joins a session of that page (WebJoined). The reply never
   * carries a session ID.
   */
  twostate predicate WebRegistered(client: Client, message: Message, registry: Registry, new page: Page?, new joined: Session?)
    reads client, registry, page, joined
  {
    var name := DecodeRegisterRequest(message.payload).pageName;
    && client.role == WebClient
    && client.pages == old(client.pages)
    && client.outbox == old(client.outbox) +
         [RegisterReply(message.id, RegisterResponse("", if name in old(registry.pages) then "" else PageNotFound))]
    && registry.pages == old(registry.pages)
    && (name !in old(registry.pages) ==>
          page == null && joined == null && client.sessions == old(client.sessions))
    && (name in old(registry.pages) ==>
          && page == old(registry.pages[name]) && joined != null
          && page.clients == old(page.clients)
          && WebJoined(client, page, joined))
  }

  /**
   * A host client on the shared `page` joined its zero session: the one the
   * page already had, or a new one filed under ZeroSession.
   */
  twostate predicate HostJoinedZero(client: Client, new page: Page, new joined: Session)
    reads client, page, joined
  {
    && joined.ID == ZeroSession && joined.page == page
    && client.sessions == old(client.sessions) + {joined}
    && client.pages == old(client.pages)
    && (old(allocated(page)) && ZeroSession in old(page.sessions) ==>
          && joined == old(page.sessions[ZeroSession])
          && page.sessions == old(page.sessions)
          && joined.clients == old(joined.clients) + {client})
    && (!(old(allocated(page)) && ZeroSession in old(page.sessions)) ==>
          && fresh(joined)
          && page.sessions == (if old(allocated(page)) then old(page.sessions) else map[])[ZeroSession := joined]
          && joined.clients == {client})
    && page.clients == (if old(allocated(page)) then old(page.clients) else map[])
  }

  /** A host client on the app `page` joined the page's host pool, and no session. */
  twostate predicate HostJoinedPool(client: Client, new page: Page)
    reads client, page
  {
    && client.sessions == old(client.sessions)
    && client.pages == old(client.pages) + {page}
    && page.clients == (if old(allocated(page)) then old(page.clients) else map[])[client.id := client]
    && page.sessions == (if old(allocated(page)) then old(page.sessions) else map[])
  }

  /**
   * The effect of registerHostClient: the role becomes HostClient; the page is
   * the registered one, or a new one (with the requested mode and only its
   * root control) added under the name; a shared page's host joins the zero
   * session and is answered with ZeroSession, an app page's host joins the
   * host pool and is answered with "".
   */
  twostate predicate HostRegistered(client: Client, message: Message, registry: Registry, new page: Page, new joined: Session?)
    reads client, registry, page, joined
  {
    var request := DecodeRegisterRequest(message.payload);
    && client.role == HostClient
    && request.pageName in registry.pages && registry.pages[request.pageName] == page
    && (request.pageName in old(registry.pages) ==> registry.pages == old(registry.pages))
    && (request.pageName !in old(registry.pages) ==>
          && fresh(page)
          && registry.pages == old(registry.pages)[request.pageName := page]
          && page.Name == request.pageName && page.IsApp == request.isApp
          && page.JustBuilt())
    && client.outbox == old(client.outbox) +
         [RegisterReply(message.id, RegisterResponse(if page.IsApp then "" else ZeroSession, ""))]
    && (!page.IsApp ==> joined != null && HostJoinedZero(client, page, joined))
    && (page.IsApp ==> joined == null && HostJoinedPool(client, page))
  }

  /** The effect of pageCommandFromHost: the fixed reply, and nothing else. */
  twostate predicate CommandAnswered(client: Client, message: Message, registry: Registry)
    reads client, registry
  {
    ClientRecordsUnchanged(client, registry) && client.outbox == old(client.outbox) + [CommandReply(message.id)]
  }

  /**
   * The effect of pageEventFromWeb on the members of `session`, one of the
   * sender's sessions: each member whose role is HostClient got the stamped
   * event, and the others got nothing.
   */
  twostate predicate EventForwarded(client: Client, message: Message, registry: Registry, new session: Session)
    reads client, registry, session, session.clients
  {
    && session in old(client.sessions)
    && ClientRecordsUnchanged(client, registry)
    && session.clients == old(session.clients)
    && (forall c :: c in session.clients ==>
          c.outbox == old(c.outbox) + (if c.role == HostClient then [PushedEvent(session, message.payload)] else []))
  }

  // ===========================================================================
  // Handlers
  // ===========================================================================

  /**
   * A session ID the page does not have yet (stands in for `uuid.New()`):
   * longer than every ID the page holds.
   */
  method NewSessionId(page: Page) returns (id: string)
    ensures id != "" && id !in page.sessions
  {
    id := "s";
    var todo := page.sessions.Keys;
    while todo != {}
      invariant todo <= page.sessions.Keys
      invariant id != ""
      invariant forall k :: k in page.sessions.Keys && k !in todo ==> |k| < |id|
      decreases todo
    {
      var k :| k in todo;
      if |k| >= |id| {
        id := k + "-";
      }
      todo := todo - {k};
    }
  }

  /**
   * Joins a web client to a session of `page`: the zero session of a shared
   * page, a new session under a fresh ID on an app page.
   */
  method JoinAsWeb(client: Client, page: Page) returns (joined: Session)
    requires page.SessionsWellKept()
    modifies client`sessions, page`sessions, page.sessions.Values`clients
    ensures page.SessionsWellKept()
    ensures WebJoined(client, page, joined)
    ensures forall s: Session :: old(allocated(s)) && s != joined ==> s.clients == old(s.clients)
  {
    if !page.IsApp {
      joined := page.sessions[ZeroSession];
    } else {
      var sessionID := NewSessionId(page);
      joined := new Session(page, sessionID);
      page.AddSession(joined);
    }
    client.RegisterSession(joined);
  }

  /**
   * registerWebClient: the client becomes a web client; on a registered page
   * it joins a session (JoinAsWeb); it is answered under the request's ID,
   * with PageNotFound when the page is not registered.
   */
  method RegisterWebClient(client: Client, message: Message, registry: Registry)
    returns (ghost page: Page?, ghost joined: Session?)
    requires registry.Valid()
    modifies client`role, client`sessions, client`outbox, registry.pages.Values`sessions, registry.Sessions()`clients
    ensures registry.Valid()
    ensures WebRegistered(client, message, registry, page, joined)
    ensures forall p: Page :: old(allocated(p)) && p != page ==> p.sessions == old(p.sessions)
    ensures forall s: Session :: old(allocated(s)) && s != joined ==> s.clients == old(s.clients)
  {
    var payload := DecodeRegisterRequest(message.payload);
    client.role := WebClient;
    var found := registry.Get(payload.pageName);
    var response := RegisterResponse("", "");
    page, joined := found, null;
    if found == null {
      response := response.(error := PageNotFound);
    } else {
      assert found == registry.pages[payload.pageName];
      joined := JoinAsWeb(client, found);
    }
    client.Send(RegisterReply(message.id, response));
  }

  /**
   * The page registered under `name`, or a new page with the requested mode,
   * added to the registry under that name.
   */
  method GetOrAddPage(registry: Registry, name: string, isApp: bool) returns (page: Page)
    modifies registry`pages
    ensures name in registry.pages && registry.pages[name] == page
    ensures name in old(registry.pages) ==> page == old(registry.pages[name]) && registry.pages == old(registry.pages)
    ensures name !in old(registry.pages) ==>
      && fresh(page) && registry.pages == old(registry.pages)[name := page]
      && page.Name == name && page.IsApp == isApp
      && page.JustBuilt()
      && page.clients == map[] && page.sessions == map[]
  {
    var found := registry.Get(name);
    if found == null {
      page := new Page(name, isApp);
      registry.Add(page);
    } else {
      page := found;
    }
  }

  /**
   * Joins `client` to the zero session of `page`, creating and filing that
   * session first if the page has none.
   */
  method JoinZeroSession(client: Client, page: Page) returns (session: Session)
    requires page.SessionsFiled()
    modifies client`sessions, page`sessions, page.sessions.Values`clients
    ensures page.SessionsFiled() && ZeroSession in page.sessions && page.sessions[ZeroSession] == session
    ensures session.ID == ZeroSession && session.page == page
    ensures client.sessions == old(client.sessions) + {session}
    ensures ZeroSession in old(page.sessions) ==>
      && session == old(page.sessions[ZeroSession]) && page.sessions == old(page.sessions)
      && session.clients == old(session.clients) + {client}
    ensures ZeroSession !in old(page.sessions) ==>
      fresh(session) && page.sessions == old(page.sessions)[ZeroSession := session] && session.clients == {client}
    ensures forall s: Session :: old(allocated(s)) && s != session ==> s.clients == old(s.clients)
  {
    var existing := page.GetSession(ZeroSession);
    if existing == null {
      session := new Session(page, ZeroSession);
      page.AddSession(session);
    } else {
      session := existing;
    }
    client.RegisterSession(session);
  }

  /**
   * Joins a host client to `page`: the zero session of a shared page, the
   * host pool of an app page.
   */
  method JoinAsHost(client: Client, page: Page) returns (joined: Session?)
    requires page.SessionsFiled()
    modifies client`sessions, client`pages, page`sessions, page`clients, page.sessions.Values`clients
    ensures page.SessionsWellKept()
    ensures !page.IsApp ==> joined != null && HostJoinedZero(client, page, joined)
    ensures page.IsApp ==> joined == null && HostJoinedPool(client, page)
    ensures forall s: Session :: old(allocated(s)) && s != joined ==> s.clients == old(s.clients)
  {
    if !page.IsApp {
      joined := JoinZeroSession(client, page);
    } else {
      client.RegisterPage(page);
      joined := null;
    }
  }

  /**
   * registerHostClient: the client becomes a host client; the page is looked
   * up or created; the client joins it (JoinAsHost) and is answered under the
   * request's ID with the zero session's ID on a shared page.
   */
  method RegisterHostClient(client: Client, message: Message, registry: Registry)
    returns (ghost page: Page, ghost joined: Session?)
    requires registry.Valid()
    modifies client`role, client`sessions, client`pages, client`outbox
    modifies registry`pages, registry.pages.Values`sessions, registry.pages.Values`clients, registry.Sessions()`clients
    ensures registry.Valid()
    ensures HostRegistered(client, message, registry, page, joined)
    ensures forall p: Page :: old(allocated(p)) && p != page ==> p.sessions == old(p.sessions) && p.clients == old(p.clients)
    ensures forall s: Session :: old(allocated(s)) && s != joined ==> s.clients == old(s.clients)
  {
    var payload := DecodeRegisterRequest(message.payload);
    client.role := HostClient;
    var p := GetOrAddPage(registry, payload.pageName, payload.isApp);
    var session := JoinAsHost(client, p);
    var response := RegisterResponse(if p.IsApp then "" else session.ID, "");
    client.Send(RegisterReply(message.id, response));
    page, joined := p, session;
  }

  /** executeCommandFromHostClient: the fixed reply "Good" under the request's ID; the command is not processed. */
  method ExecuteCommandFromHostClient(client: Client, message: Message)
    modifies client`outbox
    ensures client.outbox == old(client.outbox) + [CommandReply(message.id)]
  {
    client.Send(CommandReply(message.id));
  }

  /**
   * processPageEventFromWebClient: takes one of the sender's sessions (the
   * sender must have one), stamps the event with that session's page name
   * and ID, and queues it for every host client in the session.
   */
  method ProcessPageEventFromWebClient(client: Client, message: Message, registry: Registry)
    returns (ghost session: Session)
    requires client.sessions != {}
    modifies client.Peers()`outbox
    ensures EventForwarded(client, message, registry, session)
    ensures forall c: Client :: old(allocated(c)) && c !in session.clients ==> c.outbox == old(c.outbox)
  {
    var s :| s in client.sessions;
    var event := PushedEvent(s, message.payload);
    var todo := s.clients;
    while todo != {}
      invariant todo <= s.clients
      invariant forall c :: c in s.clients && c !in todo ==>
        c.outbox == old(c.outbox) + (if c.role == HostClient then [event] else [])
      invariant forall c :: c in todo ==> c.outbox == old(c.outbox)
      invariant forall c: Client :: old(allocated(c)) && c !in s.clients ==> c.outbox == old(c.outbox)
      decreases todo
    {
      var c :| c in todo;
      if c.role == HostClient {
        c.Send(event);
      }
      todo := todo - {c};
    }
    session := s;
  }

  /**
   * Handles one frame: a frame that does not decode is an error (which ends
   * the client's read loop); a decoded envelope goes to the handler its action
   * names, and any other action is ignored. `page` and `session` name the
   * page and session the handler touched, if any.
   */
  method ReadHandler(client: Client, frame: Frame, registry: Registry)
    returns (err: Outcome, ghost page: Page?, ghost session: Session?)
    requires registry.Valid()
    requires FrameAction(frame) == PageEventFromWebAction ==> client.sessions != {}
    modifies client, registry`pages, registry.pages.Values`sessions, registry.pages.Values`clients
    modifies registry.Sessions()`clients, client.Peers()`outbox
    ensures registry.Valid()
    ensures err.Fail? <==> DecodeMessage(frame).Err?
    ensures DecodeMessage(frame).Ok? ==>
      var m := DecodeMessage(frame).value;
      && (m.action == RegisterWebClientAction ==> WebRegistered(client, m, registry, page, session))
      && (m.action == RegisterHostClientAction ==> page != null && HostRegistered(client, m, registry, page, session))
      && (m.action == PageCommandFromHostAction ==> CommandAnswered(client, m, registry))
      && (m.action == PageEventFromWebAction ==> session != null && EventForwarded(client, m, registry, session))
    ensures !IsHandled(FrameAction(frame)) ==> Untouched(client, registry) && page == null && session == null
    // what no handler touches
    ensures forall p: Page :: old(allocated(p)) && p != page ==> p.sessions == old(p.sessions) && p.clients == old(p.clients)
    ensures forall s: Session :: old(allocated(s)) && (s != session || FrameAction(frame) == PageEventFromWebAction) ==>
      s.clients == old(s.clients)
    ensures FrameAction(frame) != PageEventFromWebAction ==>
      forall c: Client :: old(allocated(c)) && c != client ==> c.outbox == old(c.outbox)
    ensures FrameAction(frame) == PageEventFromWebAction ==>
      session != null && forall c: Client :: old(allocated(c)) && c !in session.clients ==> c.outbox == old(c.outbox)
  {
    page, session := null, null;
    var decoded := DecodeMessage(frame);
    if decoded.Err? {
      return Fail(decoded.error), page, session;
    }
    var msg := decoded.value;
    if msg.action == RegisterWebClientAction {
      page, session := RegisterWebClient(client, msg, registry);
    } else if msg.action == RegisterHostClientAction {
      var p, s := RegisterHostClient(client, msg, registry);
      page, session := p, s;
    } else if msg.action == PageCommandFromHostAction {
      ExecuteCommandFromHostClient(client, msg);
    } else if msg.action == PageEventFromWebAction {
      var s := ProcessPageEventFromWebClient(client, msg, registry);
      session := s;
    }
    return Pass, page, session;
  }

  /** One of the four actions the hub handles. */
  predicate IsHandled(action: string)
  {
    action in {RegisterWebClientAction, RegisterHostClientAction, PageCommandFromHostAction, PageEventFromWebAction}
  }
}
