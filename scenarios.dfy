/**
 * End-to-end runs of the hub on fresh objects, each proved from the handlers'
 * contracts alone: what the replies say, which sessions the clients end up
 * in, and whose outboxes an event reaches.
 */
module Scenarios {
  import opened Outcomes
  import opened ControlTable
  import opened Wire
  import opened Hub

  /** The frame of a register request. */
  function RegisterFrame(requestID: string, action: string, pageName: string, isApp: bool): (f: Frame)
    ensures DecodeMessage(f) == Ok(Message(requestID, action, EncodeRegisterRequest(RegisterRequest(pageName, isApp))))
  {
    Parsed(EncodeMessage(Message(requestID, action, EncodeRegisterRequest(RegisterRequest(pageName, isApp)))))
  }

  /** The frame of a web client's event, with the page name and session ID it claims. */
  function EventFrame(event: PageEvent): (f: Frame)
    ensures DecodeMessage(f) == Ok(Message("", PageEventFromWebAction, EncodePageEvent(event)))
  {
    Parsed(EncodeMessage(Message("", PageEventFromWebAction, EncodePageEvent(event))))
  }

  /** The only value of a one-entry map is the entry's. */
  lemma SingletonValues<K, V>(k: K, v: V)
    ensures map[k := v].Values == {v}
  {
    assert map[k := v][k] == v;
  }

  /** A client as `newClient` leaves it: no role, no memberships, nothing queued. */
  ghost predicate Unregistered(c: Client)
    reads c
  {
    c.role == None && c.sessions == {} && c.pages == {} && c.outbox == []
  }

  /** A host client opens the shared page `name` on an empty registry. */
  method HostOpensSharedPage(registry: Registry, host: Client, requestID: string, name: string)
    returns (ghost zero: Session)
    requires registry.pages == map[] && Unregistered(host)
    modifies registry`pages, host
    ensures registry.Valid() && registry.pages == map[name := zero.page]
    ensures fresh(zero) && fresh(zero.page)
    ensures zero.ID == ZeroSession && zero.page.Name == name && !zero.page.IsApp
    ensures zero.page.sessions == map[ZeroSession := zero] && zero.page.clients == map[] && zero.clients == {host}
    ensures host.role == HostClient && host.sessions == {zero} && host.pages == {}
    ensures host.outbox == [RegisterReply(requestID, RegisterResponse(ZeroSession, ""))]
  {
    var err, page, session := ReadHandler(host, RegisterFrame(requestID, RegisterHostClientAction, name, false), registry);
    zero := session;
  }

  /** A web client joins the shared page `zero.page`, which one host has open. */
  method WebJoinsSharedPage(registry: Registry, web: Client, requestID: string, name: string, ghost zero: Session, host: Client)
    requires registry.Valid() && registry.pages == map[name := zero.page] && !zero.page.IsApp
    requires zero.page.sessions == map[ZeroSession := zero] && zero.clients == {host}
    requires Unregistered(web) && web != host
    modifies registry`pages, zero.page`sessions, zero.page`clients, zero`clients, web
    ensures registry.Valid() && registry.pages == old(registry.pages)
    ensures zero.page.sessions == old(zero.page.sessions) && zero.page.clients == old(zero.page.clients)
    ensures zero.clients == {host, web}
    ensures web.role == WebClient && web.sessions == {zero} && web.pages == {}
    ensures web.outbox == [RegisterReply(requestID, RegisterResponse("", ""))]
  {
    SingletonValues(name, zero.page);
    SingletonValues(ZeroSession, zero);
    assert registry.Sessions() <= {zero};
    var err, page, session := ReadHandler(web, RegisterFrame(requestID, RegisterWebClientAction, name, false), registry);
  }

  /** The web client sends `event` while it and the host share `zero`, and nothing else. */
  method WebSendsEvent(registry: Registry, web: Client, event: PageEvent, ghost name: string, ghost zero: Session, host: Client)
    requires registry.Valid() && registry.pages == map[name := zero.page]
    requires zero.page.sessions == map[ZeroSession := zero] && zero.clients == {host, web}
    requires web.sessions == {zero} && web.role == WebClient && host.role == HostClient
    modifies registry`pages, zero.page`sessions, zero.page`clients, zero`clients, web, host`outbox
    ensures host.outbox == old(host.outbox) + [PushedEvent(zero, EncodePageEvent(event))]
    ensures web.outbox == old(web.outbox)
  {
    SingletonValues(name, zero.page);
    SingletonValues(ZeroSession, zero);
    assert registry.Sessions() <= {zero};
    assert web.Peers() == {host, web};
    var err, page, session := ReadHandler(web, EventFrame(event), registry);
  }

  /**
   * A shared page: the host registers "home" and is answered with the zero
   * session; a browser registers the same page and joins that session; the
   * browser's click reaches the host stamped with the page name and the zero
   * session, whatever page and session the browser claimed.
   */
  method SharedPageRun() returns (hostOutbox: seq<Message>, webOutbox: seq<Message>)
    ensures |hostOutbox| == 2 && hostOutbox[0] == RegisterReply("h1", RegisterResponse(ZeroSession, ""))
    ensures hostOutbox[1].id == "" && hostOutbox[1].action == PageEventToHostAction
    ensures DecodePageEvent(hostOutbox[1].payload) == PageEvent("home", ZeroSession, "btn1", "click", "")
    ensures webOutbox == [RegisterReply("w1", RegisterResponse("", ""))]
  {
    var registry := new Registry();
    var host := new Client("host");
    var web := new Client("web");
    var zero := HostOpensSharedPage(registry, host, "h1", "home");
    WebJoinsSharedPage(registry, web, "w1", "home", zero, host);
    WebSendsEvent(registry, web, PageEvent("elsewhere", "s9", "btn1", "click", ""), "home", zero, host);
    hostOutbox, webOutbox := host.outbox, web.outbox;
  }

  /** A second host registers the shared page `zero.page` and is answered with the same zero session. */
  method HostRejoinsSharedPage(registry: Registry, host: Client, requestID: string, name: string, ghost zero: Session)
    requires registry.Valid() && registry.pages == map[name := zero.page] && !zero.page.IsApp
    requires zero.page.sessions == map[ZeroSession := zero]
    requires Unregistered(host) && host !in zero.clients
    modifies registry`pages, zero.page`sessions, zero.page`clients, zero`clients, host
    ensures registry.Valid() && registry.pages == old(registry.pages)
    ensures zero.page.sessions == old(zero.page.sessions) && zero.page.clients == old(zero.page.clients)
    ensures zero.clients == old(zero.clients) + {host}
    ensures host.role == HostClient && host.sessions == {zero} && host.pages == {}
    ensures host.outbox == [RegisterReply(requestID, RegisterResponse(ZeroSession, ""))]
  {
    SingletonValues(name, zero.page);
    SingletonValues(ZeroSession, zero);
    assert registry.Sessions() <= {zero};
    var err, page, session := ReadHandler(host, RegisterFrame(requestID, RegisterHostClientAction, name, false), registry);
  }

  /**
   * Two hosts register the same shared page: both are answered with the zero
   * session, and both sit in that one session.
   */
  method TwoHostsRun() returns (first: Client, second: Client, members: set<Client>)
    ensures first.outbox == [RegisterReply("h1", RegisterResponse(ZeroSession, ""))]
    ensures second.outbox == [RegisterReply("h2", RegisterResponse(ZeroSession, ""))]
    ensures first.sessions == second.sessions && |first.sessions| == 1
    ensures members == {first, second}
  {
    var registry := new Registry();
    first := new Client("host-1");
    second := new Client("host-2");
    var zero := HostOpensSharedPage(registry, first, "h1", "home");
    HostRejoinsSharedPage(registry, second, "h2", "home", zero);
    var z :| z in second.sessions;
    members := z.clients;
  }

  /**
   * The browser of the shared run leaves, twice over: the zero session keeps
   * only the host, and the page's host pool stays empty.
   */
  method LeaveSharedPageRun() returns (host: Client, members: set<Client>, pool: map<string, Client>)
    ensures members == {host}
    ensures pool == map[]
  {
    var registry := new Registry();
    host := new Client("host");
    var web := new Client("web");
    var zero := HostOpensSharedPage(registry, host, "h1", "home");
    WebJoinsSharedPage(registry, web, "w1", "home", zero, host);
    web.Unregister();
    web.Unregister();
    var z :| z in web.sessions;
    members, pool := z.clients, z.page.clients;
  }

  // ---------------------------------------------------------------------------
  // App pages
  // ---------------------------------------------------------------------------

  /** A host client opens the app page `name` on an empty registry and joins its host pool. */
  method HostOpensAppPage(registry: Registry, host: Client, requestID: string, name: string)
    returns (ghost page: Page)
    requires registry.pages == map[] && Unregistered(host)
    modifies registry`pages, host
    ensures registry.Valid() && registry.pages == map[name := page]
    ensures fresh(page) && page.Name == name && page.IsApp
    ensures page.sessions == map[] && page.clients == map[host.id := host]
    ensures host.role == HostClient && host.sessions == {} && host.pages == {page}
    ensures host.outbox == [RegisterReply(requestID, RegisterResponse("", ""))]
  {
    var err, p, session := ReadHandler(host, RegisterFrame(requestID, RegisterHostClientAction, name, true), registry);
    page := p;
  }

  /** A web client opens the app page `page`, and gets a session of its own. */
  method WebOpensAppSession(registry: Registry, web: Client, requestID: string, name: string, ghost page: Page)
    returns (ghost session: Session)
    requires registry.Valid() && registry.pages == map[name := page] && page.IsApp
    requires Unregistered(web)
    modifies registry`pages, page`sessions, page`clients, page.sessions.Values`clients, web
    ensures registry.Valid() && registry.pages == old(registry.pages)
    ensures fresh(session) && session.ID != "" && session.ID !in old(page.sessions)
    ensures page.sessions == old(page.sessions)[session.ID := session] && page.clients == old(page.clients)
    ensures session.clients == {web}
    ensures forall s :: s in old(page.sessions.Values) ==> s.clients == old(s.clients)
    ensures web.role == WebClient && web.sessions == {session} && web.pages == {}
    ensures web.outbox == [RegisterReply(requestID, RegisterResponse("", ""))]
  {
    SingletonValues(name, page);
    assert registry.Sessions() <= page.sessions.Values;
    var err, p, s := ReadHandler(web, RegisterFrame(requestID, RegisterWebClientAction, name, true), registry);
    session := s;
  }

  /** The web client sends `event` from its own session of an app page. */
  method WebSendsAppEvent(registry: Registry, web: Client, event: PageEvent, ghost name: string, ghost page: Page, ghost session: Session)
    requires registry.Valid() && registry.pages == map[name := page]
    requires web.sessions == {session} && session.clients == {web} && web.role == WebClient
    modifies registry`pages, page`sessions, page`clients, page.sessions.Values`clients, web
    ensures web.outbox == old(web.outbox) && web.sessions == old(web.sessions)
  {
    SingletonValues(name, page);
    assert registry.Sessions() <= page.sessions.Values;
    assert web.Peers() == {web};
    var err, p, s := ReadHandler(web, EventFrame(event), registry);
  }

  /** Two web clients open the app page `page`, one after the other, and get sessions of their own. */
  method TwoBrowsersOpenAppPage(registry: Registry, first: Client, second: Client, name: string, ghost page: Page)
    returns (ghost s1: Session, ghost s2: Session)
    requires registry.Valid() && registry.pages == map[name := page] && page.IsApp
    requires Unregistered(first) && Unregistered(second) && first != second
    modifies registry`pages, page`sessions, page`clients, page.sessions.Values`clients, first, second
    ensures registry.Valid() && registry.pages == old(registry.pages)
    ensures s1.ID != "" && s2.ID != "" && s1.ID != s2.ID
    ensures fresh(s1) && fresh(s2) && page.sessions == old(page.sessions)[s1.ID := s1][s2.ID := s2]
    ensures first.sessions == {s1} && s1.clients == {first} && first.role == WebClient
    ensures second.sessions == {s2} && s2.clients == {second} && second.role == WebClient
    ensures first.outbox == [RegisterReply("w1", RegisterResponse("", ""))]
    ensures second.outbox == [RegisterReply("w2", RegisterResponse("", ""))]
  {
    s1 := WebOpensAppSession(registry, first, "w1", name, page);
    s2 := WebOpensAppSession(registry, second, "w2", name, page);
  }

  /**
   * An app page: the host registers "app" and is answered with no session ID;
   * two browsers register it and each gets a session of its own, with
   * distinct non-empty IDs; an event from the first browser reaches no one,
   * the host included (the host pool of an app page is never notified).
   */
  method AppPageRun()
    returns (hostOutbox: seq<Message>, firstOutbox: seq<Message>, secondOutbox: seq<Message>, firstID: string, secondID: string)
    ensures hostOutbox == [RegisterReply("h1", RegisterResponse("", ""))]
    ensures firstOutbox == [RegisterReply("w1", RegisterResponse("", ""))]
    ensures secondOutbox == [RegisterReply("w2", RegisterResponse("", ""))]
    ensures firstID != "" && secondID != "" && firstID != secondID
  {
    var registry := new Registry();
    var host := new Client("host");
    var first := new Client("web-1");
    var second := new Client("web-2");
    var page := HostOpensAppPage(registry, host, "h1", "app");
    var s1, s2 := TwoBrowsersOpenAppPage(registry, first, second, "app", page);
    WebSendsAppEvent(registry, first, PageEvent("app", "", "btn1", "click", ""), "app", page, s1);
    var a :| a in first.sessions;
    var b :| b in second.sessions;
    hostOutbox, firstOutbox, secondOutbox := host.outbox, first.outbox, second.outbox;
    firstID, secondID := a.ID, b.ID;
  }

  // ---------------------------------------------------------------------------
  // Commands, bad frames, unknown actions
  // ---------------------------------------------------------------------------

  /**
   * A host's page command, a frame that is not JSON and an unknown action:
   * the command is answered with "Good" under its own ID, the bad frame is an
   * error, and the unknown action is ignored without error.
   */
  method CommandAndNoiseRun() returns (outbox: seq<Message>, badFrame: Outcome, unknownAction: Outcome)
    ensures outbox == [CommandReply("c1")]
    ensures DecodeCommandResponse(outbox[0].payload) == CommandResponse("Good", "")
    ensures badFrame.Fail? && unknownAction == Pass
  {
    var registry := new Registry();
    var host := new Client("host");
    var command := EncodeCommandRequest(CommandRequest("home", ZeroSession, "set btn1 text=Hi"));
    var err, page, session := ReadHandler(host, Parsed(EncodeMessage(Message("c1", PageCommandFromHostAction, command))), registry);
    badFrame, page, session := ReadHandler(host, Unparsable, registry);
    unknownAction, page, session := ReadHandler(host, Parsed(EncodeMessage(Message("p1", "ping", JNull))), registry);
    outbox := host.outbox;
  }

  // ---------------------------------------------------------------------------
  // Properties of the bookkeeping operations over any state
  // ---------------------------------------------------------------------------

  /** Two IDs handed out in a row differ. */
  method TwoControlIDs(page: Page) returns (a: string, b: string)
    modifies page`nextControlID
    ensures a != b
  {
    a := page.NextControlID();
    b := page.NextControlID();
    DecimalStringInjective(page.nextControlID - 2, page.nextControlID - 1);
  }

  /** Removing a client from the host pool twice is removing it once. */
  method UnregisterClientTwice(page: Page, client: Client)
    modifies page`clients
    ensures page.clients == old(page.clients) - {client.id}
  {
    page.UnregisterClient(client);
    page.UnregisterClient(client);
  }

  /** Removing a client just added under an ID the pool lacked restores the pool. */
  method RegisterThenUnregisterClient(page: Page, client: Client)
    requires client.id !in page.clients
    modifies page`clients
    ensures page.clients == old(page.clients)
  {
    page.RegisterClient(client);
    page.UnregisterClient(client);
  }

  /** A client leaving twice leaves every session and page as leaving once does. */
  method UnregisterTwice(client: Client)
    modifies client.sessions`clients, client.pages`clients
    ensures forall s :: s in client.sessions ==> s.clients == old(s.clients) - {client}
    ensures forall p :: p in client.pages ==> p.clients == old(p.clients) - {client.id}
  {
    client.Unregister();
    client.Unregister();
  }

  /**
   * A new page, two controls: one under the root, one under a parent that does
   * not exist; then a client joins and leaves the host pool.
   */
  method ControlTableRun()
    returns (first: string, second: string, added: Outcome, orphan: Outcome, controls: map<string, Control>, pool: map<string, Client>)
    ensures first == "1" && second == "2"
    ensures added == Pass && orphan == Fail(ParentNotFound("missing"))
    ensures controls == map["0" := Control("0", "Page", "", ["1"]), "1" := Control("1", "Button", "0", [])]
    ensures pool == map[]
  {
    var page := new Page("p", false);
    first := page.NextControlID();
    second := page.NextControlID();
    added := page.AddControl(NewControl("Button", "0", first));
    assert page.Controls["0"] == Control("0", "Page", "", ["1"]);
    assert page.Controls["1"] == Control("1", "Button", "0", []);
    assert page.Controls.Keys == {"0", "1"};
    assert page.Controls == map["0" := Control("0", "Page", "", ["1"]), "1" := Control("1", "Button", "0", [])];
    orphan := page.AddControl(NewControl("Text", "missing", second));
    var client := new Client("host");
    page.RegisterClient(client);
    page.UnregisterClient(client);
    controls, pool := page.Controls, page.clients;
  }
}
