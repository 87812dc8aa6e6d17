/** What the server owes to those who ask it for something: answers, deliveries, names,
    notices, and its own end when nobody needs it any more. */
module BrokerLaws {
  import opened Broker
  import opened BrokerProofs
  import opened BrokerRuns
  import opened DcopTypes
  import opened Options
  import opened Registry

  // ----------------------------------------------------------------- newcomers

  /** A server starts without clients and with the switch that it was given, and whoever connects
      has no name, is no daemon, gets no notices, and has no calls. */
  lemma NewcomersHaveNothing(s: Server, id: IceConn, suicide: bool)
    requires ValidNames(s) && id !in s.clients
    ensures var r := Step(s, Connect(id));
            r.sent == [] && r.server == s.(clients := s.clients[id := Conn(None, false, 0, [], [], [])])
    ensures var start := Initial(suicide);
            && start.clients == map[] && start.appIds == map[] && start.suicide == suicide
            && !start.shutdown && !start.timerActive
  {
  }

  // ------------------------------------------------------- answers and deliveries

  /** The server refuses what it cannot do: calls to nobody, searches for nobody, and
      requests that it does not understand. */
  predicate Understood(opcode: Opcode, toApp: string, request: Request) {
    opcode == Call && toApp == "DCOPServer" && request != Other(false)
  }

  /** Whoever calls nobody, or the server, is answered exactly once, with the key of the call
      or the next one of the server; and all others are not answered by the server. */
  lemma CallersAreAnswered(s: Server, id: IceConn, opcode: Opcode, key: CARD32, toApp: string, request: Request)
    requires ValidNames(s) && id in s.clients && toApp !in s.appIds
    ensures var r := Step(s, Message(id, opcode, key, toApp, request));
            if opcode == Call || opcode == Find then
              && |r.sent| == 1 && r.sent[0].to == id && r.sent[0].from == None
              && r.sent[0].key == (if key != 0 then key else s.serverKey)
              && (r.sent[0].opcode == Reply <==> Understood(opcode, toApp, request))
              && (r.sent[0].opcode == ReplyFailed <==> !Understood(opcode, toApp, request))
              && r.server.serverKey == (if key != 0 then s.serverKey else (s.serverKey + 1) % CARD32_SIZE)
            else r.sent == [] && r.server.serverKey == s.serverKey
  {
  }

  /** A message that is not for the server changes nothing if nobody has that name. */
  lemma NobodyIsReached(s: Server, id: IceConn, opcode: Opcode, key: CARD32, toApp: string, request: Request)
    requires ValidNames(s) && id in s.clients && toApp !in s.appIds && !ForServer(opcode, toApp)
    ensures var t := Step(s, Message(id, opcode, key, toApp, request)).server; t == s.(serverKey := t.serverKey)
  {
  }

  /** Whoever has the name gets the message, as it is and once, and nobody else gets any. */
  lemma NamesAreReached(s: Server, id: IceConn, opcode: Opcode, key: CARD32, toApp: string, request: Request)
    requires ValidNames(s) && id in s.clients && toApp in s.appIds
    ensures var sent := Step(s, Message(id, opcode, key, toApp, request)).sent;
            && |sent| == 1 && sent[0].opcode == opcode && sent[0].key == key && sent[0].from == Some(id)
            && forall c :: c in s.clients ==> (sent[0].to == c <==> s.clients[c].appId == Some(toApp))
  {
  }

  /** A message to all names that begin alike reaches exactly the clients with such names. */
  lemma PatternsReach(s: Server, id: IceConn, opcode: Opcode, key: CARD32, prefix: string, request: Request)
    requires ValidNames(s) && id in s.clients && prefix + "*" !in s.appIds
    ensures var ev := Message(id, opcode, key, prefix + "*", request);
            forall c :: c in Broadcast(s, ev) <==>
              && (opcode == Send || opcode == ReplyDelayed)
              && c in s.clients && s.clients[c].appId.Some? && prefix <= s.clients[c].appId.value
    ensures opcode == Send || opcode == ReplyDelayed ==>
              BroadcastKey(s, Message(id, opcode, key, prefix + "*", request)) == key
  {
    var toApp := prefix + "*";
    assert toApp[..|toApp| - 1] == prefix && toApp[|toApp| - 1] == '*';
    if opcode == Send || opcode == ReplyDelayed {
      forall c | c in s.clients && s.clients[c].appId.Some? && prefix <= s.clients[c].appId.value
        ensures c in Matching(s.appIds, toApp)
      {
        assert s.appIds[s.clients[c].appId.value] == c;
      }
    }
  }

  // ------------------------------------------------------------------ requests

  /** What the server does for a request, by whatever kind of message it comes. */
  function Asking(id: IceConn, opcode: Opcode, key: CARD32, request: Request): Event {
    Message(id, opcode, key, "DCOPServer", request)
  }

  predicate Open(s: Server, id: IceConn, opcode: Opcode) {
    id in s.clients && "DCOPServer" !in s.appIds && ForServer(opcode, "DCOPServer")
  }

  /** Does another client have this name? */
  ghost predicate Taken(cl: Clients, id: IceConn, name: string) {
    exists c | c in cl && c != id :: cl[c].appId == Some(name)
  }

  lemma ReleasedAreTaken(s: Server, id: IceConn, name: string)
    requires ValidNames(s) && id in s.clients
    ensures name in ReleaseName(s.appIds, s.clients[id].appId, id) <==> Taken(s.clients, id, name)
  {
    if name in ReleaseName(s.appIds, s.clients[id].appId, id) {
      var c := s.appIds[name];
      assert c in s.clients && s.clients[c].appId == Some(name);
    }
  }

  /** A client gets the name that it asks for, or if another one has it, the name with the
      least number from 2 on that no other one has; nobody else's name changes. */
  lemma NamesAreGiven(s: Server, id: IceConn, opcode: Opcode, key: CARD32, app: string)
    requires ValidNames(s) && Open(s, id, opcode)
    ensures var t := Step(s, Asking(id, opcode, key, RegisterAs(app))).server;
            && t.clients.Keys == s.clients.Keys
            && (forall c :: c in s.clients && c != id ==> t.clients[c] == s.clients[c])
            && t.clients[id] == s.clients[id].(appId := t.clients[id].appId)
            && (app == "" ==> t.clients == s.clients)
            && (app != "" && !Taken(s.clients, id, app) ==> t.clients[id].appId == Some(app))
            && (app != "" && Taken(s.clients, id, app) ==>
                  exists n: nat :: n >= 2 && t.clients[id].appId == Some(app + ("-" + Decimal(n)))
                      && IsLeast(s.clients, id, app, n))
  {
    AskedIs(s, id, opcode, key, RegisterAs(app));
    if app != "" {
      ReleasedAreTaken(s, id, app);
      LeastIsGiven(s, id, app);
    }
  }

  lemma LeastIsGiven(s: Server, id: IceConn, app: string)
    requires ValidNames(s) && id in s.clients && app != ""
    ensures Taken(s.clients, id, app) ==>
              exists n: nat :: n >= 2 && Register(s, id, app).clients[id].appId == Some(app + ("-" + Decimal(n)))
                               && IsLeast(s.clients, id, app, n)
  {
    ReleasedAreTaken(s, id, app);
    if Taken(s.clients, id, app) {
      LeastIsFree(s, id, app);
      var n := FreeSuffix(ReleaseName(s.appIds, s.clients[id].appId, id).Keys, app, 2);
      assert Register(s, id, app).clients[id].appId == Some(Suffixed(app, n));
    }
  }

  ghost predicate IsLeast(cl: Clients, id: IceConn, app: string, n: nat) {
    !Taken(cl, id, Suffixed(app, n)) && forall m :: 2 <= m < n ==> Taken(cl, id, Suffixed(app, m))
  }

  lemma LeastIsFree(s: Server, id: IceConn, app: string)
    requires ValidNames(s) && id in s.clients
    ensures IsLeast(s.clients, id, app, FreeSuffix(ReleaseName(s.appIds, s.clients[id].appId, id).Keys, app, 2))
  {
    var names := ReleaseName(s.appIds, s.clients[id].appId, id).Keys;
    var n := FreeSuffix(names, app, 2);
    ReleasedAreTaken(s, id, Suffixed(app, n));
    forall m | 2 <= m < n ensures Taken(s.clients, id, Suffixed(app, m)) {
      ReleasedAreTaken(s, id, Suffixed(app, m));
    }
  }

  /** What is left of a request once it has been answered. */
  lemma AskedIs(s: Server, id: IceConn, opcode: Opcode, key: CARD32, request: Request)
    requires ValidNames(s) && Open(s, id, opcode)
    ensures var t, r := Step(s, Asking(id, opcode, key, request)).server, Receive(s, id, request).0;
            t.clients == r.clients && t.appIds == r.appIds && ValidNames(t) && ValidNames(r)
  {
    StepKeepsNames(s, Asking(id, opcode, key, request));
    ReceiveKeepsNames(s, id, request);
  }

  /** A client with a name is a daemon exactly if that is what it asked for last; the
      request changes nothing else about the clients. */
  lemma DaemonsAreAsAsked(s: Server, id: IceConn, opcode: Opcode, key: CARD32, on: bool)
    requires ValidNames(s) && Open(s, id, opcode)
    ensures var t := Step(s, Asking(id, opcode, key, SetDaemonMode(on))).server;
            t.appIds == s.appIds &&
            t.clients == if s.clients[id].appId.Some? then s.clients[id := s.clients[id].(daemon := on)] else s.clients
  {
    AskedIs(s, id, opcode, key, SetDaemonMode(on));
    SameEntry(s.clients, id);
  }

  lemma SameEntry(cl: Clients, id: IceConn)
    requires id in cl
    ensures cl[id := cl[id]] == cl
    ensures forall on :: on == cl[id].daemon ==> cl[id].(daemon := on) == cl[id]
    ensures forall n :: n == cl[id].notifyRegister ==> cl[id].(notifyRegister := n) == cl[id]
  {
  }

  lemma NotifyIs(s: Server, id: IceConn, opcode: Opcode, key: CARD32, on: bool)
    requires ValidNames(s) && Open(s, id, opcode)
    ensures var t := Step(s, Asking(id, opcode, key, SetNotifications(on))).server;
            var n := s.clients[id].notifyRegister;
            var now: nat := if on then n + 1 else if n > 0 then n - 1 else 0;
            && ValidNames(t) && Open(t, id, opcode)
            && t.clients == s.clients[id := s.clients[id].(notifyRegister := now)]
  {
    AskedIs(s, id, opcode, key, SetNotifications(on));
  }

  /** Asking for notices, and asking for an end of them, undo each other; who asked gets
      them, and who did not ask is not harmed by asking for an end. */
  lemma NoticesAreAsAsked(s: Server, id: IceConn, opcode: Opcode, key: CARD32)
    requires ValidNames(s) && Open(s, id, opcode)
    ensures var asked := Step(s, Asking(id, opcode, key, SetNotifications(true))).server;
            && id in asked.clients && asked.clients[id].notifyRegister > 0
            && ValidNames(asked)
            && Step(asked, Asking(id, opcode, key, SetNotifications(false))).server.clients == s.clients
    ensures s.clients[id].notifyRegister == 0 ==>
              Step(s, Asking(id, opcode, key, SetNotifications(false))).server.clients == s.clients
  {
    NotifyIs(s, id, opcode, key, true);
    NotifyIs(s, id, opcode, key, false);
    var asked := Step(s, Asking(id, opcode, key, SetNotifications(true))).server;
    NotifyIs(asked, id, opcode, key, false);
    SameEntry(s.clients, id);
  }

  // ------------------------------------------------------ the termination timer

  lemma RequestTimer(s: Server, id: IceConn, request: Request)
    requires Inv(s) && id in s.clients
    ensures var t := Receive(s, id, request).0;
            && t.suicide == s.suicide && t.shutdown == s.shutdown
            && (t.timerActive <==> s.timerActive && |Applications(t.clients)| <= |Applications(s.clients)|)
  {
    ReceiveKeeps(s, id, request);
  }

  /** A message stops the timer exactly if there is one more application after it. */
  lemma MessageTimer(s: Server, id: IceConn, opcode: Opcode, key: CARD32, toApp: string, request: Request)
    requires Inv(s)
    ensures var t := Step(s, Message(id, opcode, key, toApp, request)).server;
            && t.suicide == s.suicide && t.shutdown == s.shutdown
            && (t.timerActive <==> s.timerActive && |Applications(t.clients)| <= |Applications(s.clients)|)
  {
    if id in s.clients {
      if toApp in s.appIds {
        RoutedApplications(s.clients, id, opcode, s.appIds[toApp]);
      } else {
        ServedTimer(s, id, opcode, key, toApp, request);
      }
    }
  }

  lemma RoutedApplications(cl: Clients, id: IceConn, opcode: Opcode, t: IceConn)
    requires id in cl && t in cl
    ensures Applications(Route(cl, id, opcode, t)) == Applications(cl)
  {
    RouteKeepsIdentities(cl, id, opcode, t);
  }

  lemma ServedTimer(s: Server, id: IceConn, opcode: Opcode, key: CARD32, toApp: string, request: Request)
    requires Inv(s) && id in s.clients && toApp !in s.appIds
    ensures var t := Step(s, Message(id, opcode, key, toApp, request)).server;
            && t.suicide == s.suicide && t.shutdown == s.shutdown
            && (t.timerActive <==> s.timerActive && |Applications(t.clients)| <= |Applications(s.clients)|)
  {
    RequestTimer(s, id, request);
    ServedIs(s, id, opcode, key, toApp, request);
  }

  predicate SameButKey(s: Server, t: Server) {
    && t.clients == s.clients && t.suicide == s.suicide && t.shutdown == s.shutdown && t.timerActive == s.timerActive
  }

  lemma ServedIs(s: Server, id: IceConn, opcode: Opcode, key: CARD32, toApp: string, request: Request)
    requires ValidNames(s) && id in s.clients && toApp !in s.appIds
    ensures var t := Step(s, Message(id, opcode, key, toApp, request)).server;
            SameButKey(s, t) || SameButKey(Receive(s, id, request).0, t)
  {
    var r := Receive(s, id, request);
    AnsweringIs(s, id, key);
    AnsweringIs(r.0, id, key);
    UnroutedIs(s, id, opcode, key, toApp, request, r);
  }

  lemma AnsweringIs(s: Server, id: IceConn, key: CARD32)
    ensures forall ok :: SameButKey(s, AnswerSelf(s, id, key, ok).server)
  {
  }

  /** The four ways in which the server can end up with a message. */
  lemma UnroutedIs(s: Server, id: IceConn, opcode: Opcode, key: CARD32, toApp: string, request: Request,
                   r: (Server, bool))
    requires id in s.clients && r == Receive(s, id, request)
    ensures var t := WithoutTarget(s, id, opcode, key, toApp, request).server;
            t == s || t == r.0 || t == AnswerSelf(s, id, key, false).server || t == AnswerSelf(r.0, id, key, r.1).server
  {
  }

  predicate Nameless(cl: Clients) {
    forall c <- cl :: cl[c].appId == None
  }

  /** The end of a client arms the timer exactly if it was the last application of a server
      that is to end with them, or the last client with a name during a shutdown. */
  lemma RemovalTimer(s: Server, id: IceConn)
    requires Inv(s) && id in s.clients
    ensures var t := Step(s, Disconnect(id)).server;
            && t.suicide == s.suicide && t.shutdown == s.shutdown
            && (t.timerActive <==>
                  s.timerActive || (s.suicide && Applications(t.clients) == {}) || (s.shutdown && Nameless(t.clients)))
  {
    RemovalKeeps(s, id);
    var t := Step(s, Disconnect(id)).server;
    NamelessIs(t);
    assert |Applications(t.clients)| == 0 <==> Applications(t.clients) == {};
  }

  lemma NamelessIs(t: Server)
    requires ValidNames(t)
    ensures t.appIds == map[] <==> Nameless(t.clients)
  {
    if n :| n in t.appIds {
      assert t.clients[t.appIds[n]].appId == Some(n);
    } else {
      assert t.appIds == map[];
    }
  }

  /** When the timer is armed after a step, for every step. */
  lemma TimerExactly(s: Server, ev: Event)
    requires Inv(s) && Possible(s, ev)
    ensures var t := Step(s, ev).server;
            && t.suicide == s.suicide && (t.shutdown <==> s.shutdown || ev.Shutdown?)
            && (t.timerActive <==>
                  match ev
                  case Connect(_) => s.timerActive
                  case Disconnect(_) =>
                    s.timerActive || (s.suicide && Applications(t.clients) == {}) || (s.shutdown && Nameless(t.clients))
                  case Message(_, _, _, _, _) => s.timerActive && |Applications(t.clients)| <= |Applications(s.clients)|
                  case Shutdown => s.timerActive || !s.shutdown)
  {
    match ev
    case Connect(_) =>
    case Disconnect(id) => RemovalTimer(s, id);
    case Message(id, opcode, key, toApp, request) => MessageTimer(s, id, opcode, key, toApp, request);
    case Shutdown =>
  }
}
