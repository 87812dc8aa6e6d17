/** Whole runs of the server: the invariant of every reachable state, the
    conservation of calls and the keys the server hands out. */
module BrokerRuns {
  import opened Broker
  import opened BrokerProofs
  import opened BrokerRemoval
  import opened DcopTypes
  import opened Options
  import opened PtrLists
  import opened Registry

  // ----------------------------------------- names and the number of clients

  /** Same connections, same names, same daemon flags. */
  ghost predicate SameIdentities(cl: Clients, cl': Clients) {
    cl.Keys == cl'.Keys && forall c | c in cl :: SameIdentity(cl[c], cl'[c])
  }

  lemma SameIdentitiesKeepNames(s: Server, cl': Clients)
    requires ValidNames(s) && SameIdentities(s.clients, cl')
    ensures ValidNames(s.(clients := cl'))
  {
  }

  lemma SameIdentitiesKeeps(s: Server, cl': Clients)
    requires ValidNames(s) && Counted(s) && SameIdentities(s.clients, cl')
    ensures ValidNames(s.(clients := cl')) && Counted(s.(clients := cl'))
  {
    assert Applications(cl') == Applications(s.clients);
  }

  lemma CallKeepsIdentities(cl: Clients, a: IceConn, b: IceConn)
    requires a in cl && b in cl
    ensures SameIdentities(cl, AddCall(cl, a, b))
  {
  }

  lemma AnswersKeepIdentities(cl: Clients, a: IceConn, b: IceConn, wait: bool)
    requires a in cl && b in cl
    ensures SameIdentities(cl, AnswerCall(cl, a, b, wait))
    ensures SameIdentities(cl, AnswerLate(cl, a, b))
  {
    AnswerCallLists(cl, a, b, wait, a);
    AnswerLateLists(cl, a, b, a);
    forall c | c in cl ensures SameIdentity(cl[c], AnswerCall(cl, a, b, wait)[c])
                            && SameIdentity(cl[c], AnswerLate(cl, a, b)[c]) {
      AnswerCallLists(cl, a, b, wait, c);
      AnswerLateLists(cl, a, b, c);
    }
  }

  function WithIdentity(cl: Clients, id: IceConn, appId: Option<string>, daemon: bool): Clients
    requires id in cl
  {
    cl[id := cl[id].(appId := appId, daemon := daemon)]
  }

  /** The books only read the three lists. */
  lemma IdentityKeepsBooks(cl: Clients, id: IceConn, appId: Option<string>, daemon: bool)
    requires Bookkept(cl) && id in cl
    ensures Bookkept(WithIdentity(cl, id, appId, daemon))
  {
    var cl' := WithIdentity(cl, id, appId, daemon);
    forall x, y | x in cl' && y in cl' ensures Awaited(cl', x, y) == Outstanding(cl', x, y) {
      assert Awaited(cl, x, y) == Outstanding(cl, x, y);
    }
  }

  lemma IdentityApplications(cl: Clients, id: IceConn, appId: Option<string>, daemon: bool)
    requires id in cl
    ensures Applications(WithIdentity(cl, id, appId, daemon)) ==
            if appId.Some? && !daemon then Applications(cl) + {id} else Applications(cl) - {id}
  {
  }

  lemma RegisterKeepsNames(s: Server, id: IceConn, app: string)
    requires ValidNames(s) && id in s.clients
    ensures ValidNames(Register(s, id, app))
  {
  }

  lemma RegisterIsRename(s: Server, id: IceConn, app: string)
    requires id in s.clients && app != ""
    ensures var conn := s.clients[id];
            var name := UniqueName(ReleaseName(s.appIds, conn.appId, id).Keys, app);
            Register(s, id, app).clients == WithIdentity(s.clients, id, Some(name), conn.daemon)
  {
  }

  lemma RegisterKeepsCount(s: Server, id: IceConn, app: string)
    requires Counted(s) && id in s.clients
    ensures Counted(Register(s, id, app))
  {
    if app != "" {
      var conn := s.clients[id];
      var name := UniqueName(ReleaseName(s.appIds, conn.appId, id).Keys, app);
      RegisterIsRename(s, id, app);
      IdentityApplications(s.clients, id, Some(name), conn.daemon);
      if conn.appId.Some? {
        assert Applications(Register(s, id, app).clients) == Applications(s.clients);
      }
    }
  }

  lemma RegisterKeepsBooks(s: Server, id: IceConn, app: string)
    requires Bookkept(s.clients) && id in s.clients
    ensures Bookkept(Register(s, id, app).clients)
  {
    if app != "" {
      var conn := s.clients[id];
      var name := UniqueName(ReleaseName(s.appIds, conn.appId, id).Keys, app);
      RegisterIsRename(s, id, app);
      IdentityKeepsBooks(s.clients, id, Some(name), conn.daemon);
    }
  }

  lemma SetDaemonKeepsNames(s: Server, id: IceConn, on: bool)
    requires ValidNames(s) && id in s.clients
    ensures ValidNames(SetDaemon(s, id, on))
  {
  }

  lemma SetDaemonKeepsCount(s: Server, id: IceConn, on: bool)
    requires Counted(s) && id in s.clients
    ensures Counted(SetDaemon(s, id, on))
  {
    var conn := s.clients[id];
    if conn.appId.Some? && conn.daemon != on {
      IdentityApplications(s.clients, id, conn.appId, on);
      assert SetDaemon(s, id, on).clients == WithIdentity(s.clients, id, conn.appId, on);
    }
  }

  lemma SetDaemonKeepsBooks(s: Server, id: IceConn, on: bool)
    requires Bookkept(s.clients) && id in s.clients
    ensures Bookkept(SetDaemon(s, id, on).clients)
  {
    var conn := s.clients[id];
    if conn.appId.Some? && conn.daemon != on {
      IdentityKeepsBooks(s.clients, id, conn.appId, on);
      assert SetDaemon(s, id, on).clients == WithIdentity(s.clients, id, conn.appId, on);
    }
  }

  /** Asking for notices is a matter of its own. */
  lemma SetNotifyKeepsNames(s: Server, id: IceConn, on: bool)
    requires ValidNames(s) && id in s.clients
    ensures ValidNames(SetNotify(s, id, on))
  {
  }

  lemma SetNotifyKeepsCount(s: Server, id: IceConn, on: bool)
    requires Counted(s) && id in s.clients
    ensures Counted(SetNotify(s, id, on))
  {
    assert Applications(SetNotify(s, id, on).clients) == Applications(s.clients);
  }

  lemma SetNotifyKeepsBooks(s: Server, id: IceConn, on: bool)
    requires Bookkept(s.clients) && id in s.clients
    ensures Bookkept(SetNotify(s, id, on).clients)
  {
    var cl := SetNotify(s, id, on).clients;
    forall x, y | x in cl && y in cl ensures Awaited(cl, x, y) == Outstanding(cl, x, y) {
      assert Awaited(s.clients, x, y) == Outstanding(s.clients, x, y);
    }
  }

  lemma RouteKeepsIdentities(cl: Clients, id: IceConn, opcode: Opcode, t: IceConn)
    requires id in cl && t in cl
    ensures SameIdentities(cl, Route(cl, id, opcode, t))
  {
    match opcode
    case Send =>
    case Call => CallKeepsIdentities(cl, id, t);
    case Find => CallKeepsIdentities(cl, id, t);
    case ReplyDelayed => AnswersKeepIdentities(cl, t, id, false);
    case _ => AnswersKeepIdentities(cl, t, id, opcode == ReplyWait);
  }

  lemma DropPendingKeepsIdentities(cl: Clients, dead: IceConn, conn: Conn)
    ensures SameIdentities(cl, DropPending(cl, dead, conn).0)
  {
    var cl1 := AbortCalls(cl, dead, conn.waitingForReply).0;
    var cl2 := AbortCalls(cl1, dead, conn.waitingForDelayedReply).0;
    forall c | c in cl ensures SameIdentity(cl[c], DropPending(cl, dead, conn).0[c]) {
      AbortCallsEffect(cl, dead, conn.waitingForReply, c);
      AbortCallsEffect(cl1, dead, conn.waitingForDelayedReply, c);
      ForgetCallsEffect(cl2, dead, conn.waitingOnReply, c);
    }
  }

  lemma RemovalKeepsNames(s: Server, dead: IceConn)
    requires ValidNames(s) && dead in s.clients
    ensures ValidNames(RemoveConnection(s, dead).server)
  {
    DropPendingKeepsIdentities(s.clients - {dead}, dead, s.clients[dead]);
  }

  lemma ConnectKeepsNames(s: Server, id: IceConn)
    requires ValidNames(s) && id !in s.clients
    ensures ValidNames(Step(s, Connect(id)).server)
  {
  }

  lemma ReceiveKeepsNames(s: Server, id: IceConn, request: Request)
    requires ValidNames(s) && id in s.clients
    ensures ValidNames(Receive(s, id, request).0)
  {
    match request
    case RegisterAs(app) => RegisterKeepsNames(s, id, app);
    case SetDaemonMode(on) => SetDaemonKeepsNames(s, id, on);
    case SetNotifications(on) => SetNotifyKeepsNames(s, id, on);
    case ConnectSignal(_) =>
    case Other(_) =>
  }

  lemma UnroutedKeepsNames(s: Server, id: IceConn, opcode: Opcode, key: CARD32, toApp: string, request: Request)
    requires ValidNames(s) && id in s.clients
    ensures ValidNames(WithoutTarget(s, id, opcode, key, toApp, request).server)
  {
    ReceiveKeepsNames(s, id, request);
    var r := Receive(s, id, request);
    KeyKeepsNames(s, NextKey(s.serverKey));
    KeyKeepsNames(r.0, NextKey(r.0.serverKey));
  }

  lemma KeyKeepsNames(s: Server, k: CARD32)
    requires ValidNames(s)
    ensures ValidNames(s.(serverKey := k))
  {
  }

  /** However clients answer, the table of names stays a bijection. */
  lemma MessageKeepsNames(s: Server, id: IceConn, opcode: Opcode, key: CARD32, toApp: string, request: Request)
    requires ValidNames(s)
    ensures ValidNames(ProcessMessage(s, id, opcode, key, toApp, request).server)
  {
    if id in s.clients {
      if toApp in s.appIds {
        RouteKeepsIdentities(s.clients, id, opcode, s.appIds[toApp]);
        SameIdentitiesKeepNames(s, Route(s.clients, id, opcode, s.appIds[toApp]));
      } else {
        UnroutedKeepsNames(s, id, opcode, key, toApp, request);
      }
    }
  }

  lemma RemovalKeepsCount(s: Server, dead: IceConn)
    requires Counted(s) && dead in s.clients
    ensures Counted(RemoveConnection(s, dead).server)
  {
    var cl := DropPending(s.clients - {dead}, dead, s.clients[dead]).0;
    DropPendingKeepsIdentities(s.clients - {dead}, dead, s.clients[dead]);
    assert Applications(cl) == Applications(s.clients) - {dead};
  }

  lemma RemovalKeeps(s: Server, dead: IceConn)
    requires Inv(s) && dead in s.clients
    ensures Inv(RemoveConnection(s, dead).server)
    ensures RemoveConnection(s, dead).server.clients == Erase(s.clients, dead)
  {
    DropPendingErases(s.clients, dead);
    EraseKeepsBooks(s.clients, dead);
    RemovalKeepsNames(s, dead);
    RemovalKeepsCount(s, dead);
  }

  lemma ConnectKeeps(s: Server, id: IceConn)
    requires Inv(s) && id !in s.clients
    ensures Inv(Step(s, Connect(id)).server)
  {
    var cl := s.clients[id := NEW_CONN];
    forall x, y | x in cl && y in cl ensures Awaited(cl, x, y) == Outstanding(cl, x, y) {
      if x != id && y != id {
        assert Awaited(s.clients, x, y) == Outstanding(s.clients, x, y);
      } else if x != id {
        assert OnlyOpen(s.clients, s.clients[x].waitingOnReply);
        assert id !in s.clients[x].waitingOnReply;
      } else if y != id {
        assert id !in s.clients[y].waitingForReply && id !in s.clients[y].waitingForDelayedReply;
      }
    }
    assert Applications(cl) == Applications(s.clients);
  }

  lemma RouteKeeps(cl: Clients, id: IceConn, opcode: Opcode, t: IceConn)
    requires Bookkept(cl) && id in cl && t in cl
    ensures Bookkept(Route(cl, id, opcode, t)) <==> (IsAnswer(opcode) ==> Settles(cl, t, id, opcode == ReplyWait))
    ensures SameIdentities(cl, Route(cl, id, opcode, t))
  {
    match opcode
    case Send =>
    case Call => AddCallKeepsBooks(cl, id, t); CallKeepsIdentities(cl, id, t);
    case Find => AddCallKeepsBooks(cl, id, t); CallKeepsIdentities(cl, id, t);
    case ReplyDelayed => AnswerLateKeepsBooks(cl, t, id); AnswersKeepIdentities(cl, t, id, false);
    case _ =>
      AnswerCallKeepsBooksExactly(cl, t, id, opcode == ReplyWait);
      AnswersKeepIdentities(cl, t, id, opcode == ReplyWait);
  }

  lemma ReceiveKeeps(s: Server, id: IceConn, request: Request)
    requires Inv(s) && id in s.clients
    ensures Inv(Receive(s, id, request).0)
  {
    match request
    case RegisterAs(app) =>
      RegisterKeepsNames(s, id, app);
      RegisterKeepsBooks(s, id, app);
      RegisterKeepsCount(s, id, app);
    case SetDaemonMode(on) =>
      SetDaemonKeepsNames(s, id, on);
      SetDaemonKeepsBooks(s, id, on);
      SetDaemonKeepsCount(s, id, on);
    case SetNotifications(on) =>
      SetNotifyKeepsNames(s, id, on);
      SetNotifyKeepsBooks(s, id, on);
      SetNotifyKeepsCount(s, id, on);
    case ConnectSignal(_) =>
    case Other(_) =>
  }

  lemma RoutedKeeps(s: Server, id: IceConn, opcode: Opcode, t: IceConn)
    requires Inv(s) && id in s.clients && t in s.clients
    ensures Inv(s.(clients := Route(s.clients, id, opcode, t))) <==>
            (IsAnswer(opcode) ==> Settles(s.clients, t, id, opcode == ReplyWait))
  {
    RouteKeeps(s.clients, id, opcode, t);
    SameIdentitiesKeeps(s, Route(s.clients, id, opcode, t));
  }

  lemma AnswerSelfKeeps(s: Server, id: IceConn, key: CARD32, ok: bool)
    requires Inv(s)
    ensures Inv(AnswerSelf(s, id, key, ok).server)
  {
  }

  lemma UnroutedKeeps(s: Server, id: IceConn, opcode: Opcode, key: CARD32, toApp: string, request: Request)
    requires Inv(s) && id in s.clients
    ensures Inv(WithoutTarget(s, id, opcode, key, toApp, request).server)
  {
    ReceiveKeeps(s, id, request);
    if opcode == Call && toApp == "DCOPServer" {
      var r := Receive(s, id, request);
      AnswerSelfKeeps(r.0, id, key, r.1);
    } else if opcode in {Call, Find} {
      AnswerSelfKeeps(s, id, key, false);
    }
  }

  /** A step keeps the invariant exactly when it is no answer that does harm to the books. */
  lemma StepKeeps(s: Server, ev: Event)
    requires Inv(s) && Possible(s, ev)
    ensures Inv(Step(s, ev).server) <==> Conforming(s, ev)
  {
    match ev
    case Connect(id) => ConnectKeeps(s, id);
    case Disconnect(id) => RemovalKeeps(s, id);
    case Message(id, opcode, key, toApp, request) =>
      if id in s.clients {
        if toApp in s.appIds {
          RoutedKeeps(s, id, opcode, s.appIds[toApp]);
        } else {
          UnroutedKeeps(s, id, opcode, key, toApp, request);
        }
      }
    case Shutdown =>
  }

  // -------------------------------------------------------------------- runs

  /** A run in which handles are used as the system gives them out and every
      client's answers are fit for the books. */
  ghost predicate GoodRun(s: Server, evs: seq<Event>)
    requires Inv(s)
    decreases evs
  {
    evs == [] ||
    (Possible(s, evs[0]) && Conforming(s, evs[0]) &&
     (StepKeeps(s, evs[0]); GoodRun(Step(s, evs[0]).server, evs[1..])))
  }

  /** Where a run leads. Its ensures is the invariant of every reachable state. */
  ghost function Run(s: Server, evs: seq<Event>): (s': Server)
    requires Inv(s) && GoodRun(s, evs)
    ensures Inv(s')
    decreases evs
  {
    if evs == [] then s
    else
      StepKeeps(s, evs[0]);
      Run(Step(s, evs[0]).server, evs[1..])
  }

  /** A step more of a run. */
  lemma {:induction false} RunOn(s: Server, evs: seq<Event>, ev: Event)
    requires Inv(s) && GoodRun(s, evs) && Possible(Run(s, evs), ev) && Conforming(Run(s, evs), ev)
    ensures GoodRun(s, evs + [ev]) && Run(s, evs + [ev]) == Step(Run(s, evs), ev).server
    decreases evs
  {
    if evs == [] {
      StepKeeps(s, ev);
      assert [ev][1..] == [];
    } else {
      StepKeeps(s, evs[0]);
      assert (evs + [ev])[1..] == evs[1..] + [ev];
      RunOn(Step(s, evs[0]).server, evs[1..], ev);
    }
  }

  // ----------------------------------------------------- conservation of calls

  function Forwarded(sent: seq<Sent>, a: IceConn, b: IceConn): nat {
    if sent == [] then 0
    else OneIf(sent[0].to == b && sent[0].from == Some(a) && sent[0].opcode in {Call, Find})
         + Forwarded(sent[1..], a, b)
  }

  /** `ev` is a delayed answer of `b` to `a` that matches a promised one. */
  predicate LateAnswer(s: Server, ev: Event, a: IceConn, b: IceConn) {
    ev.Message? && ev.opcode == ReplyDelayed && ev.id == b && b in s.clients
    && ev.toApp in s.appIds && s.appIds[ev.toApp] == a && a in s.clients[b].waitingForDelayedReply
  }

  /** `ev` is an answer of `b` to `a` that nothing was asked for. */
  predicate Unasked(s: Server, ev: Event, a: IceConn, b: IceConn) {
    ev.Message? && (ev.opcode == Reply || ev.opcode == ReplyFailed) && ev.id == b && b in s.clients
    && ev.toApp in s.appIds && s.appIds[ev.toApp] == a && a !in s.clients[b].waitingForReply
  }

  ghost function Calls(s: Server, evs: seq<Event>, a: IceConn, b: IceConn): nat
    requires Inv(s) && GoodRun(s, evs)
    decreases evs
  {
    if evs == [] then 0
    else
      StepKeeps(s, evs[0]);
      Forwarded(Step(s, evs[0]).sent, a, b) + Calls(Step(s, evs[0]).server, evs[1..], a, b)
  }

  ghost function Uncalled(s: Server, evs: seq<Event>, a: IceConn, b: IceConn): nat
    requires Inv(s) && GoodRun(s, evs)
    decreases evs
  {
    if evs == [] then 0
    else
      StepKeeps(s, evs[0]);
      OneIf(Unasked(s, evs[0], a, b)) + Uncalled(Step(s, evs[0]).server, evs[1..], a, b)
  }

  ghost function Finished(s: Server, evs: seq<Event>, a: IceConn, b: IceConn): nat
    requires Inv(s) && GoodRun(s, evs)
    decreases evs
  {
    if evs == [] then 0
    else
      StepKeeps(s, evs[0]);
      Answers(Step(s, evs[0]).sent, a, b) + OneIf(LateAnswer(s, evs[0], a, b))
      + Finished(Step(s, evs[0]).server, evs[1..], a, b)
  }

  lemma RouteConserves(cl: Clients, id: IceConn, opcode: Opcode, key: CARD32, t: IceConn, a: IceConn, b: IceConn)
    requires Bookkept(cl) && id in cl && t in cl && a in cl && b in cl
    requires IsAnswer(opcode) ==> Settles(cl, t, id, opcode == ReplyWait)
    ensures var cl' := Route(cl, id, opcode, t);
            var sent := [Sent(t, opcode, key, Some(id))];
            var mine := id == b && t == a;
            b in cl' &&
            Forwarded(sent, a, b) + Outstanding(cl, a, b)
            + OneIf(mine && (opcode == Reply || opcode == ReplyFailed) && a !in cl[b].waitingForReply) ==
            Answers(sent, a, b) + OneIf(mine && opcode == ReplyDelayed && a in cl[b].waitingForDelayedReply)
            + Outstanding(cl', a, b)
  {
    var sent := [Sent(t, opcode, key, Some(id))];
    assert Forwarded(sent, a, b) == OneIf(t == b && id == a && opcode in {Call, Find});
    assert Answers(sent, a, b) == OneIf(t == a && id == b && opcode in {Reply, ReplyFailed});
    Counterpart(cl, t, id);
    match opcode
    case Send =>
    case Call => AddCallCounts(cl, id, t, a, b);
    case Find => AddCallCounts(cl, id, t, a, b);
    case ReplyDelayed => AnswerLateCounts(cl, t, id, a, b);
    case _ =>
      if t in cl[id].waitingForReply {
        AnswerCallCounts(cl, t, id, opcode == ReplyWait, a, b);
      } else {
        UnknownAnswer(cl, t, id);
      }
  }

  lemma ReceiveKeepsLists(s: Server, id: IceConn, request: Request, a: IceConn, b: IceConn)
    requires id in s.clients && b in s.clients
    ensures b in Receive(s, id, request).0.clients
    ensures Outstanding(Receive(s, id, request).0.clients, a, b) == Outstanding(s.clients, a, b)
  {
    match request
    case RegisterAs(app) =>
      if app != "" {
        RegisterIsRename(s, id, app);
      }
    case _ =>
  }

  lemma AnswerSelfConserves(s: Server, id: IceConn, key: CARD32, ok: bool, a: IceConn, b: IceConn)
    ensures var r := AnswerSelf(s, id, key, ok);
            r.server.clients == s.clients && Forwarded(r.sent, a, b) == 0 && Answers(r.sent, a, b) == 0
  {
  }

  /** Requests to the server itself leave the three lists alone. */
  lemma UnroutedConserves(s: Server, id: IceConn, opcode: Opcode, key: CARD32, toApp: string, request: Request,
                          a: IceConn, b: IceConn)
    requires id in s.clients && b in s.clients
    ensures var r := WithoutTarget(s, id, opcode, key, toApp, request);
            b in r.server.clients && Outstanding(r.server.clients, a, b) == Outstanding(s.clients, a, b)
            && Forwarded(r.sent, a, b) == 0 && Answers(r.sent, a, b) == 0
  {
    ReceiveKeepsLists(s, id, request, a, b);
    var r := Receive(s, id, request);
    AnswerSelfConserves(r.0, id, key, r.1, a, b);
    AnswerSelfConserves(s, id, key, false, a, b);
  }

  lemma StepConserves(s: Server, ev: Event, a: IceConn, b: IceConn)
    requires Inv(s) && Possible(s, ev) && Conforming(s, ev) && a in s.clients && b in s.clients
    requires ev != Disconnect(a) && ev != Disconnect(b)
    ensures var r := Step(s, ev);
            a in r.server.clients && b in r.server.clients &&
            Forwarded(r.sent, a, b) + Outstanding(s.clients, a, b) + OneIf(Unasked(s, ev, a, b)) ==
            Answers(r.sent, a, b) + OneIf(LateAnswer(s, ev, a, b)) + Outstanding(r.server.clients, a, b)
  {
    match ev
    case Connect(id) =>
    case Shutdown =>
    case Disconnect(id) =>
      RemovalKeeps(s, id);
      RemovalAnswers(s, id, a, b);
      EraseCounts(s.clients, id, a, b);
      NoneForwarded(RemoveConnection(s, id).sent, a, b);
    case Message(id, opcode, key, toApp, request) =>
      if id in s.clients {
        if toApp in s.appIds {
          RouteConserves(s.clients, id, opcode, key, s.appIds[toApp], a, b);
          RouteKeeps(s.clients, id, opcode, s.appIds[toApp]);
        } else {
          UnroutedConserves(s, id, opcode, key, toApp, request, a, b);
          UnroutedConserves(s, id, opcode, key, toApp, request, a, a);
        }
      }
  }

  lemma {:induction false} NoneForwarded(sent: seq<Sent>, a: IceConn, b: IceConn)
    requires forall m | m in sent :: m.opcode == ReplyFailed
    ensures Forwarded(sent, a, b) == 0
  {
    if sent != [] {
      assert sent[0] in sent;
      NoneForwarded(sent[1..], a, b);
    }
  }

  /** Conservation: while both ends stay connected, every call forwarded from `a` to `b` is
      either finished once or still outstanding, and all other answers were not asked for. */
  lemma {:induction false} Conservation(s: Server, evs: seq<Event>, a: IceConn, b: IceConn)
    requires Inv(s) && GoodRun(s, evs) && a in s.clients && b in s.clients
    requires Disconnect(a) !in evs && Disconnect(b) !in evs
    ensures var s' := Run(s, evs);
            a in s'.clients && b in s'.clients &&
            Calls(s, evs, a, b) + Outstanding(s.clients, a, b) + Uncalled(s, evs, a, b) ==
            Finished(s, evs, a, b) + Outstanding(s'.clients, a, b)
    decreases evs
  {
    if evs != [] {
      assert evs[0] in evs;
      StepKeeps(s, evs[0]);
      StepConserves(s, evs[0], a, b);
      Conservation(Step(s, evs[0]).server, evs[1..], a, b);
    }
  }

  /** The death of the callee finishes all that is left, so over the whole life
      of the callee each call is finished exactly once. */
  lemma CalleeDeathSettles(s: Server, evs: seq<Event>, a: IceConn, b: IceConn)
    requires Inv(s) && GoodRun(s, evs) && a in s.clients && b in s.clients
    requires Disconnect(a) !in evs && Disconnect(b) !in evs
    ensures var s' := Run(s, evs);
            b in s'.clients &&
            Calls(s, evs, a, b) + Outstanding(s.clients, a, b) + Uncalled(s, evs, a, b) ==
            Finished(s, evs, a, b) + Answers(RemoveConnection(s', b).sent, a, b)
  {
    Conservation(s, evs, a, b);
    RemovalAnswers(Run(s, evs), b, a, b);
  }

  // ------------------------------------------------------------------- keys

  predicate NeedsKey(ev: Event) { ev.Message? && ev.key == 0 }

  /** The key a step hands out: the one on the server's own answer to a call
      that came without a key. */
  function IssuedBy(ev: Event, sent: seq<Sent>): seq<CARD32> {
    if NeedsKey(ev) && sent != [] && sent[0].from.None? then [sent[0].key] else []
  }

  lemma StepKeepsNames(s: Server, ev: Event)
    requires ValidNames(s) && Possible(s, ev)
    ensures ValidNames(Step(s, ev).server)
  {
    match ev
    case Connect(id) => ConnectKeepsNames(s, id);
    case Disconnect(id) => RemovalKeepsNames(s, id);
    case Message(id, opcode, key, toApp, request) => MessageKeepsNames(s, id, opcode, key, toApp, request);
    case Shutdown =>
  }

  /** A run of any clients, whatever they answer. */
  ghost predicate AnyRun(s: Server, evs: seq<Event>)
    requires ValidNames(s)
    decreases evs
  {
    evs == [] || (Possible(s, evs[0]) && (StepKeepsNames(s, evs[0]); AnyRun(Step(s, evs[0]).server, evs[1..])))
  }

  ghost function IssuedKeys(s: Server, evs: seq<Event>): (keys: seq<CARD32>)
    requires ValidNames(s) && AnyRun(s, evs)
    ensures Consecutive(s.serverKey, keys)
    decreases evs
  {
    if evs == [] then []
    else
      StepKeepsNames(s, evs[0]);
      StepKeys(s, evs[0]);
      var r := Step(s, evs[0]);
      var issued, rest := IssuedBy(evs[0], r.sent), IssuedKeys(r.server, evs[1..]);
      KeysFollow(s.serverKey, issued, r.server.serverKey, rest);
      issued + rest
  }

  /** Server keys one after the other, starting with `k`. */
  ghost predicate Consecutive(k: CARD32, keys: seq<CARD32>)
    decreases |keys|
  {
    keys == [] || (keys[0] == k && Consecutive(NextKey(k), keys[1..]))
  }

  lemma KeysFollow(k: CARD32, issued: seq<CARD32>, k': CARD32, rest: seq<CARD32>)
    requires (issued == [] && k' == k) || (issued == [k] && k' == NextKey(k))
    requires Consecutive(k', rest)
    ensures Consecutive(k, issued + rest)
  {
    assert issued == [] ==> issued + rest == rest;
    assert issued == [k] ==> (issued + rest)[1..] == rest;
  }

  lemma {:induction false} ConsecutiveAt(k: CARD32, keys: seq<CARD32>, i: nat)
    requires Consecutive(k, keys) && i < |keys|
    ensures keys[i] == (k + i) % CARD32_SIZE
    decreases i
  {
    if i > 0 {
      ConsecutiveAt(NextKey(k), keys[1..], i - 1);
    }
  }

  /** What a step does with keys: at most the next server key is used up. */
  ghost predicate UsesKeys(k: CARD32, ev: Event, r: Outcome) {
    var issued := IssuedBy(ev, r.sent);
    || (issued == [] && r.server.serverKey == k)
    || (issued == [k] && r.server.serverKey == NextKey(k))
  }

  lemma ReceiveKeepsKey(s: Server, id: IceConn, request: Request)
    requires id in s.clients
    ensures Receive(s, id, request).0.serverKey == s.serverKey
  {
  }

  lemma UnroutedKeys(s: Server, ev: Event)
    requires ev.Message? && ev.id in s.clients
    ensures var r := WithoutTarget(s, ev.id, ev.opcode, ev.key, ev.toApp, ev.request);
            && UsesKeys(s.serverKey, ev, r)
            && (forall m | m in r.sent :: m.key == if ev.key != 0 then ev.key else s.serverKey)
  {
    ReceiveKeepsKey(s, ev.id, ev.request);
  }

  /** Forwarding never changes a key; the server's answer to a call carries the
      key of the call, or the next server key if the call had none. */
  lemma StepKeys(s: Server, ev: Event)
    requires ValidNames(s) && Possible(s, ev)
    ensures UsesKeys(s.serverKey, ev, Step(s, ev))
    ensures ev.Message? ==>
              forall m | m in Step(s, ev).sent ::
                m.key == if ev.key != 0 || ev.toApp in s.appIds then ev.key else s.serverKey
  {
    if ev.Message? && ev.id in s.clients && ev.toApp !in s.appIds {
      UnroutedKeys(s, ev);
    }
  }

  /** From the start, the first 2^32 - 42 keys are 42, 43, ... and so pairwise
      distinct and none of the special keys 0, 1 and 2. */
  lemma IssuedKeysDistinct(suicide: bool, evs: seq<Event>, i: nat, j: nat)
    requires AnyRun(Initial(suicide), evs)
    requires i < j < |IssuedKeys(Initial(suicide), evs)| <= CARD32_SIZE - FIRST_KEY
    ensures IssuedKeys(Initial(suicide), evs)[i] == FIRST_KEY + i
    ensures IssuedKeys(Initial(suicide), evs)[i] != IssuedKeys(Initial(suicide), evs)[j]
  {
    ConsecutiveAt(FIRST_KEY, IssuedKeys(Initial(suicide), evs), i);
    ConsecutiveAt(FIRST_KEY, IssuedKeys(Initial(suicide), evs), j);
  }
}
