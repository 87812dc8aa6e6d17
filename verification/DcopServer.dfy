/** The DCOP server as the source writes it: objects whose lists, tables and
    counters are updated in place. Every handler is proved to do to its objects
    what the state machine in module Broker does to values. */
module DcopServer {
  import B = Broker
  import R = BrokerRuns
  import opened Broadcasts
  import opened Connections
  import opened DcopTypes
  import opened Options
  import opened PtrLists
  import opened Registry
  import A = SignalArgs
  import S = Signals
  import SL = SignalLaws
  import opened Texts

  lemma ValuesWith<K, V>(m: map<K, V>, k: K, v: V)
    requires k !in m
    ensures m[k := v].Values == m.Values + {v}
  {
    var m' := m[k := v];
    assert m'[k] == v;
    forall w | w in m.Values ensures w in m'.Values {
      var j :| j in m && m[j] == w;
      assert m'[j] == w;
    }
  }

  lemma ValuesWithout<K, V>(m: map<K, V>, k: K)
    requires k in m && forall j | j in m && j != k :: m[j] != m[k]
    ensures (m - {k}).Values == m.Values - {m[k]}
  {
    var m' := m - {k};
    forall w | w in m.Values - {m[k]} ensures w in m'.Values {
      var j :| j in m && m[j] == w;
      assert m'[j] == w;
    }
    forall w | w in m'.Values ensures w in m.Values - {m[k]} {
      var j :| j in m' && m'[j] == w;
      assert m[j] == w;
    }
  }

  /** What a message to "DCOPServer" asks for: something of the router, or of the signals. */
  datatype Ask =
    | Router(request: B.Request)
    | Emission(fun: string)
    | Connection(sender: string, senderObj: string, signal: string, receiverObj: string, slot: string,
                 volatileConn: bool)
    | Disconnection(sender: string, senderObj: string, signal: string, receiverObj: string, slot: string)

  /** For the router, a request about signals is one that succeeds. */
  function RequestOf(ask: Ask): B.Request {
    if ask.Router? then ask.request else if ask.Connection? then B.ConnectSignal(true) else B.Other(true)
  }

  /** A request to connect a signal is granted if the arguments fit, and a volatile sender is there. */
  predicate Granted(ask: Ask, names: set<string>) {
    && ask.Connection? && A.HasArgs(ask.signal) && A.HasArgs(ask.slot)
    && A.Args(A.ArgsOf(ask.slot)) <= A.Args(A.ArgsOf(ask.signal)) && (ask.volatileConn ==> ask.sender in names)
  }

  /** The connection that a request asks for. */
  predicate Makes(c: DCOPSignalConnection, ask: Ask, conn: DCOPConnection, found: DCOPConnection?) {
    && ask.Connection? && c.sender == ask.sender && c.senderObj == ask.senderObj && c.signal == ask.signal
    && c.recvConn == conn && c.recvObj == ask.receiverObj && c.slot == ask.slot && c.senderConn == found
  }

  /** A client that calls the server about signals is told that it succeeded, whether or not a
      connection was made, and nothing happens to the tables of the router. */
  lemma SignalRequestsSucceed(s: B.Server, id: IceConn, key: CARD32, ask: Ask)
    requires B.ValidNames(s) && id in s.clients && "DCOPServer" !in s.appIds && !ask.Router?
    ensures var r := B.Step(s, B.Message(id, Call, key, "DCOPServer", RequestOf(ask)));
            && |r.sent| == 1 && r.sent[0].to == id && r.sent[0].opcode == Reply
            && r.server == s.(serverKey := r.server.serverKey)
  {
  }

  /** The part of a name before the "-" that a number comes after. */
  function PlainName(name: string): string {
    var c := IndexOf(name, '-');
    if 0 < c < |name| then name[..c] else name
  }

  /** A name with a number comes from the name in front of it; other names are left alone. */
  lemma PlainNames(app: string, more: string)
    requires '-' !in app
    ensures PlainName(app) == app
    ensures PlainName(app + "-" + more) == if app == "" then "-" + more else app
  {
    IndexOfBehind(app, '-', more);
  }

  /** What comes in: connections that open and close, messages, and the signal to shut down. */
  datatype Incoming =
    | Opened(id: IceConn)
    | Closed(id: IceConn)
    | Received(id: IceConn, opcode: Opcode, key: CARD32, toApp: string, ask: Ask)
    | PipeOfDeath

  function EventOf(i: Incoming): B.Event {
    match i
    case Opened(id) => B.Connect(id)
    case Closed(id) => B.Disconnect(id)
    case Received(id, opcode, key, toApp, ask) => B.Message(id, opcode, key, toApp, RequestOf(ask))
    case PipeOfDeath => B.Shutdown
  }

  function EventsOf(input: seq<Incoming>): (evs: seq<B.Event>)
    ensures |evs| == |input|
  {
    if input == [] then [] else [EventOf(input[0])] + EventsOf(input[1..])
  }

  class DCOPServer {
    var clients: map<IceConn, DCOPConnection>
    var appIds: map<string, DCOPConnection>
    var currentClientNumber: int
    var serverKey: CARD32
    const suicide: bool
    var shutdown: bool
    var timerActive: bool
    const dcopSignals: S.DCOPSignals
    /** Everything put on the wire so far. */
    var sent: seq<B.Sent>

    ghost predicate Keyed()
      reads this`clients
    {
      forall id | id in clients :: clients[id].iceConn == id
    }

    ghost function Clients(): B.Clients
      reads this`clients, (clients.Values)`appId, (clients.Values)`daemon, (clients.Values)`notifyRegister
      reads (clients.Values)`waitingOnReply
      reads (clients.Values)`waitingForReply, (clients.Values)`waitingForDelayedReply
    {
      map id | id in clients :: clients[id].View()
    }

    ghost function AppIds(): map<string, IceConn>
      reads this`appIds
    {
      map n | n in appIds :: appIds[n].iceConn
    }

    /** The server as a value. */
    ghost function View(): B.Server
      reads this, (clients.Values)`appId, (clients.Values)`daemon, (clients.Values)`notifyRegister
      reads (clients.Values)`waitingOnReply
      reads (clients.Values)`waitingForReply, (clients.Values)`waitingForDelayedReply
    {
      B.Server(Clients(), AppIds(), currentClientNumber, serverKey, suicide, shutdown, timerActive)
    }

    ghost predicate Linked()
      reads this`clients, this`appIds
    {
      Keyed() && forall n | n in appIds :: appIds[n] in clients.Values
    }

    ghost predicate Valid()
      reads this, clients.Values, dcopSignals
    {
      && Linked()
      && B.ValidNames(View())
      && dcopSignals.Valid(clients.Values)
    }

    constructor (suicide: bool)
      ensures Valid() && View() == B.Initial(suicide) && sent == [] && fresh(dcopSignals)
    {
      clients, appIds := map[], map[];
      currentClientNumber, serverKey := 0, B.FIRST_KEY;
      this.suicide := suicide;
      shutdown, timerActive := false, false;
      sent := [];
      dcopSignals := new S.DCOPSignals();
    }

    // ------------------------------------------------------ changing one list

    method SetWaitingOnReply(c: DCOPConnection, list: seq<IceConn>)
      requires Keyed() && c in clients.Values
      modifies c`waitingOnReply
      ensures c.waitingOnReply == list
      ensures View() == old(View()).(clients := old(Clients())[c.iceConn := old(c.View()).(waitingOnReply := list)])
    {
      c.waitingOnReply := list;
    }

    method SetWaitingForReply(c: DCOPConnection, list: seq<IceConn>)
      requires Keyed() && c in clients.Values
      modifies c`waitingForReply
      ensures c.waitingForReply == list
      ensures View() == old(View()).(clients := old(Clients())[c.iceConn := old(c.View()).(waitingForReply := list)])
    {
      c.waitingForReply := list;
    }

    method SetWaitingForDelayedReply(c: DCOPConnection, list: seq<IceConn>)
      requires Keyed() && c in clients.Values
      modifies c`waitingForDelayedReply
      ensures c.waitingForDelayedReply == list
      ensures View()
           == old(View()).(clients := old(Clients())[c.iceConn := old(c.View()).(waitingForDelayedReply := list)])
    {
      c.waitingForDelayedReply := list;
    }

    method SetAppId(c: DCOPConnection, appId: string)
      requires Keyed() && c in clients.Values
      modifies c`appId
      ensures c.appId == Some(appId)
      ensures View() == Named(old(View()), c.iceConn, appId)
    {
      c.appId := Some(appId);
    }

    method SetDaemon(c: DCOPConnection, daemon: bool)
      requires Keyed() && c in clients.Values
      modifies c`daemon
      ensures c.daemon == daemon
      ensures View() == old(View()).(clients := old(Clients())[c.iceConn := old(c.View()).(daemon := daemon)])
    {
      c.daemon := daemon;
    }

    method SetNotifyRegister(c: DCOPConnection, n: nat)
      requires Keyed() && c in clients.Values
      modifies c`notifyRegister
      ensures c.notifyRegister == n
      ensures View() == old(View()).(clients := old(Clients())[c.iceConn := old(c.View()).(notifyRegister := n)])
    {
      c.notifyRegister := n;
    }

    // -------------------------------------------------- messages to many clients

    lemma ListeningIs(but: IceConn)
      ensures ListeningIn(clients, clients.Keys, but) == B.Listeners(Clients(), but)
    {
    }

    /** broadcastApplicationRegistration: a notice for all who asked for it but `conn`. */
    method BroadcastRegistration(conn: DCOPConnection) returns (ghost notices: seq<B.Sent>)
      requires Keyed() && (conn.iceConn in clients ==> clients[conn.iceConn] == conn)
      modifies this`sent
      ensures sent == old(sent) + notices
      ensures multiset(notices) == Each(B.Listeners(Clients(), conn.iceConn), 1, None)
    {
      var messages := NoticesAbout(clients, conn);
      ListeningIs(conn.iceConn);
      sent, notices := sent + messages, messages;
    }

    lemma MatchingIs(toApp: string)
      requires B.IsPattern(toApp)
      ensures MatchingIn(appIds, appIds.Keys, toApp) == B.Matching(AppIds(), toApp)
    {
      forall id | id in MatchingIn(appIds, appIds.Keys, toApp) ensures id in B.Matching(AppIds(), toApp) {
        var n :| n in appIds && toApp[..|toApp| - 1] <= n && appIds[n].iceConn == id;
        assert AppIds()[n] == id;
      }
      forall id | id in B.Matching(AppIds(), toApp) ensures id in MatchingIn(appIds, appIds.Keys, toApp) {
        var n :| n in AppIds() && toApp[..|toApp| - 1] <= n && AppIds()[n] == id;
        assert n in appIds.Keys;
      }
    }

    lemma NamesDiffer()
      requires Linked() && B.ValidNames(View())
      ensures OneNameEach(appIds)
    {
      forall n, m | n in appIds && m in appIds && appIds[n].iceConn == appIds[m].iceConn ensures n == m {
        assert View().clients[View().appIds[n]].appId == Some(n) && View().clients[View().appIds[m]].appId == Some(m);
      }
    }

    /** A message to a pattern goes to all clients whose names begin like it. */
    method Multicast(id: IceConn, key: CARD32, toApp: string) returns (ghost cast: seq<B.Sent>)
      requires Linked() && B.ValidNames(View()) && B.IsPattern(toApp)
      modifies this`sent
      ensures sent == old(sent) + cast
      ensures multiset(cast) == Each(B.Matching(AppIds(), toApp), key, Some(id))
    {
      NamesDiffer();
      var messages := ForMatching(appIds, toApp, key, id);
      MatchingIs(toApp);
      sent, cast := sent + messages, messages;
    }

    // ---------------------------------------------------------- the handlers

    /** A new object in the table of connections. */
    method Add(con: DCOPConnection)
      requires con.iceConn !in clients && con.signalConnectionList == Empty()
      requires dcopSignals.Valid(clients.Values) && con !in clients.Values
      modifies this`clients
      ensures clients == old(clients)[con.iceConn := con] && clients.Values == old(clients.Values) + {con}
      ensures View() == old(View()).(clients := old(Clients())[con.iceConn := con.View()])
      ensures dcopSignals.Valid(clients.Values)
    {
      ghost var lists := S.ListsOf(clients.Values);
      clients := clients[con.iceConn := con];
      ValuesWith(old(clients), con.iceConn, con);
      assert S.ListsOf(clients.Values) == lists[con := []];
      S.ConsistentWith(dcopSignals.Table(), lists, con);
    }

    method WatchConnection(iceConn: IceConn) returns (con: DCOPConnection)
      requires Valid() && iceConn !in clients
      modifies this
      ensures Valid() && fresh(con) && clients == old(clients)[iceConn := con]
      ensures clients.Values == old(clients.Values) + {con}
      ensures View() == B.Step(old(View()), B.Connect(iceConn)).server && sent == old(sent)
    {
      con := new DCOPConnection(iceConn);
      R.ConnectKeepsNames(View(), iceConn);
      Add(con);
    }

    /** What a message to another client does to the waiting lists. */
    method Route(conn: DCOPConnection, opcode: Opcode, target: DCOPConnection)
      requires Keyed() && conn in clients.Values && target in clients.Values
      modifies conn`waitingOnReply, conn`waitingForReply, conn`waitingForDelayedReply
      modifies target`waitingOnReply, target`waitingForReply
      ensures Clients() == B.Route(old(Clients()), conn.iceConn, opcode, target.iceConn)
    {
      match opcode
      case Send =>
      case ReplyDelayed =>
        if target.iceConn in conn.waitingForDelayedReply {
          SetWaitingForDelayedReply(conn, RemoveRef(conn.waitingForDelayedReply, target.iceConn));
          SetWaitingOnReply(target, RemoveRef(target.waitingOnReply, conn.iceConn));
        }
      case Call | Find =>
        SetWaitingForReply(target, target.waitingForReply + [conn.iceConn]);
        SetWaitingOnReply(conn, conn.waitingOnReply + [target.iceConn]);
      case ReplyWait =>
        SetWaitingForReply(conn, RemoveRef(conn.waitingForReply, target.iceConn));
        SetWaitingForDelayedReply(conn, conn.waitingForDelayedReply + [target.iceConn]);
      case Reply | ReplyFailed =>
        SetWaitingForReply(conn, RemoveRef(conn.waitingForReply, target.iceConn));
        SetWaitingOnReply(target, RemoveRef(target.waitingOnReply, conn.iceConn));
    }

    /** Taking the entry of a client out of the table of names. */
    method ReleaseName(conn: DCOPConnection)
      requires Linked() && conn in clients.Values
      modifies this`appIds
      ensures Linked() && View() == old(View()).(appIds := B.ReleaseName(old(AppIds()), conn.appId, conn.iceConn))
    {
      if conn.appId.Some? && conn.appId.value in appIds && appIds[conn.appId.value] == conn {
        appIds := appIds - {conn.appId.value};
      }
    }

    /** Counting clients; with one more, planning to terminate is over. */
    method CountBy(n: int)
      modifies this`currentClientNumber, this`timerActive
      ensures View() == old(View()).(currentClientNumber := old(currentClientNumber) + n,
                                     timerActive := old(timerActive) && n < 0)
    {
      currentClientNumber := currentClientNumber + n;
      timerActive := timerActive && n < 0;
    }

    /** A client that had no name yet counts from now on. */
    method CountIn(conn: DCOPConnection)
      modifies this`currentClientNumber, this`timerActive
      ensures View() == if conn.appId.Some? then old(View())
                        else old(View()).(currentClientNumber := old(currentClientNumber) + 1, timerActive := false)
    {
      if conn.appId.None? {
        CountBy(1);
      }
    }

    /** What is done before a client gets a name. */
    method Prepare(conn: DCOPConnection)
      requires Linked() && conn in clients.Values
      modifies this`appIds, this`currentClientNumber, this`timerActive
      ensures Linked() && View() == Prepared(old(View()), conn.iceConn)
    {
      ReleaseName(conn);
      CountIn(conn);
    }

    method Enter(conn: DCOPConnection, name: string)
      requires Linked() && conn in clients.Values
      modifies this`appIds
      ensures Linked() && View() == old(View()).(appIds := old(AppIds())[name := conn.iceConn])
    {
      appIds := appIds[name := conn];
    }

    method Name(conn: DCOPConnection, name: string)
      requires Linked() && conn in clients.Values
      modifies this`appIds, conn`appId
      ensures Linked() && conn.appId == Some(name) && View() == Entered(old(View()), conn.iceConn, name)
    {
      SetAppId(conn, name);
      Enter(conn, name);
    }

    method FreeName(app: string) returns (name: string)
      ensures name == UniqueName(AppIds().Keys, app)
    {
      assert appIds.Keys == AppIds().Keys;
      name := ChooseName(appIds.Keys, app);
    }

    /** Finding a free name for a client and entering it in the table. */
    method EnterName(conn: DCOPConnection, app: string)
      requires Linked() && conn in clients.Values
      modifies this`appIds, conn`appId, conn`plainAppId
      ensures Linked() && conn.appId == Some(UniqueName(old(AppIds()).Keys, app))
      ensures conn.plainAppId == PlainName(conn.appId.value)
      ensures View() == Entered(old(View()), conn.iceConn, conn.appId.value)
    {
      var name := FreeName(app);
      Name(conn, name);
      SetPlainName(conn, name);
    }

    method SetPlainName(conn: DCOPConnection, name: string)
      modifies conn`plainAppId
      ensures conn.plainAppId == PlainName(name) && View() == old(View())
    {
      var c := IndexOf(name, '-');
      conn.plainAppId := if 0 < c < |name| then name[..c] else name;
    }

    /** The part of registerAs that deals with the tables. */
    method Rename(conn: DCOPConnection, app: string)
      requires Linked() && conn in clients.Values && app != ""
      modifies this`appIds, this`currentClientNumber, this`timerActive, conn`appId, conn`plainAppId
      ensures Linked() && View() == B.Register(old(View()), conn.iceConn, app)
      ensures conn.appId.Some? && conn.plainAppId == PlainName(conn.appId.value)
    {
      RegisterIs(View(), conn.iceConn, app);
      Prepare(conn);
      EnterName(conn, app);
    }

    method RegisterNamed(conn: DCOPConnection, app: string) returns (ghost notices: seq<B.Sent>)
      requires Linked() && conn in clients.Values && app != ""
      modifies this`appIds, this`currentClientNumber, this`timerActive, this`sent, conn`appId, conn`plainAppId
      ensures Linked() && View() == B.Register(old(View()), conn.iceConn, app) && sent == old(sent) + notices
      ensures multiset(notices) == Each(B.Listeners(old(Clients()), conn.iceConn), 1, None)
      ensures conn.appId.Some? && conn.plainAppId == PlainName(conn.appId.value)
    {
      RegisterKeepsListeners(View(), conn.iceConn, app);
      Rename(conn, app);
      notices := BroadcastRegistration(conn);
    }

    /** registerAs. */
    method RegisterAs(conn: DCOPConnection, app: string) returns (ghost notices: seq<B.Sent>)
      requires Linked() && conn in clients.Values
      modifies this`appIds, this`currentClientNumber, this`timerActive, this`sent, conn`appId, conn`plainAppId
      ensures Linked() && View() == B.Register(old(View()), conn.iceConn, app) && sent == old(sent) + notices
      ensures multiset(notices) == Each(NoticedOf(old(View()), conn.iceConn, B.RegisterAs(app)), 1, None)
      ensures if app == "" then conn.plainAppId == old(conn.plainAppId)
              else conn.appId.Some? && conn.plainAppId == PlainName(conn.appId.value)
    {
      notices := [];
      if app != "" {
        notices := RegisterNamed(conn, app);
      }
    }

    method BecomeDaemon(conn: DCOPConnection)
      requires Linked() && conn in clients.Values && conn.appId.Some? && !conn.daemon
      modifies this`currentClientNumber, this`timerActive, conn`daemon
      ensures Linked() && View() == B.SetDaemon(old(View()), conn.iceConn, true)
    {
      SetDaemon(conn, true);
      CountBy(-1);
    }

    method BecomeApplication(conn: DCOPConnection)
      requires Linked() && conn in clients.Values && conn.appId.Some? && conn.daemon
      modifies this`currentClientNumber, this`timerActive, conn`daemon
      ensures Linked() && View() == B.SetDaemon(old(View()), conn.iceConn, false)
    {
      SetDaemon(conn, false);
      CountBy(1);
    }

    /** setDaemonMode. */
    method SetDaemonMode(conn: DCOPConnection, on: bool)
      requires Linked() && conn in clients.Values
      modifies this`currentClientNumber, this`timerActive, conn`daemon
      ensures Linked() && View() == B.SetDaemon(old(View()), conn.iceConn, on)
    {
      if conn.appId.Some? {
        if on {
          if !conn.daemon {
            BecomeDaemon(conn);
          }
        } else if conn.daemon {
          BecomeApplication(conn);
        }
      }
    }

    /** setNotifications. */
    method SetNotifications(conn: DCOPConnection, on: bool)
      requires Linked() && conn in clients.Values
      modifies conn`notifyRegister
      ensures Linked() && View() == B.SetNotify(old(View()), conn.iceConn, on)
    {
      if on {
        SetNotifyRegister(conn, conn.notifyRegister + 1);
      } else if conn.notifyRegister > 0 {
        SetNotifyRegister(conn, conn.notifyRegister - 1);
      }
    }

    /** The server's answer to a call it serves itself. */
    method Answer(iceConn: IceConn, key: CARD32, ok: bool)
      modifies this`sent, this`serverKey
      ensures sent == old(sent) + B.AnswerSelf(old(View()), iceConn, key, ok).sent
      ensures View() == B.AnswerSelf(old(View()), iceConn, key, ok).server
    {
      var answer := if ok then Reply else ReplyFailed;
      if key != 0 {
        sent := sent + [B.Sent(iceConn, answer, key, None)];
      } else {
        sent := sent + [B.Sent(iceConn, answer, serverKey, None)];
        serverKey := (serverKey + 1) % CARD32_SIZE;
      }
    }

    /** receive, for the requests that change the router's own tables. */
    method Receive(conn: DCOPConnection, request: B.Request) returns (ok: bool, ghost notices: seq<B.Sent>)
      requires Linked() && conn in clients.Values
      modifies this`appIds, this`currentClientNumber, this`timerActive, this`sent
      modifies conn`appId, conn`plainAppId, conn`daemon, conn`notifyRegister
      ensures Linked() && sent == old(sent) + notices
      ensures (View(), ok) == B.Receive(old(View()), conn.iceConn, request)
      ensures multiset(notices) == Each(NoticedOf(old(View()), conn.iceConn, request), 1, None)
    {
      ok, notices := true, [];
      match request
      case RegisterAs(app) =>
        notices := RegisterAs(conn, app);
      case SetDaemonMode(on) =>
        SetDaemonMode(conn, on);
      case SetNotifications(on) =>
        SetNotifications(conn, on);
      case ConnectSignal(_) =>
      case Other(understood) =>
        ok := understood;
    }

    /** A call that cannot be passed on. */
    method CallWithoutTarget(conn: DCOPConnection, key: CARD32, toApp: string, request: B.Request)
      returns (ghost cast: seq<B.Sent>)
      requires Linked() && conn in clients.Values && toApp !in appIds
      modifies this`appIds, this`currentClientNumber, this`timerActive
      modifies conn`appId, conn`plainAppId, conn`daemon, conn`notifyRegister
      modifies this`sent, this`serverKey
      ensures Linked()
      ensures var r := B.WithoutTarget(old(View()), conn.iceConn, Call, key, toApp, request);
              View() == r.server && sent == old(sent) + cast + r.sent
      ensures multiset(cast) == Casting(old(View()), B.Message(conn.iceConn, Call, key, toApp, request))
    {
      CastingIs(View(), conn.iceConn, Call, key, toApp, request);
      var ok := false;
      cast := [];
      if toApp == "DCOPServer" {
        ok, cast := Receive(conn, request);
      }
      Answer(conn.iceConn, key, ok);
    }

    /** A message without an answer that cannot be passed on. */
    method SendWithoutTarget(conn: DCOPConnection, opcode: Opcode, key: CARD32, toApp: string, request: B.Request)
      returns (ghost cast: seq<B.Sent>)
      requires Linked() && B.ValidNames(View()) && conn in clients.Values && toApp !in appIds
      requires opcode == Send || opcode == ReplyDelayed
      modifies this`appIds, this`currentClientNumber, this`timerActive, this`sent
      modifies conn`appId, conn`plainAppId, conn`daemon, conn`notifyRegister
      ensures Linked() && sent == old(sent) + cast
      ensures View() == B.WithoutTarget(old(View()), conn.iceConn, opcode, key, toApp, request).server
      ensures multiset(cast) == Casting(old(View()), B.Message(conn.iceConn, opcode, key, toApp, request))
    {
      CastingIs(View(), conn.iceConn, opcode, key, toApp, request);
      cast := [];
      if toApp == "DCOPServer" {
        var _, notices := Receive(conn, request);
        cast := notices;
      } else if B.IsPattern(toApp) {
        cast := Multicast(conn.iceConn, key, toApp);
      }
    }

    method MessageWithoutTarget(conn: DCOPConnection, opcode: Opcode, key: CARD32, toApp: string, request: B.Request)
      returns (ghost cast: seq<B.Sent>)
      requires Linked() && B.ValidNames(View()) && conn in clients.Values && toApp !in appIds
      modifies this`appIds, this`currentClientNumber, this`timerActive
      modifies conn`appId, conn`plainAppId, conn`daemon, conn`notifyRegister
      modifies this`sent, this`serverKey
      ensures Linked()
      ensures var r := B.WithoutTarget(old(View()), conn.iceConn, opcode, key, toApp, request);
              View() == r.server && sent == old(sent) + cast + r.sent
      ensures multiset(cast) == Casting(old(View()), B.Message(conn.iceConn, opcode, key, toApp, request))
    {
      cast := [];
      NothingCast(View(), conn.iceConn, opcode, key, toApp, request);
      match opcode
      case Call => cast := CallWithoutTarget(conn, key, toApp, request);
      case Find => Answer(conn.iceConn, key, false);
      case Send | ReplyDelayed => cast := SendWithoutTarget(conn, opcode, key, toApp, request);
      case Reply | ReplyFailed | ReplyWait =>
    }

    method MessageToTarget(conn: DCOPConnection, opcode: Opcode, key: CARD32, target: DCOPConnection)
      requires Linked() && conn in clients.Values && target in clients.Values
      modifies conn`waitingOnReply, conn`waitingForReply, conn`waitingForDelayedReply
      modifies target`waitingOnReply, target`waitingForReply, this`sent
      ensures View() == old(View()).(clients := B.Route(old(Clients()), conn.iceConn, opcode, target.iceConn))
      ensures sent == old(sent) + [B.Sent(target.iceConn, opcode, key, Some(conn.iceConn))]
    {
      Route(conn, opcode, target);
      sent := sent + [B.Sent(target.iceConn, opcode, key, Some(conn.iceConn))];
    }

    /** processMessage, whatever the signal table holds. */
    method RouteMessage(iceConn: IceConn, opcode: Opcode, key: CARD32, toApp: string, request: B.Request)
      returns (ghost cast: seq<B.Sent>)
      requires Linked() && B.ValidNames(View())
      modifies this`appIds, this`currentClientNumber, this`timerActive, this`sent, this`serverKey
      modifies (clients.Values)`appId, (clients.Values)`plainAppId, (clients.Values)`daemon
      modifies (clients.Values)`notifyRegister, (clients.Values)`waitingOnReply
      modifies (clients.Values)`waitingForReply, (clients.Values)`waitingForDelayedReply
      ensures Linked()
      ensures var r := B.ProcessMessage(old(View()), iceConn, opcode, key, toApp, request);
              View() == r.server && sent == old(sent) + cast + r.sent
      ensures multiset(cast) == Casting(old(View()), B.Message(iceConn, opcode, key, toApp, request))
    {
      cast := [];
      if iceConn in clients {
        var conn := clients[iceConn];
        assert conn in clients.Values;
        if toApp in appIds {
          MessageToTarget(conn, opcode, key, appIds[toApp]);
        } else {
          cast := MessageWithoutTarget(conn, opcode, key, toApp, request);
        }
      }
    }

    /** A message that changes nothing but the router. */
    method ProcessRouted(iceConn: IceConn, opcode: Opcode, key: CARD32, toApp: string, request: B.Request)
      returns (ghost cast: seq<B.Sent>)
      requires Valid()
      modifies this`appIds, this`currentClientNumber, this`timerActive, this`sent, this`serverKey
      modifies (clients.Values)`appId, (clients.Values)`plainAppId, (clients.Values)`daemon
      modifies (clients.Values)`notifyRegister, (clients.Values)`waitingOnReply
      modifies (clients.Values)`waitingForReply, (clients.Values)`waitingForDelayedReply
      ensures Valid()
      ensures var r := B.ProcessMessage(old(View()), iceConn, opcode, key, toApp, request);
              View() == r.server && sent == old(sent) + cast + r.sent
      ensures multiset(cast) == Casting(old(View()), B.Message(iceConn, opcode, key, toApp, request))
      ensures dcopSignals.Table() == old(dcopSignals.Table()) && Lists() == old(Lists()) && clients == old(clients)
    {
      R.MessageKeepsNames(View(), iceConn, opcode, key, toApp, request);
      cast := RouteMessage(iceConn, opcode, key, toApp, request);
    }

    // --------------------------------------------------- closing a connection

    /** Telling one caller that its call failed. */
    method AbortCall(dead: IceConn, iceConn: IceConn)
      requires Keyed()
      modifies this`sent, (clients.Values)`waitingOnReply
      ensures sent == old(sent) + [B.Sent(iceConn, ReplyFailed, 1, Some(dead))]
      ensures var cl := old(Clients());
              Clients() == if iceConn in cl then
                             cl[iceConn := cl[iceConn].(waitingOnReply := RemoveRef(cl[iceConn].waitingOnReply, dead))]
                           else cl
    {
      sent := sent + [B.Sent(iceConn, ReplyFailed, 1, Some(dead))];
      if iceConn in clients {
        var target := clients[iceConn];
        SetWaitingOnReply(target, RemoveRef(target.waitingOnReply, dead));
      }
    }

    /** Telling all in `callers`, one after the other, that their call failed. */
    method AbortCalls(dead: IceConn, callers: seq<IceConn>)
      requires Keyed()
      modifies this`sent, (clients.Values)`waitingOnReply
      ensures Clients() == B.AbortCalls(old(Clients()), dead, callers).0
      ensures sent == old(sent) + B.AbortCalls(old(Clients()), dead, callers).1
    {
      ghost var all := B.AbortCalls(Clients(), dead, callers);
      var waiting := callers;
      while waiting != []
        invariant B.AbortCalls(Clients(), dead, waiting).0 == all.0
        invariant sent + B.AbortCalls(Clients(), dead, waiting).1 == old(sent) + all.1
        decreases |waiting|
      {
        AbortCall(dead, waiting[0]);
        waiting := waiting[1..];
      }
    }

    /** Letting all in `called` forget their caller. */
    method ForgetCalls(dead: IceConn, called: seq<IceConn>)
      requires Keyed()
      modifies (clients.Values)`waitingForReply, (clients.Values)`waitingForDelayedReply
      ensures Clients() == B.ForgetCalls(old(Clients()), dead, called)
    {
      var waiting := called;
      while waiting != []
        invariant B.ForgetCalls(Clients(), dead, waiting) == B.ForgetCalls(old(Clients()), dead, called)
        decreases |waiting|
      {
        var iceConn := waiting[0];
        waiting := waiting[1..];
        if iceConn in clients {
          var target := clients[iceConn];
          if dead in target.waitingForReply {
            SetWaitingForReply(target, RemoveRef(target.waitingForReply, dead));
          } else {
            SetWaitingForDelayedReply(target, RemoveRef(target.waitingForDelayedReply, dead));
          }
        }
      }
    }

    /** A name that nobody has any more. */
    method ForgetName(conn: DCOPConnection)
      requires Keyed() && forall n | n in appIds && conn.appId != Some(n) :: appIds[n] in clients.Values
      requires conn.appId.Some?
      modifies this`appIds, this`currentClientNumber
      ensures Linked() && View() == B.StrikeOff(old(View()), conn.View())
    {
      if !conn.daemon {
        currentClientNumber := currentClientNumber - 1;
      }
      appIds := appIds - {conn.appId.value};
      assert AppIds() == old(AppIds()) - {conn.appId.value};
    }

    /** Is any client registered? */
    method NoneRegistered() returns (none: bool)
      ensures none <==> AppIds() == map[]
    {
      none := appIds == map[];
      assert AppIds().Keys == appIds.Keys;
      assert appIds.Keys == {} <==> appIds == map[];
      assert AppIds().Keys == {} <==> AppIds() == map[];
    }

    /** Taking a client that has been closed out of the table of names, and telling those
        who asked for notices. */
    method StrikeOff(conn: DCOPConnection) returns (ghost notices: seq<B.Sent>)
      requires Keyed() && forall n | n in appIds && conn.appId != Some(n) :: appIds[n] in clients.Values
      requires conn.iceConn !in clients
      modifies this`appIds, this`currentClientNumber, this`sent
      ensures Linked() && View() == B.StrikeOff(old(View()), conn.View()) && sent == old(sent) + notices
      ensures multiset(notices) ==
              Each(if conn.appId.Some? then B.Listeners(old(Clients()), conn.iceConn) else {}, 1, None)
    {
      notices := [];
      if conn.appId.Some? {
        ForgetName(conn);
        notices := BroadcastRegistration(conn);
      }
    }

    /** Arming the termination timer if nothing is left to wait for. */
    method ArmTimer()
      modifies this`timerActive
      ensures View() == B.Armed(old(View()))
    {
      if suicide && currentClientNumber == 0 {
        timerActive := true;
      }
      var none := NoneRegistered();
      if shutdown && none {
        timerActive := true;
      }
    }

    /** Taking an object out of the table of connections. */
    method Remove(conn: DCOPConnection)
      requires Keyed() && conn in clients.Values
      modifies this`clients
      ensures Keyed() && clients == old(clients) - {conn.iceConn} && clients.Values == old(clients.Values) - {conn}
      ensures View() == old(View()).(clients := old(Clients()) - {conn.iceConn})
    {
      ValuesWithout(clients, conn.iceConn);
      clients := clients - {conn.iceConn};
    }

    /** The three draining loops. */
    method CloseCalls(dead: IceConn, callers: seq<IceConn>, delayed: seq<IceConn>, called: seq<IceConn>)
      requires Keyed()
      modifies this`sent, (clients.Values)`waitingOnReply, (clients.Values)`waitingForReply
      modifies (clients.Values)`waitingForDelayedReply
      ensures var once := B.AbortCalls(old(Clients()), dead, callers);
              var twice := B.AbortCalls(once.0, dead, delayed);
              Clients() == B.ForgetCalls(twice.0, dead, called) && sent == old(sent) + (once.1 + twice.1)
    {
      AbortCalls(dead, callers);
      AbortCalls(dead, delayed);
      ForgetCalls(dead, called);
    }

    /** Closing the calls of a client on either side. */
    method DropCalls(conn: DCOPConnection)
      requires Keyed() && conn in clients.Values
      modifies this`clients, this`sent, (clients.Values)`waitingOnReply, (clients.Values)`waitingForReply
      modifies (clients.Values)`waitingForDelayedReply
      ensures Keyed() && clients == old(clients) - {conn.iceConn}
      ensures var r := B.DropPending(old(Clients()) - {conn.iceConn}, conn.iceConn, old(conn.View()));
              View() == old(View()).(clients := r.0) && sent == old(sent) + r.1
    {
      var id := conn.iceConn;
      Remove(conn);
      CloseCalls(id, conn.waitingForReply, conn.waitingForDelayedReply, conn.waitingOnReply);
    }

    /** Only its own entry in the table of names refers to a client. */
    lemma NamesOf(conn: DCOPConnection)
      requires Linked() && B.ValidNames(View()) && conn in clients.Values
      ensures forall n | n in appIds && conn.appId != Some(n) :: appIds[n] in (clients - {conn.iceConn}).Values
    {
      ValuesWithout(clients, conn.iceConn);
      forall n | n in appIds && appIds[n] == conn ensures conn.appId == Some(n) {
        assert View().clients[View().appIds[n]].appId == Some(n);
      }
    }

    /** What is left to do for a client that has been closed. */
    method Unregister(conn: DCOPConnection) returns (ghost notices: seq<B.Sent>)
      requires Keyed() && forall n | n in appIds && conn.appId != Some(n) :: appIds[n] in clients.Values
      requires conn.iceConn !in clients
      modifies this`appIds, this`currentClientNumber, this`timerActive, this`sent
      ensures Linked() && View() == B.Armed(B.StrikeOff(old(View()), conn.View())) && sent == old(sent) + notices
      ensures multiset(notices) ==
              Each(if conn.appId.Some? then B.Listeners(old(Clients()), conn.iceConn) else {}, 1, None)
    {
      notices := StrikeOff(conn);
      ArmTimer();
    }

    /** The part of removeConnection that deals with calls and names. */
    method DropConnection(conn: DCOPConnection) returns (ghost notices: seq<B.Sent>)
      requires Linked() && B.ValidNames(View()) && conn in clients.Values
      modifies this`clients, this`sent, this`appIds, this`currentClientNumber, this`timerActive
      modifies (clients.Values)`waitingOnReply, (clients.Values)`waitingForReply
      modifies (clients.Values)`waitingForDelayedReply
      ensures Linked() && clients == old(clients) - {conn.iceConn}
      ensures var r := B.RemoveConnection(old(View()), conn.iceConn);
              View() == r.server && sent == old(sent) + r.sent + notices
      ensures multiset(notices) == Casting(old(View()), B.Disconnect(conn.iceConn))
    {
      NamesOf(conn);
      DropCalls(conn);
      DroppingKeepsListeners(old(Clients()), conn.iceConn);
      notices := Unregister(conn);
      RemovalIs(old(View()), conn.iceConn, conn.View());
    }

    /** removeConnection. */
    method RemoveConnection(conn: DCOPConnection) returns (ghost notices: seq<B.Sent>)
      requires Valid() && conn in clients.Values
      modifies this, clients.Values, dcopSignals
      ensures Valid() && clients == old(clients) - {conn.iceConn} && clients.Values <= old(clients.Values)
      ensures var r := B.RemoveConnection(old(View()), conn.iceConn);
              View() == r.server && sent == old(sent) + r.sent + notices
      ensures multiset(notices) == Casting(old(View()), B.Disconnect(conn.iceConn))
      ensures S.LostOnly(old(dcopSignals.Table()), conn, dcopSignals.Table())
    {
      RemoveSignals(conn);
      R.RemovalKeepsNames(View(), conn.iceConn);
      notices := DropConnection(conn);
      ValuesWithout(old(clients), conn.iceConn);
    }

    /** Forgetting all signal connections of a client that is being closed. */
    method RemoveSignals(conn: DCOPConnection)
      requires Keyed() && conn in clients.Values && dcopSignals.Valid(clients.Values)
      modifies dcopSignals, (clients.Values)`signalConnectionList
      ensures dcopSignals.Valid((clients - {conn.iceConn}).Values) && View() == old(View())
      ensures S.LostOnly(old(dcopSignals.Table()), conn, dcopSignals.Table())
    {
      ghost var live := clients.Values;
      ghost var index, lists := dcopSignals.Table(), S.ListsOf(live);
      ghost var gone := dcopSignals.RemoveConnections(conn, "", live);
      assert gone == set c | c in lists[conn];
      S.PurgedOfClient(index, lists, conn, dcopSignals.Table(), S.ListsOf(live));
      ValuesWithout(clients, conn.iceConn);
      assert S.ListsOf(live - {conn}) == S.ListsOf(live) - {conn};
    }

    // ------------------------------------------------------------------ signals

    /** The request connectSignal of a client. */
    method ConnectSignal(conn: DCOPConnection, sender: string, senderObj: string, signal: string,
                         receiverObj: string, slot: string, volatileConn: bool)
      returns (ok: bool, ghost added: DCOPSignalConnection?)
      requires Valid() && conn in clients.Values
      modifies dcopSignals, (clients.Values)`signalConnectionList
      ensures Valid() && View() == old(View())
      ensures ok <==> A.HasArgs(signal) && A.HasArgs(slot) && A.Args(A.ArgsOf(slot)) <= A.Args(A.ArgsOf(signal))
                      && (volatileConn ==> sender in appIds)
      ensures ok <==> added != null
      ensures !ok ==> dcopSignals.Table() == old(dcopSignals.Table()) && Lists() == old(Lists())
      ensures ok ==>
                && fresh(added) && added.sender == sender && added.senderObj == senderObj && added.signal == signal
                && added.recvConn == conn && added.recvObj == receiverObj && added.slot == slot
                && added.senderConn == (if volatileConn then appIds[sender] else null)
                && S.Added(old(dcopSignals.Table()), old(Lists()), added, dcopSignals.Table(), Lists())
      ensures ok && volatileConn ==>
                forall d, fun | d in clients.Values && S.SignalName(fun) == signal
                                && (senderObj == "" || S.SenderObj(fun) == senderObj) ::
                  added in ReceiversOf(d, fun) <==> d == appIds[sender]
    {
      var found: DCOPConnection? := if sender in appIds then appIds[sender] else null;
      ghost var index, lists := dcopSignals.Table(), Lists();
      ok, added := dcopSignals.ConnectSignal(sender, senderObj, signal, conn, receiverObj, slot, volatileConn, found,
                                             clients.Values);
      if ok && volatileConn {
        HeardFromSender(index, lists, added);
      }
    }

    /** A volatile connection that has just been made hears its sender and nobody else. */
    lemma HeardFromSender(index: S.Index, lists: S.Lists, added: DCOPSignalConnection)
      requires S.Added(index, lists, added, dcopSignals.Table(), Lists()) && added.senderConn != null
      ensures forall d, fun | S.SignalName(fun) == added.signal
                              && (added.senderObj == "" || S.SenderObj(fun) == added.senderObj) ::
                added in ReceiversOf(d, fun) <==> d == added.senderConn
    {
      forall d: DCOPConnection?, fun
        | S.SignalName(fun) == added.signal && (added.senderObj == "" || S.SenderObj(fun) == added.senderObj)
        ensures added in ReceiversOf(d, fun) <==> d == added.senderConn
      {
        SL.VolatileIsServed(S.At(dcopSignals.Table(), added.signal), d, if d != null then d.appId else None,
                            S.SenderObj(fun), added);
      }
    }

    ghost function Lists(): S.Lists
      reads this`clients, (clients.Values)`signalConnectionList
    {
      S.ListsOf(clients.Values)
    }

    /** The request disconnectSignal of a client. */
    method DisconnectSignal(conn: DCOPConnection, sender: string, senderObj: string, signal: string,
                            receiverObj: string, slot: string)
      returns (result: bool, ghost gone: set<DCOPSignalConnection>)
      requires Valid() && conn in clients.Values
      modifies dcopSignals, (clients.Values)`signalConnectionList
      ensures Valid() && View() == old(View())
      ensures S.Purged(old(dcopSignals.Table()), old(Lists()), gone, dcopSignals.Table(), Lists())
      ensures forall c | c in gone :: S.Involves(c, conn)
      ensures gone == old(Unwanted(conn, sender, senderObj, signal, receiverObj, slot))
      ensures result <==> gone != {} || (sender == "" && signal == "")
    {
      ghost var index, lists := dcopSignals.Table(), S.ListsOf(clients.Values);
      result, gone := dcopSignals.DisconnectSignal(sender, senderObj, signal, conn, receiverObj, slot, clients.Values);
      forall c | c in gone && c in lists[conn] ensures S.Involves(c, conn) {
        S.OwnIsFiled(index, lists, conn, c);
      }
    }

    /** The connections that a request to disconnect is about. */
    ghost function Unwanted(conn: DCOPConnection, sender: string, senderObj: string, signal: string,
                            receiverObj: string, slot: string): set<DCOPSignalConnection>
      reads this`clients, dcopSignals, (clients.Values)`appId, conn`signalConnectionList
    {
      if sender == "" && signal == "" then S.RelatedOf(conn.signalConnectionList.items, conn, receiverObj)
      else S.Targets(S.At(dcopSignals.Table(), signal), S.NamesOf(clients.Values), sender, senderObj, conn, receiverObj,
                     slot)
    }

    /** The connection objects that get the signal `fun` of `conn`, or of the server itself. */
    ghost function ReceiversOf(conn: DCOPConnection?, fun: string): seq<DCOPSignalConnection>
      reads dcopSignals
      reads (if conn != null then {conn} else {})`appId
    {
      S.Receivers(S.At(dcopSignals.Table(), S.SignalName(fun)), conn, if conn != null then conn.appId else None,
                  S.SenderObj(fun), false)
    }

    /** A message to an open client with the key of a plain Send. */
    ghost predicate Signals(m: B.Sent)
      reads this`clients
    {
      m.to in clients && m.opcode == Send && m.key == 1 && m.from == None
    }

    /** The request emit of a client, or a signal of the server itself. */
    method Emit(conn: DCOPConnection?, fun: string)
      requires Valid()
      modifies this`sent
      ensures Valid() && View() == old(View())
      ensures sent == old(sent) + Signalling(ReceiversOf(conn, fun))
      ensures forall k | |old(sent)| <= k < |sent| :: Signals(sent[k])
    {
      var receivers := dcopSignals.EmitSignal(conn, fun, false);
      EmittedToOpen(conn, fun, receivers);
      SendMessages(receivers);
    }

    /** One sendMessage for each connection object that gets the signal. */
    method SendMessages(receivers: seq<DCOPSignalConnection>)
      modifies this`sent
      ensures sent == old(sent) + Signalling(receivers)
    {
      for k := 0 to |receivers|
        invariant sent + Signalling(receivers[k..]) == old(sent) + Signalling(receivers)
      {
        assert receivers[k..][1..] == receivers[k + 1..];
        sent := sent + [Signalled(receivers[k])];
      }
    }

    lemma EmittedToOpen(conn: DCOPConnection?, fun: string, receivers: seq<DCOPSignalConnection>)
      requires Valid()
      requires receivers == ReceiversOf(conn, fun)
      ensures forall k | 0 <= k < |Signalling(receivers)| :: Signals(Signalling(receivers)[k])
    {
      S.EmittedOnlyToOpen(dcopSignals.Table(), S.ListsOf(clients.Values), S.SignalName(fun), conn,
                          if conn != null then conn.appId else None, S.SenderObj(fun), false);
      forall k | 0 <= k < |Signalling(receivers)| ensures Signals(Signalling(receivers)[k]) {
        SignallingAt(receivers, k);
        assert receivers[k] in receivers;
      }
    }

    method BeginShutdown()
      requires Valid() && !shutdown
      modifies this`shutdown, this`timerActive
      ensures Valid() && View() == B.Step(old(View()), B.Shutdown).server && shutdown
    {
      shutdown, timerActive := true, true;
    }

    /** slotShutdown: all who listen to the server's own signal are told, and the program
        exits at once if no client is registered. */
    method SlotShutdown() returns (exits: bool)
      requires Valid()
      modifies this`shutdown, this`timerActive, this`sent
      ensures Valid() && View() == B.Step(old(View()), B.Shutdown).server
      ensures sent == old(sent) + (if old(shutdown) then [] else Signalling(ReceiversOf(null, TERMINATE)))
      ensures exits <==> !old(shutdown) && appIds == map[]
    {
      exits := false;
      if !shutdown {
        BeginShutdown();
        Emit(null, TERMINATE);
        exits := appIds == map[];
      }
    }

    // ------------------------------------------------------------ all messages

    /** What `receive` does for a request about signals. */
    method ReceiveSignals(conn: DCOPConnection, ask: Ask)
      returns (ghost added: DCOPSignalConnection?, ghost gone: set<DCOPSignalConnection>)
      requires Valid() && conn in clients.Values
      modifies dcopSignals, (clients.Values)`signalConnectionList, this`sent
      ensures Valid() && View() == old(View())
      ensures added != null <==> Granted(ask, appIds.Keys)
      ensures added != null ==> fresh(added) && Makes(added, ask, conn, FindApp(ask))
      ensures gone == if ask.Disconnection? then old(UnwantedBy(conn, ask)) else {}
      ensures S.Changed(old(dcopSignals.Table()), old(Lists()), added, gone, dcopSignals.Table(), Lists())
      ensures sent == old(sent) + (if ask.Emission? then Signalling(old(ReceiversOf(conn, ask.fun))) else [])
      ensures ask.Router? || ask.Emission? ==> dcopSignals.Table() == old(dcopSignals.Table())
    {
      added, gone := null, {};
      ghost var index, lists := dcopSignals.Table(), Lists();
      S.PurgeNothing(index, lists);
      match ask
      case Router(_) =>
      case Emission(fun) => Emit(conn, fun);
      case Connection(sender, senderObj, signal, receiverObj, slot, volatileConn) =>
        var ok;
        ok, added := ConnectSignal(conn, sender, senderObj, signal, receiverObj, slot, volatileConn);
      case Disconnection(sender, senderObj, signal, receiverObj, slot) =>
        var ok;
        ok, gone := DisconnectSignal(conn, sender, senderObj, signal, receiverObj, slot);
    }

    /** findApp, for the sender of a volatile connection. */
    ghost function FindApp(ask: Ask): DCOPConnection?
      reads this`appIds
    {
      if ask.Connection? && ask.volatileConn && ask.sender in appIds then appIds[ask.sender] else null
    }

    ghost function UnwantedBy(conn: DCOPConnection, ask: Ask): set<DCOPSignalConnection>
      requires ask.Disconnection?
      reads this`clients, dcopSignals, (clients.Values)`appId, conn`signalConnectionList
    {
      Unwanted(conn, ask.sender, ask.senderObj, ask.signal, ask.receiverObj, ask.slot)
    }

    /** What a message makes the server send to those who listen to a signal. */
    ghost function Emitted(iceConn: IceConn, opcode: Opcode, toApp: string, ask: Ask): seq<B.Sent>
      reads this, clients.Values, dcopSignals
    {
      if iceConn in clients && toApp !in appIds && B.ForServer(opcode, toApp) && ask.Emission?
      then Signalling(ReceiversOf(clients[iceConn], ask.fun))
      else []
    }

    /** A message that the server looks into itself. */
    ghost predicate Mine(iceConn: IceConn, opcode: Opcode, toApp: string)
      reads this`clients, this`appIds
    {
      iceConn in clients && toApp !in appIds && B.ForServer(opcode, toApp)
    }

    ghost function UnwantedOf(iceConn: IceConn, opcode: Opcode, toApp: string, ask: Ask): set<DCOPSignalConnection>
      reads this, dcopSignals, clients.Values
    {
      if Mine(iceConn, opcode, toApp) && ask.Disconnection? then UnwantedBy(clients[iceConn], ask) else {}
    }

    /** What a message does to the signals. */
    method SignalsFirst(iceConn: IceConn, opcode: Opcode, toApp: string, ask: Ask)
      returns (ghost added: DCOPSignalConnection?, ghost gone: set<DCOPSignalConnection>)
      requires Valid()
      modifies dcopSignals, (clients.Values)`signalConnectionList, this`sent
      ensures Valid() && View() == old(View()) && clients == old(clients)
      ensures sent == old(sent) + old(Emitted(iceConn, opcode, toApp, ask))
      ensures added != null <==> old(Mine(iceConn, opcode, toApp)) && Granted(ask, old(appIds.Keys))
      ensures added != null ==> fresh(added) && Makes(added, ask, old(clients)[iceConn], old(FindApp(ask)))
      ensures gone == old(UnwantedOf(iceConn, opcode, toApp, ask))
      ensures S.Changed(old(dcopSignals.Table()), old(Lists()), added, gone, dcopSignals.Table(), Lists())
      ensures ask.Router? || ask.Emission? || toApp in appIds || !B.ForServer(opcode, toApp) ==>
                dcopSignals.Table() == old(dcopSignals.Table())
    {
      added, gone := null, {};
      S.PurgeNothing(dcopSignals.Table(), Lists());
      if iceConn in clients && toApp !in appIds && B.ForServer(opcode, toApp) {
        assert clients[iceConn] in clients.Values;
        added, gone := ReceiveSignals(clients[iceConn], ask);
      }
    }

    /** processMessage. */
    method ProcessMessage(iceConn: IceConn, opcode: Opcode, key: CARD32, toApp: string, ask: Ask)
      returns (ghost cast: seq<B.Sent>, ghost added: DCOPSignalConnection?, ghost gone: set<DCOPSignalConnection>)
      requires Valid()
      modifies this, clients.Values, dcopSignals
      ensures Valid() && clients == old(clients)
      ensures added != null <==> old(Mine(iceConn, opcode, toApp)) && Granted(ask, old(appIds.Keys))
      ensures added != null ==> fresh(added) && Makes(added, ask, old(clients)[iceConn], old(FindApp(ask)))
      ensures gone == old(UnwantedOf(iceConn, opcode, toApp, ask))
      ensures S.Changed(old(dcopSignals.Table()), old(Lists()), added, gone, dcopSignals.Table(), Lists())
      ensures var r := B.ProcessMessage(old(View()), iceConn, opcode, key, toApp, RequestOf(ask));
              View() == r.server && sent == old(sent) + old(Emitted(iceConn, opcode, toApp, ask)) + cast + r.sent
      ensures multiset(cast) == Casting(old(View()), B.Message(iceConn, opcode, key, toApp, RequestOf(ask)))
      ensures ask.Router? || ask.Emission? || toApp in old(appIds) || !B.ForServer(opcode, toApp) ==>
                dcopSignals.Table() == old(dcopSignals.Table())
    {
      added, gone := SignalsFirst(iceConn, opcode, toApp, ask);
      cast := ProcessRouted(iceConn, opcode, key, toApp, RequestOf(ask));
    }

    // --------------------------------------------------------------- whole runs

    method HandleConnection(i: Incoming)
      requires Valid() && (i.Opened? || i.Closed?) && B.Possible(View(), EventOf(i))
      modifies this, clients.Values, dcopSignals
      ensures Valid() && fresh(clients.Values - old(clients.Values))
      ensures View() == B.Step(old(View()), EventOf(i)).server
      ensures SentAll(old(sent), [], Sending(old(View()), EventOf(i)), sent)
    {
      NoneToCast(1, None);
      ghost var before := sent;
      if i.Opened? {
        var con := WatchConnection(i.id);
        assert clients.Values - old(clients.Values) <= {con};
      } else {
        assert clients[i.id] in clients.Values;
        ghost var r := B.Step(View(), EventOf(i));
        ghost var notices := RemoveConnection(clients[i.id]);
        SentAround(before, r.sent, notices);
      }
    }

    /** What comes of what comes in for those who listen to signals. */
    ghost function SignalsOf(i: Incoming): seq<B.Sent>
      reads this, clients.Values, dcopSignals
    {
      match i
      case Received(id, opcode, _, toApp, ask) => Emitted(id, opcode, toApp, ask)
      case PipeOfDeath => if shutdown then [] else Signalling(ReceiversOf(null, TERMINATE))
      case _ => []
    }

    method HandleMessage(i: Incoming)
      requires Valid() && i.Received?
      modifies this, clients.Values, dcopSignals
      ensures Valid() && clients == old(clients) && View() == B.Step(old(View()), EventOf(i)).server
      ensures SentAll(old(sent), old(SignalsOf(i)), Sending(old(View()), EventOf(i)), sent)
    {
      ghost var before, signals := sent, SignalsOf(i);
      ghost var r := B.Step(View(), EventOf(i));
      ghost var cast, _, _ := ProcessMessage(i.id, i.opcode, i.key, i.toApp, i.ask);
      SentInAll(before, signals, cast, r.sent);
    }

    method HandleShutdown(i: Incoming) returns (exits: bool)
      requires Valid() && i.PipeOfDeath?
      modifies this`shutdown, this`timerActive, this`sent
      ensures Valid() && View() == B.Step(old(View()), EventOf(i)).server
      ensures exits <==> !old(shutdown) && appIds == map[]
      ensures SentAll(old(sent), old(SignalsOf(i)), Sending(old(View()), EventOf(i)), sent)
    {
      ghost var before, signals := sent, SignalsOf(i);
      NothingSent(View());
      exits := SlotShutdown();
      assert sent == before + signals;
      SentAfter(before, signals);
    }

    /** One turn of the event loop. */
    method Handle(i: Incoming) returns (exits: bool)
      requires Valid() && B.Possible(View(), EventOf(i))
      modifies this, clients.Values, dcopSignals
      ensures Valid() && fresh(clients.Values - old(clients.Values))
      ensures View() == B.Step(old(View()), EventOf(i)).server
      ensures exits <==> i.PipeOfDeath? && !old(shutdown) && appIds == map[]
      ensures SentAll(old(sent), old(SignalsOf(i)), Sending(old(View()), EventOf(i)), sent)
    {
      exits := false;
      match i
      case Opened(_) => HandleConnection(i);
      case Closed(_) => HandleConnection(i);
      case Received(_, _, _, _, _) => HandleMessage(i);
      case PipeOfDeath => exits := HandleShutdown(i);
    }

    /** The event loop: whatever conforming clients send, the object goes through a run of the
        machine, up to the end or to where the program exits, and the invariant of the machine
        holds of it. */
    method Serve(input: seq<Incoming>) returns (n: nat)
      requires Valid() && B.Inv(View()) && R.GoodRun(View(), EventsOf(input))
      modifies this, clients.Values, dcopSignals
      ensures n <= |input| && R.GoodRun(old(View()), EventsOf(input[..n]))
      ensures Valid() && View() == R.Run(old(View()), EventsOf(input[..n])) && B.Inv(View())
      ensures n < |input| ==> n > 0 && input[n - 1] == PipeOfDeath && shutdown && appIds == map[]
    {
      ghost var start := View();
      n := 0;
      var exits := false;
      assert input[0..] == input;
      while n < |input| && !exits
        invariant Valid() && Halfway(start, input, n, View()) && fresh(clients.Values - old(clients.Values))
        invariant exits ==> n > 0 && input[n - 1] == PipeOfDeath && shutdown && appIds == map[]
        decreases |input| - n
      {
        exits := HandleNext(start, input, n);
        n := n + 1;
      }
    }

    method HandleNext(ghost start: B.Server, input: seq<Incoming>, n: nat) returns (exits: bool)
      requires Valid() && Halfway(start, input, n, View()) && n < |input|
      modifies this, clients.Values, dcopSignals
      ensures Valid() && Halfway(start, input, n + 1, View()) && fresh(clients.Values - old(clients.Values))
      ensures exits ==> input[n] == PipeOfDeath && shutdown && appIds == map[]
    {
      HalfwayOn(start, input, n, View());
      exits := Handle(input[n]);
    }
  }

  /** Everything that a step sends, but for signals. */
  ghost function Sending(s: B.Server, ev: B.Event): multiset<B.Sent>
    requires B.ValidNames(s) && B.Possible(s, ev)
  {
    multiset(B.Step(s, ev).sent) + Casting(s, ev)
  }

  /** What was sent before, and in one turn of the event loop, in some order. */
  ghost predicate SentAll(before: seq<B.Sent>, signals: seq<B.Sent>, sending: multiset<B.Sent>, now: seq<B.Sent>) {
    multiset(now) == multiset(before) + multiset(signals) + sending
  }

  lemma SentInAll(before: seq<B.Sent>, a: seq<B.Sent>, b: seq<B.Sent>, c: seq<B.Sent>)
    ensures SentAll(before, a, multiset(c) + multiset(b), before + a + b + c)
  {
  }

  lemma SentAround(before: seq<B.Sent>, a: seq<B.Sent>, b: seq<B.Sent>)
    ensures SentAll(before, [], multiset(a) + multiset(b), before + a + b)
  {
  }

  lemma SentAfter(before: seq<B.Sent>, a: seq<B.Sent>)
    ensures SentAll(before, a, multiset{}, before + a)
  {
  }

  lemma NothingSent(s: B.Server)
    requires B.ValidNames(s)
    ensures Sending(s, B.Shutdown) == multiset{}
  {
    NoneToCast(1, None);
  }

  /** The server has come from `start` to `now` with the first `n` things that came in. */
  ghost predicate Halfway(start: B.Server, input: seq<Incoming>, n: nat, now: B.Server) {
    && n <= |input| && B.Inv(start) && B.Inv(now) && R.GoodRun(now, EventsOf(input[n..]))
    && R.GoodRun(start, EventsOf(input[..n])) && now == R.Run(start, EventsOf(input[..n]))
  }

  lemma HalfwayOn(start: B.Server, input: seq<Incoming>, n: nat, now: B.Server)
    requires Halfway(start, input, n, now) && n < |input|
    ensures B.Possible(now, EventOf(input[n]))
    ensures Halfway(start, input, n + 1, B.Step(now, EventOf(input[n])).server)
  {
    EventsSplit(input, n);
    R.StepKeeps(now, EventOf(input[n]));
    R.RunOn(start, EventsOf(input[..n]), EventOf(input[n]));
  }

  /** Removal reads only the name and the kind of the client, once its calls are closed. */
  lemma RemovalIs(s: B.Server, id: IceConn, c: B.Conn)
    requires id in s.clients && c.appId == s.clients[id].appId && c.daemon == s.clients[id].daemon
    ensures var r := B.DropPending(s.clients - {id}, id, s.clients[id]);
            B.RemoveConnection(s, id) == B.Outcome(B.Armed(B.StrikeOff(s.(clients := r.0), c)), r.1)
    ensures Casting(s, B.Disconnect(id)) == Each(if c.appId.Some? then B.Listeners(s.clients, id) else {}, 1, None)
  {
  }

  function Named(s: B.Server, id: IceConn, name: string): B.Server
    requires id in s.clients
  {
    s.(clients := s.clients[id := s.clients[id].(appId := Some(name))])
  }

  function Entered(s: B.Server, id: IceConn, name: string): B.Server
    requires id in s.clients
  {
    var named := Named(s, id, name);
    named.(appIds := named.appIds[name := id])
  }

  function Prepared(s: B.Server, id: IceConn): B.Server
    requires id in s.clients
  {
    var free := s.(appIds := B.ReleaseName(s.appIds, s.clients[id].appId, id));
    if s.clients[id].appId.Some? then free
    else free.(currentClientNumber := s.currentClientNumber + 1, timerActive := false)
  }

  /** Registering as two steps, one after the other. */
  lemma RegisterIs(s: B.Server, id: IceConn, app: string)
    requires id in s.clients && app != ""
    ensures var prepared := Prepared(s, id);
            B.Register(s, id, app) == Entered(prepared, id, UniqueName(prepared.appIds.Keys, app))
  {
  }

  lemma RegisterKeepsListeners(s: B.Server, id: IceConn, app: string)
    requires id in s.clients
    ensures B.Listeners(B.Register(s, id, app).clients, id) == B.Listeners(s.clients, id)
  {
  }

  lemma DroppingKeepsListeners(cl: B.Clients, id: IceConn)
    requires id in cl
    ensures B.Listeners(B.DropPending(cl - {id}, id, cl[id]).0, id) == B.Listeners(cl, id)
  {
    R.DropPendingKeepsIdentities(cl - {id}, id, cl[id]);
  }

  const TERMINATE := "terminateTDE()"

  /** sendMessage: signals travel with the key 1 of a plain send. */
  function Signalled(c: DCOPSignalConnection): B.Sent {
    B.Sent(c.recvConn.iceConn, Send, 1, None)
  }

  function Signalling(receivers: seq<DCOPSignalConnection>): (r: seq<B.Sent>)
    ensures |r| == |receivers|
  {
    if receivers == [] then [] else [Signalled(receivers[0])] + Signalling(receivers[1..])
  }

  lemma {:induction false} SignallingAt(receivers: seq<DCOPSignalConnection>, k: nat)
    requires k < |receivers|
    ensures Signalling(receivers)[k] == B.Sent(receivers[k].recvConn.iceConn, Send, 1, None)
  {
    if k > 0 {
      SignallingAt(receivers[1..], k - 1);
    }
  }

  lemma {:induction false} EventsConcat(input: seq<Incoming>, js: seq<Incoming>)
    ensures EventsOf(input + js) == EventsOf(input) + EventsOf(js)
    decreases |input|
  {
    if input == [] {
      assert input + js == js;
    } else {
      assert (input + js)[1..] == input[1..] + js;
      EventsConcat(input[1..], js);
    }
  }

  lemma EventsSplit(input: seq<Incoming>, n: nat)
    requires n < |input|
    ensures EventsOf(input[n..]) != [] && EventsOf(input[n..])[0] == EventOf(input[n])
            && EventsOf(input[n..])[1..] == EventsOf(input[n + 1..])
    ensures EventsOf(input[..n + 1]) == EventsOf(input[..n]) + [EventOf(input[n])]
  {
    assert input[n..][1..] == input[n + 1..];
    assert input[..n + 1] == input[..n] + [input[n]];
    EventsConcat(input[..n], [input[n]]);
  }
}
