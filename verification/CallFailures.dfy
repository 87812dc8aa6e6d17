/** What clients without discipline do to keys: the runs that show why each rule is there. */
module CallFailures {
  import B = Broker
  import K = ClientKeys
  import P = BrokerProofs
  import Q = BrokerRemoval
  import R = BrokerRuns
  import opened CallChains
  import opened DcopTypes
  import opened Options
  import opened PtrLists
  import opened Registry

  /** However clients behave, the table of names stays a bijection. */
  lemma StepKeepsNames(s: System, ev: Event)
    requires B.ValidNames(s.server) && Possible(s, ev)
    ensures B.ValidNames(Step(s, ev).server)
  {
    match ev
    case Join(id) => R.StepKeepsNames(s.server, B.Connect(id));
    case Leave(id) => R.StepKeepsNames(s.server, B.Disconnect(id));
    case Serve(id) => R.StepKeepsNames(s.server, Asked(id, s.nodes[id].outbox[0]));
    case _ =>
  }

  ghost predicate AnyRun(s: System, evs: seq<Event>)
    requires B.ValidNames(s.server)
    decreases |evs|
  {
    evs == [] || (Possible(s, evs[0]) && (StepKeepsNames(s, evs[0]); AnyRun(Step(s, evs[0]), evs[1..])))
  }

  ghost function Play(s: System, evs: seq<Event>): (t: System)
    requires B.ValidNames(s.server) && AnyRun(s, evs)
    ensures B.ValidNames(t.server)
    decreases |evs|
  {
    if evs == [] then s
    else
      StepKeepsNames(s, evs[0]);
      Play(Step(s, evs[0]), evs[1..])
  }

  /** One step and the rest of a run. */
  lemma {:induction false} PlayOn(s: System, evs: seq<Event>, ev: Event)
    requires B.ValidNames(s.server) && AnyRun(s, evs) && Possible(Play(s, evs), ev)
    ensures AnyRun(s, evs + [ev]) && Play(s, evs + [ev]) == Step(Play(s, evs), ev)
    decreases |evs|
  {
    if evs == [] {
      assert [ev][1..] == [];
    } else {
      StepKeepsNames(s, evs[0]);
      assert (evs + [ev])[1..] == evs[1..] + [ev];
      PlayOn(Step(s, evs[0]), evs[1..], ev);
    }
  }

  lemma {:induction false} SpreadKeeps(nodes: Nodes, sent: seq<B.Sent>, hop: Hop)
    ensures Whos(Spread(nodes, sent, hop)) == Whos(nodes)
    decreases |sent|
  {
    if sent != [] {
      var x := sent[0];
      var m := K.Msg(x.opcode, x.key, hop.sender, hop.tag);
      if x.to in nodes {
        OneWho(nodes, x.to, Receiving(nodes[x.to], m));
        SpreadKeeps(nodes[x.to := Receiving(nodes[x.to], m)], sent[1..], hop);
      } else {
        SpreadKeeps(nodes, sent[1..], hop);
      }
    }
  }

  ghost predicate AllAborts(ms: seq<Hop>) {
    forall m <- ms :: m.key == SEND_KEY
  }

  /** A client to which a call was aborted finds the messages about it. */
  lemma {:induction false} SpreadReaches(nodes: Nodes, sent: seq<B.Sent>, a: IceConn, b: IceConn)
    requires a in nodes && AllAborts(nodes[a].inbox) && forall m <- sent :: m.key == SEND_KEY
    ensures var after := Spread(nodes, sent, ABORT);
            && a in after && after[a] == nodes[a].(inbox := after[a].inbox) && AllAborts(after[a].inbox)
            && (nodes[a].inbox != [] || Q.Answers(sent, a, b) > 0 ==> after[a].inbox != [])
    decreases |sent|
  {
    if sent != [] {
      var x := sent[0];
      assert x in sent;
      var m := K.Msg(x.opcode, x.key, ABORT.sender, ABORT.tag);
      SpreadReaches(if x.to in nodes then nodes[x.to := Receiving(nodes[x.to], m)] else nodes, sent[1..], a, b);
    }
  }

  /** A Reply to a call that had been put off, from `b` to `a`, is next to be served. */
  ghost predicate StrayReply(s: System, a: IceConn, b: IceConn) {
    && a in s.nodes && b in s.nodes && a != b && s.nodes[b].outbox != []
    && var o := s.nodes[b].outbox[0];
       && o.hop.opcode == Reply && o.toApp in s.server.appIds && s.server.appIds[o.toApp] == a
       && b in s.server.clients
       && a !in s.server.clients[b].waitingForReply && a in s.server.clients[b].waitingForDelayedReply
  }

  lemma StrayServed(s: System, a: IceConn, b: IceConn)
    requires B.ValidNames(s.server) && s.server.clients.Keys == s.nodes.Keys && StrayReply(s, a, b)
    ensures var t := Step(s, Serve(b));
            && t.keys == s.keys && t.joined == s.joined && t.nodes.Keys == s.nodes.Keys == t.server.clients.Keys
            && t.server.clients == B.AnswerCall(s.server.clients, a, b, false)
  {
    Passed(s, b);
    Forwarding(s.server, b, s.nodes[b].outbox[0]);
  }

  lemma LeaveFrees(s: System, a: IceConn)
    requires B.ValidNames(s.server) && s.nodes.Keys == s.server.clients.Keys && a in s.nodes
    ensures var t := Step(s, Leave(a));
            && t.keys == s.keys && t.joined == s.joined && t.nodes.Keys == t.server.clients.Keys == s.nodes.Keys - {a}
            && t.server.clients == B.DropPending(s.server.clients - {a}, a, s.server.clients[a]).0
  {
    SpreadKeeps(s.nodes - {a}, B.RemoveConnection(s.server, a).sent, ABORT);
    assert Whos(Spread(s.nodes - {a}, B.RemoveConnection(s.server, a).sent, ABORT)).Keys == s.nodes.Keys - {a};
    R.DropPendingKeepsIdentities(s.server.clients - {a}, a, s.server.clients[a]);
  }

  lemma JoinAdds(s: System, a: IceConn)
    requires B.ValidNames(s.server) && Possible(s, Join(a))
    ensures var t := Step(s, Join(a));
            && B.ValidNames(t.server) && t.keys == s.keys
            && t.nodes == s.nodes[a := Node(s.joined, K.NewClient(), [], [])]
            && t.server.clients == s.server.clients[a := B.NEW_CONN]
  {
    StepKeepsNames(s, Join(a));
  }

  /** A client that owes an answer leaves, and the one who waits finds that its call was aborted. */
  lemma AbortIsSent(s: System, a: IceConn, b: IceConn)
    requires B.ValidNames(s.server) && a in s.nodes && b in s.nodes && b in s.server.clients && a != b
    requires s.nodes[a].inbox == [] && Q.Owed(s.server.clients[b], a) > 0
    ensures var t := Step(s, Leave(b));
            && t.keys == s.keys && a in t.nodes && t.nodes[a] == s.nodes[a].(inbox := t.nodes[a].inbox)
            && t.nodes[a].inbox != [] && t.nodes[a].inbox[0].key == SEND_KEY
  {
    var sent := B.RemoveConnection(s.server, b).sent;
    Q.RemovalAnswers(s.server, b, a, b);
    SpreadReaches(s.nodes - {b}, sent, a, b);
    var aborted := Spread(s.nodes - {b}, sent, ABORT);
    assert aborted[a].inbox[0] in aborted[a].inbox;
  }

  lemma FirstIsRead(s: System, a: IceConn)
    requires B.ValidNames(s.server) && a in s.nodes && s.nodes[a].inbox != [] && s.nodes[a].peer.key == 0
    ensures var t := Step(s, Deliver(a));
            t.keys == s.keys && a in t.nodes && t.nodes[a].who == s.nodes[a].who
            && t.nodes[a].peer.key == s.nodes[a].inbox[0].key
  {
  }

  /** The caller leaves, and its handle stays on the list of the callee, also when another
      client has the handle. */
  lemma StrayEntryStays(s: System, a: IceConn, b: IceConn)
    requires B.Inv(s.server) && s.server.clients.Keys == s.nodes.Keys && StrayReply(s, a, b)
    ensures var s1 := Step(s, Serve(b));
            && B.ValidNames(s1.server) && Possible(s1, Leave(a))
            && var s2 := Step(s1, Leave(a));
               && B.ValidNames(s2.server) && Possible(s2, Join(a)) && s2.keys == s.keys
               && var s3 := Step(s2, Join(a));
                  && B.ValidNames(s3.server) && Possible(s3, Leave(b)) && s3.keys == s.keys
                  && a in s3.nodes && s3.nodes[a] == Node(s.joined, K.NewClient(), [], [])
                  && Q.Owed(s3.server.clients[b], a) == 1
  {
    StepKeepsNames(s, Serve(b));
    StrayServed(s, a, b);
    StepKeepsNames(Step(s, Serve(b)), Leave(a));
    LeaveFrees(Step(s, Serve(b)), a);
    JoinAdds(Step(Step(s, Serve(b)), Leave(a)), a);
    Q.StrayReplyDangles(s.server.clients, a, b);
  }

  lemma NewIsUnknown(s: System)
    requires Inv(s)
    ensures s.joined !in s.keys
  {
  }

  lemma StrayIsUndisciplined(s: System, a: IceConn, b: IceConn)
    requires StrayReply(s, a, b)
    ensures !Disciplined(s, Serve(b))
  {
  }

  /** What a stray Reply leads to, whatever the state: the caller leaves, another client gets
      its handle, the callee leaves, and the new client takes the number of an aborted call
      for its key, without having been issued one. */
  lemma StrayReplyGivesKey(s: System, a: IceConn, b: IceConn)
    requires Inv(s) && StrayReply(s, a, b)
    ensures !Disciplined(s, Serve(b))
    ensures var evs := [Serve(b), Leave(a), Join(a), Leave(b), Deliver(a)];
            AnyRun(s, evs) &&
            var t := Play(s, evs);
            && a in t.nodes && t.nodes[a].who == s.joined && t.nodes[a].who !in t.keys
            && t.nodes[a].peer.key == SEND_KEY < B.FIRST_KEY
  {
    StrayIsUndisciplined(s, a, b);
    InvBasics(s);
    NewIsUnknown(s);
    StrayEntryStays(s, a, b);
    var s3 := Step(Step(Step(s, Serve(b)), Leave(a)), Join(a));
    AbortIsSent(s3, a, b);
    StepKeepsNames(s3, Leave(b));
    FirstIsRead(Step(s3, Leave(b)), a);
    PlayFive(s, Serve(b), Leave(a), Join(a), Leave(b), Deliver(a));
  }

  lemma PlayFive(s: System, e0: Event, e1: Event, e2: Event, e3: Event, e4: Event)
    requires B.ValidNames(s.server) && Possible(s, e0)
    requires var s1 := Step(s, e0); B.ValidNames(s1.server) && Possible(s1, e1)
    requires var s2 := Step(Step(s, e0), e1); B.ValidNames(s2.server) && Possible(s2, e2)
    requires var s3 := Step(Step(Step(s, e0), e1), e2); B.ValidNames(s3.server) && Possible(s3, e3)
    requires var s4 := Step(Step(Step(Step(s, e0), e1), e2), e3); B.ValidNames(s4.server) && Possible(s4, e4)
    ensures AnyRun(s, [e0, e1, e2, e3, e4])
    ensures Play(s, [e0, e1, e2, e3, e4]) == Step(Step(Step(Step(Step(s, e0), e1), e2), e3), e4)
  {
    PlayOn(s, [], e0);
    PlayOn(s, [] + [e0], e1);
    PlayOn(s, [] + [e0] + [e1], e2);
    PlayOn(s, [] + [e0] + [e1] + [e2], e3);
    PlayOn(s, [] + [e0] + [e1] + [e2] + [e3], e4);
    assert [] + [e0] + [e1] + [e2] + [e3] + [e4] == [e0, e1, e2, e3, e4];
  }

  /** The run so far leads to `t`. */
  ghost predicate Leads(s: System, evs: seq<Event>, t: System)
    requires B.ValidNames(s.server)
  {
    AnyRun(s, evs) && Play(s, evs) == t
  }

  lemma LeadsOn(s: System, evs: seq<Event>, t: System, ev: Event, u: System)
    requires B.ValidNames(s.server) && Leads(s, evs, t) && Possible(t, ev) && Step(t, ev) == u
    ensures Leads(s, evs + [ev], u)
  {
    PlayOn(s, evs, ev);
  }

  function Calls(id: IceConn, sender: string, toApp: string, request: B.Request): Event {
    Say(id, Call, 0, sender, toApp, request)
  }

  function FirstCall(sender: string): Hop {
    K.Msg(Call, 0, sender, None)
  }

  /** The client before its first answer. */
  function Waiting(): Peer {
    K.NewClient<Origin>().(stack := [K.Calling(0, 0)])
  }

  /** Two clients have come. */
  function Two(suicide: bool, a: IceConn, b: IceConn): System {
    var fresh0, fresh1 := Node(0, K.NewClient(), [], []), Node(1, K.NewClient(), [], []);
    System(B.Initial(suicide).(clients := map[a := B.NEW_CONN, b := B.NEW_CONN]), map[a := fresh0, b := fresh1], 2,
           map[], {})
  }

  lemma TwoJoin(suicide: bool, a: IceConn, b: IceConn)
    requires a != b
    ensures Leads(Start(suicide), [Join(a), Join(b)], Two(suicide, a, b))
  {
    var s := Start(suicide);
    var s1 := Step(s, Join(a));
    LeadsOn(s, [], s, Join(a), s1);
    assert Step(s1, Join(b)).nodes == Two(suicide, a, b).nodes;
    assert Step(s1, Join(b)).server.clients == Two(suicide, a, b).server.clients;
    LeadsOn(s, [Join(a)], s1, Join(b), Two(suicide, a, b));
  }

  function Registration(app: string): Out {
    Out(FirstCall(app), SERVER, B.RegisterAs(app))
  }

  /** A client that has just come, while its name is free. */
  predicate CanRegister(s: System, id: IceConn, app: string) {
    && id in s.nodes && s.nodes[id] == Node(s.nodes[id].who, K.NewClient(), [], []) && s.nodes[id].who !in s.keys
    && id in s.server.clients && s.server.clients[id] == B.NEW_CONN && !s.server.timerActive
    && app != "" && app !in s.server.appIds && SERVER !in s.server.appIds
    && forall c | c in s.server.clients :: s.server.clients[c].notifyRegister == 0
  }

  /** The client has its name and its first key, which it has not read yet. */
  function Named(s: System, id: IceConn, app: string): System
    requires CanRegister(s, id, app)
  {
    var n := Node(s.nodes[id].who, Waiting(), [K.Msg(Reply, s.server.serverKey, app, None)], []);
    s.(server := s.server.(clients := s.server.clients[id := B.NEW_CONN.(appId := Some(app))],
                           appIds := s.server.appIds[app := id],
                           currentClientNumber := s.server.currentClientNumber + 1,
                           serverKey := B.NextKey(s.server.serverKey)),
       nodes := s.nodes[id := n],
       keys := s.keys[n.who := s.server.serverKey])
  }

  lemma NamesClient(s: System, id: IceConn, app: string)
    requires B.ValidNames(s.server) && CanRegister(s, id, app)
    ensures Served(s.server, id, Registration(app))
         == B.Outcome(Named(s, id, app).server, [B.Sent(id, Reply, s.server.serverKey, None)])
  {
    assert UniqueName(s.server.appIds.Keys, app) == app;
  }

  lemma SaysIt(s: System, id: IceConn, app: string, request: B.Request)
    requires id in s.nodes && s.nodes[id] == Node(s.nodes[id].who, K.NewClient(), [], [])
    ensures var ev := Calls(id, app, SERVER, request);
            && Possible(s, ev)
            && Said(s.nodes[id], ev) == Node(s.nodes[id].who, Waiting(), [], [Out(FirstCall(app), SERVER, request)])
  {
  }

  lemma NamedIs(s: System, id: IceConn, app: string)
    requires B.ValidNames(s.server) && CanRegister(s, id, app)
    ensures var ev := Calls(id, app, SERVER, B.RegisterAs(app));
            && Possible(s, ev) && Possible(Step(s, ev), Serve(id)) && Step(Step(s, ev), Serve(id)) == Named(s, id, app)
  {
    var ev := Calls(id, app, SERVER, B.RegisterAs(app));
    SaysIt(s, id, app, B.RegisterAs(app));
    NamesClient(s, id, app);
    var said := s.nodes[id := Said(s.nodes[id], ev)];
    var rest := said[id := Popped(said[id])];
    assert B.Broadcast(s.server, Asked(id, Registration(app))) == {};
    CastToNobody(rest, CastOf(s.server, id, Registration(app)));
    SpreadOne(rest, [B.Sent(id, Reply, s.server.serverKey, None)], FirstCall(app));
    assert Popped(said[id]).outbox == [];
    assert Receiving(rest[id], K.Msg(Reply, s.server.serverKey, app, None)) == Named(s, id, app).nodes[id];
  }

  lemma SixInAll<T>(a: T, b: T, c: T, d: T, e: T, f: T)
    ensures [a, b] + [c] + [d] + [e] + [f] == [a, b, c, d, e, f]
  {
  }

  /** The server's name is taken, and another client calls the server: the call goes to the
      client that took the name, without a key, and the caller gets neither answer nor key. */
  lemma ServersNameTaken(suicide: bool, a: IceConn, b: IceConn, request: B.Request)
    requires a != b
    ensures var evs := [Join(a), Join(b), Calls(a, SERVER, SERVER, B.RegisterAs(SERVER)), Serve(a),
                        Calls(b, "b", SERVER, request), Serve(b)];
            AnyRun(Start(suicide), evs) &&
            var t := Play(Start(suicide), evs);
            && t.nodes == map[a := Node(0, Waiting(), [K.Msg(Reply, 42, SERVER, None), FirstCall("b")], []),
                              b := Node(1, Waiting(), [], [])]
            && t.keys == map[0 := 42]
  {
    var s, ask := Two(suicide, a, b), Calls(a, SERVER, SERVER, B.RegisterAs(SERVER));
    TwoJoin(suicide, a, b);
    NamedIs(s, a, SERVER);
    var t, call := Named(s, a, SERVER), Calls(b, "b", SERVER, request);
    LeadsOn(Start(suicide), [Join(a), Join(b)], s, ask, Step(s, ask));
    LeadsOn(Start(suicide), [Join(a), Join(b)] + [ask], Step(s, ask), Serve(a), t);
    SaysIt(t, b, "b", request);
    LeadsOn(Start(suicide), [Join(a), Join(b)] + [ask] + [Serve(a)], t, call, Step(t, call));
    PassedToNamesake(suicide, a, b, request);
    LeadsOn(Start(suicide), [Join(a), Join(b)] + [ask] + [Serve(a)] + [call], Step(t, call),
            Serve(b), Step(Step(t, call), Serve(b)));
    SixInAll(Join(a), Join(b), ask, Serve(a), call, Serve(b));
  }

  lemma PassedToNamesake(suicide: bool, a: IceConn, b: IceConn, request: B.Request)
    requires a != b
    ensures var t, call := Named(Two(suicide, a, b), a, SERVER), Calls(b, "b", SERVER, request);
            && B.ValidNames(t.server) && Possible(t, call) && Possible(Step(t, call), Serve(b))
            && var u := Step(Step(t, call), Serve(b));
               && u.nodes == map[a := Node(0, Waiting(), [K.Msg(Reply, 42, SERVER, None), FirstCall("b")], []),
                                 b := Node(1, Waiting(), [], [])]
               && u.keys == map[0 := 42]
  {
    var t, call := Named(Two(suicide, a, b), a, SERVER), Calls(b, "b", SERVER, request);
    SaysIt(t, b, "b", request);
    var said := Step(t, call);
    Passed(said, b);
    var rest := said.nodes[b := Popped(said.nodes[b])];
    assert Receiving(rest[a], FirstCall("b")).inbox == [K.Msg(Reply, 42, SERVER, None), FirstCall("b")];
    assert Popped(said.nodes[b]) == Node(1, Waiting(), [], []);
  }

  lemma OnlyOne<T>(s: seq<T>, x: T)
    requires s == []
    ensures s + [x] == [x]
  {
  }

  lemma RestOf<T>(x: T, rest: seq<T>)
    ensures [x] + rest != [] && ([x] + rest)[0] == x && ([x] + rest)[1..] == rest
  {
  }

  lemma FirstAndRest<T>(s: seq<T>, x: T)
    requires s != []
    ensures s + [x] == [s[0]] + (s[1..] + [x])
  {
  }

  lemma RunFirst(s: System, ev: Event, rest: seq<Event>)
    requires Inv(s) && Possible(s, ev) && Disciplined(s, ev) && Inv(Step(s, ev)) && GoodRun(Step(s, ev), rest)
    ensures GoodRun(s, [ev] + rest) && Run(s, [ev] + rest) == Run(Step(s, ev), rest)
  {
    RestOf(ev, rest);
  }

  lemma RunRest(s: System, evs: seq<Event>)
    requires evs != [] && Inv(s) && GoodRun(s, evs)
    ensures Possible(s, evs[0]) && Disciplined(s, evs[0]) && Inv(Step(s, evs[0])) && GoodRun(Step(s, evs[0]), evs[1..])
    ensures Run(s, evs) == Run(Step(s, evs[0]), evs[1..])
  {
    StepKeeps(s, evs[0]);
  }

  lemma RunOne(s: System, ev: Event)
    requires Inv(s) && Possible(s, ev) && Disciplined(s, ev)
    ensures GoodRun(s, [ev]) && Run(s, [ev]) == Step(s, ev)
  {
    StepKeeps(s, ev);
    RunNone(Step(s, ev));
    RunFirst(s, ev, []);
    NothingBehind(ev);
  }

  lemma NothingBehind<T>(x: T)
    ensures [x] + [] == [x]
  {
  }

  lemma RunNone(s: System)
    requires Inv(s)
    ensures GoodRun(s, []) && Run(s, []) == s
  {
  }

  /** A step more of a disciplined run. */
  lemma {:induction false} RunOn(s: System, evs: seq<Event>, ev: Event)
    requires Inv(s) && GoodRun(s, evs) && Possible(Run(s, evs), ev) && Disciplined(Run(s, evs), ev)
    ensures GoodRun(s, evs + [ev]) && Run(s, evs + [ev]) == Step(Run(s, evs), ev)
    decreases |evs|
  {
    if evs == [] {
      RunOne(s, ev);
      OnlyOne(evs, ev);
    } else {
      FirstAndRest(evs, ev);
      RunRest(s, evs);
      RunOn(Step(s, evs[0]), evs[1..], ev);
      RunFirst(s, evs[0], evs[1..] + [ev]);
    }
  }

  /** Two named clients that have nothing to do with each other; `a` knows its key. */
  ghost predicate Idle(s: System, a: IceConn, x: string, b: IceConn, y: string) {
    && a in s.nodes && b in s.nodes && a != b && s.nodes[a].outbox == [] && s.nodes[b].outbox == []
    && x in s.server.appIds && s.server.appIds[x] == a && y in s.server.appIds && s.server.appIds[y] == b
    && s.nodes[a].peer.key != 0 && b in s.server.clients && a !in s.server.clients[b].waitingForReply
  }

  function Saying(id: IceConn, opcode: Opcode, sender: string, toApp: string): Event {
    Say(id, opcode, 0, sender, toApp, B.Other(true))
  }

  /** After a run, the caller asks, the callee puts the call off, and then answers it plainly. */
  function StrayRun(evs: seq<Event>, a: IceConn, x: string, b: IceConn, y: string): seq<Event> {
    evs + [Saying(a, Call, x, y)] + [Serve(a)] + [Saying(b, ReplyWait, y, x)] + [Serve(b)] + [Saying(b, Reply, y, x)]
  }

  lemma SaidIs(s: System, ev: Event)
    requires B.ValidNames(s.server) && ev.Say? && Possible(s, ev) && s.nodes[ev.id].outbox == []
    requires Distinct(s.keys, s.server.serverKey) && GoodNode(s.keys, s.nodes[ev.id])
    requires IsCall(ev.opcode) ==> s.nodes[ev.id].peer.key != 0
    ensures var t, hop := Step(s, ev), Spoken(s.nodes[ev.id].who, s.nodes[ev.id].peer, ev);
            && t.server == s.server && t.nodes.Keys == s.nodes.Keys && !Keyless(hop) && hop.opcode == ev.opcode
            && t.nodes[ev.id].outbox == [Out(hop, ev.toApp, ev.request)]
            && forall c | c in s.nodes && c != ev.id :: t.nodes[c] == s.nodes[c]
  {
    var n := s.nodes[ev.id];
    SpokenIsGood(s.keys, s.server.serverKey, n.who, n.peer, n.inbox, ev);
  }

  lemma GoodNodeOf(s: System, id: IceConn)
    requires Inv(s) && id in s.nodes
    ensures GoodNode(s.keys, s.nodes[id]) && Distinct(s.keys, s.server.serverKey)
    ensures B.ValidNames(s.server) && s.server.clients.Keys == s.nodes.Keys
  {
  }

  lemma ForwardedDiscipline(s: System, id: IceConn)
    requires Possible(s, Serve(id)) && s.nodes[id].outbox[0].toApp in s.server.appIds
    requires B.Conforming(s.server, Asked(id, s.nodes[id].outbox[0])) && !Keyless(s.nodes[id].outbox[0].hop)
    ensures Disciplined(s, Serve(id))
  {
  }

  lemma ForwardedIs(s: System, id: IceConn)
    requires B.ValidNames(s.server) && s.server.clients.Keys == s.nodes.Keys && Possible(s, Serve(id))
    requires s.nodes[id].outbox[0].toApp in s.server.appIds
    ensures var t, o := Step(s, Serve(id)), s.nodes[id].outbox[0];
            && t.server == s.server.(clients := B.Route(s.server.clients, id, o.hop.opcode, s.server.appIds[o.toApp]))
            && t.nodes.Keys == s.nodes.Keys && t.nodes[id].outbox == s.nodes[id].outbox[1..]
            && forall c | c in s.nodes && c != id :: t.nodes[c].outbox == s.nodes[c].outbox
  {
    Passed(s, id);
    Forwarding(s.server, id, s.nodes[id].outbox[0]);
  }

  /** A disciplined run from one state to another. */
  ghost predicate Reaches(s: System, evs: seq<Event>, t: System) {
    Inv(s) && GoodRun(s, evs) && Run(s, evs) == t
  }

  lemma ReachesOn(s: System, evs: seq<Event>, t: System, ev: Event)
    requires Reaches(s, evs, t) && Possible(t, ev) && Disciplined(t, ev)
    ensures B.ValidNames(t.server) && t.server.clients.Keys == t.nodes.Keys && Reaches(s, evs + [ev], Step(t, ev))
  {
    InvBasics(t);
    RunOn(s, evs, ev);
  }

  /** The message that a client says goes to the client it is for. */
  ghost predicate PassesOn(t: System, ev: Event, u: System) {
    && ev.Say? && ev.id in t.server.clients && ev.toApp in t.server.appIds
    && t.server.appIds[ev.toApp] in t.server.clients
    && u.server == t.server.(clients := B.Route(t.server.clients, ev.id, ev.opcode, t.server.appIds[ev.toApp]))
    && u.nodes.Keys == t.nodes.Keys && forall c | c in t.nodes :: u.nodes[c].outbox == t.nodes[c].outbox
  }

  /** A message to a named client that is fit to be passed on. */
  ghost predicate CanPass(t: System, ev: Event) {
    && ev.Say? && ev.id in t.nodes && t.nodes[ev.id].outbox == [] && ev.toApp in t.server.appIds
    && (IsCall(ev.opcode) ==> t.nodes[ev.id].peer.key != 0)
    && B.Conforming(t.server, B.Message(ev.id, ev.opcode, ev.key, ev.toApp, ev.request))
  }

  /** What serving one message to a named client comes to. */
  lemma ServedOn(t: System, said: System, ev: Event)
    requires B.ValidNames(t.server) && t.server.clients.Keys == t.nodes.Keys && CanPass(t, ev)
    requires said.server == t.server && said.nodes.Keys == t.nodes.Keys && ev.id in said.nodes
             && said.nodes[ev.id].outbox != []
    requires var o := said.nodes[ev.id].outbox[0];
             !Keyless(o.hop) && o.toApp == ev.toApp
             && Asked(ev.id, o) == B.Message(ev.id, ev.opcode, o.hop.key, ev.toApp, ev.request)
    requires said.nodes[ev.id].outbox[1..] == [] && forall c | c in t.nodes && c != ev.id :: said.nodes[c] == t.nodes[c]
    ensures Possible(said, Serve(ev.id)) && Disciplined(said, Serve(ev.id)) && PassesOn(t, ev, Step(said, Serve(ev.id)))
  {
    ForwardedDiscipline(said, ev.id);
    ForwardedIs(said, ev.id);
  }

  lemma SaidAndServedOn(t: System, ev: Event)
    requires B.ValidNames(t.server) && t.server.clients.Keys == t.nodes.Keys && CanPass(t, ev)
    requires Distinct(t.keys, t.server.serverKey) && GoodNode(t.keys, t.nodes[ev.id])
    ensures var said := Step(t, ev);
            && Possible(said, Serve(ev.id)) && Disciplined(said, Serve(ev.id)) && B.ValidNames(said.server)
            && PassesOn(t, ev, Step(said, Serve(ev.id)))
  {
    SaidIs(t, ev);
    ServedOn(t, Step(t, ev), ev);
  }

  /** What saying and serving one message to a named client comes to. */
  lemma PassesOnIs(t: System, ev: Event)
    requires Inv(t) && CanPass(t, ev)
    ensures var said := Step(t, ev);
            && Possible(said, Serve(ev.id)) && Disciplined(said, Serve(ev.id)) && B.ValidNames(said.server)
            && PassesOn(t, ev, Step(said, Serve(ev.id)))
  {
    GoodNodeOf(t, ev.id);
    SaidAndServedOn(t, ev);
  }

  lemma SaidAndServed(s: System, evs: seq<Event>, t: System, ev: Event) returns (u: System)
    requires Reaches(s, evs, t) && CanPass(t, ev)
    ensures Reaches(s, evs + [ev] + [Serve(ev.id)], u) && PassesOn(t, ev, u)
  {
    PassesOnIs(t, ev);
    ReachesOn(s, evs, t, ev);
    ReachesOn(s, evs + [ev], Step(t, ev), Serve(ev.id));
    u := Step(Step(t, ev), Serve(ev.id));
  }

  /** A call that is put off is on the other list. */
  lemma PutOff(cl: B.Clients, a: IceConn, b: IceConn)
    requires a in cl && b in cl && a != b && a !in cl[b].waitingForReply
    ensures var called := B.AddCall(cl, a, b);
            var off := B.AnswerCall(called, a, b, true);
            && a in called[b].waitingForReply
            && b in off && a !in off[b].waitingForReply && a in off[b].waitingForDelayedReply
  {
    var called := B.AddCall(cl, a, b);
    P.CountRemoveRef(called[b].waitingForReply, a, a);
    assert Count(cl[b].waitingForReply, a) == 0;
    assert a !in multiset(RemoveRef(called[b].waitingForReply, a));
  }

  ghost predicate HasPutOff(s: System, a: IceConn, x: string, b: IceConn) {
    && a in s.nodes && b in s.nodes && a != b && s.nodes[b].outbox == [] && x in s.server.appIds
    && s.server.appIds[x] == a
    && b in s.server.clients && a !in s.server.clients[b].waitingForReply
    && a in s.server.clients[b].waitingForDelayedReply
  }

  lemma IdleCanCall(t: System, a: IceConn, x: string, b: IceConn, y: string)
    requires Idle(t, a, x, b, y)
    ensures CanPass(t, Saying(a, Call, x, y))
  {
  }

  lemma CalledPutsOff(t: System, u: System, a: IceConn, x: string, b: IceConn, y: string)
    requires Idle(t, a, x, b, y) && PassesOn(t, Saying(a, Call, x, y), u)
    ensures CanPass(u, Saying(b, ReplyWait, y, x))
    ensures forall v :: PassesOn(u, Saying(b, ReplyWait, y, x), v) ==> HasPutOff(v, a, x, b)
  {
    PutOff(t.server.clients, a, b);
  }

  lemma CallsAndPutsOff(s: System, evs: seq<Event>, t: System, a: IceConn, x: string, b: IceConn, y: string)
    returns (v: System)
    requires Reaches(s, evs, t) && Idle(t, a, x, b, y)
    ensures Reaches(s, evs + [Saying(a, Call, x, y)] + [Serve(a)] + [Saying(b, ReplyWait, y, x)] + [Serve(b)], v)
    ensures HasPutOff(v, a, x, b)
  {
    IdleCanCall(t, a, x, b, y);
    var u := SaidAndServed(s, evs, t, Saying(a, Call, x, y));
    CalledPutsOff(t, u, a, x, b, y);
    v := SaidAndServed(s, evs + [Saying(a, Call, x, y)] + [Serve(a)], u, Saying(b, ReplyWait, y, x));
  }

  lemma SaysStray(s: System, a: IceConn, x: string, b: IceConn, y: string)
    requires Inv(s) && HasPutOff(s, a, x, b)
    ensures Possible(s, Saying(b, Reply, y, x)) && Disciplined(s, Saying(b, Reply, y, x))
    ensures StrayReply(Step(s, Saying(b, Reply, y, x)), a, b)
  {
    GoodNodeOf(s, b);
    SaidIs(s, Saying(b, Reply, y, x));
  }

  /** From any reachable state in which two clients are idle, a disciplined run leads to where
      a stray Reply is next. */
  lemma StrayReplyReached(s: System, evs: seq<Event>, t: System, a: IceConn, x: string, b: IceConn, y: string)
    returns (u: System)
    requires Reaches(s, evs, t) && Idle(t, a, x, b, y)
    ensures Reaches(s, StrayRun(evs, a, x, b, y), u) && StrayReply(u, a, b)
  {
    u := CallsAndPutsOff(s, evs, t, a, x, b, y);
    SaysStray(u, a, x, b, y);
    ReachesOn(s, evs + [Saying(a, Call, x, y)] + [Serve(a)] + [Saying(b, ReplyWait, y, x)] + [Serve(b)],
              u, Saying(b, Reply, y, x));
    u := Step(u, Saying(b, Reply, y, x));
  }

  lemma RegistersWell(s: System, id: IceConn, app: string)
    requires B.ValidNames(s.server) && CanRegister(s, id, app) && app != SERVER && s.server.serverKey < CARD32_SIZE - 1
    ensures var ev := Calls(id, app, SERVER, B.RegisterAs(app));
            Possible(s, ev) && Possible(Step(s, ev), Serve(id)) && Disciplined(Step(s, ev), Serve(id))
  {
    SaysIt(s, id, app, B.RegisterAs(app));
  }

  lemma NamedReached(s: System, evs: seq<Event>, t: System, id: IceConn, app: string)
    requires Reaches(s, evs, t) && B.ValidNames(t.server) && CanRegister(t, id, app) && app != SERVER
    requires t.server.serverKey < CARD32_SIZE - 1
    ensures Reaches(s, evs + [Calls(id, app, SERVER, B.RegisterAs(app))] + [Serve(id)], Named(t, id, app))
  {
    var ev := Calls(id, app, SERVER, B.RegisterAs(app));
    RegistersWell(t, id, app);
    NamedIs(t, id, app);
    ReachesOn(s, evs, t, ev);
    ReachesOn(s, evs + [ev], Step(t, ev), Serve(id));
  }

  /** Two clients come and register. */
  lemma BothNamed(suicide: bool, a: IceConn, b: IceConn) returns (evs: seq<Event>, t: System)
    requires a != b
    ensures Reaches(Start(suicide), evs, t) && HasNames(t, a, b)
  {
    var s := Two(suicide, a, b);
    TwoReached(suicide, a, b);
    evs := [] + [Join(a)] + [Join(b)];
    TwoIs(suicide, a, b);
    NamedReached(Start(suicide), evs, s, a, "a");
    evs := evs + [Calls(a, "a", SERVER, B.RegisterAs("a"))] + [Serve(a)];
    OneNamed(suicide, a, b);
    NamedReached(Start(suicide), evs, Named(s, a, "a"), b, "b");
    evs := evs + [Calls(b, "b", SERVER, B.RegisterAs("b"))] + [Serve(b)];
    t := Named(Named(s, a, "a"), b, "b");
  }

  /** Two clients have names, and the first has not read its key yet. */
  ghost predicate HasNames(t: System, a: IceConn, b: IceConn) {
    && a in t.nodes && b in t.nodes && a != b && t.nodes[a].outbox == [] && t.nodes[b].outbox == []
    && t.nodes[a].inbox == [K.Msg(Reply, 42, "a", None)] && b in t.server.clients
    && t.server.clients[b].waitingForReply == []
    && t.server.appIds == map["a" := a, "b" := b]
  }

  lemma TwoIs(suicide: bool, a: IceConn, b: IceConn)
    requires a != b
    ensures var s := Two(suicide, a, b); B.ValidNames(s.server) && CanRegister(s, a, "a") && s.server.serverKey == 42
  {
  }

  lemma OneNamed(suicide: bool, a: IceConn, b: IceConn)
    requires a != b && CanRegister(Two(suicide, a, b), a, "a")
    ensures var s := Named(Two(suicide, a, b), a, "a");
            && B.ValidNames(s.server) && CanRegister(s, b, "b") && s.server.serverKey == 43
            && HasNames(Named(s, b, "b"), a, b)
  {
  }

  lemma ReadsItsKey(s: System, evs: seq<Event>, t: System, a: IceConn, b: IceConn)
    requires Reaches(s, evs, t) && HasNames(t, a, b)
    ensures Possible(t, Deliver(a)) && Reaches(s, evs + [Deliver(a)], Step(t, Deliver(a)))
  {
    ReachesOn(s, evs, t, Deliver(a));
  }

  lemma IsIdleThen(t: System, a: IceConn, b: IceConn)
    requires B.ValidNames(t.server) && HasNames(t, a, b) && Possible(t, Deliver(a))
    ensures Idle(Step(t, Deliver(a)), a, "a", b, "b")
  {
  }

  /** There are such states: two clients come and register, and one reads its answer. */
  lemma IdleReached(suicide: bool, a: IceConn, b: IceConn) returns (evs: seq<Event>, t: System)
    requires a != b
    ensures Reaches(Start(suicide), evs, t) && Idle(t, a, "a", b, "b")
  {
    evs, t := BothNamed(suicide, a, b);
    ReadsItsKey(Start(suicide), evs, t, a, b);
    InvBasics(t);
    IsIdleThen(t, a, b);
    evs := evs + [Deliver(a)];
    t := Step(t, Deliver(a));
  }

  lemma TwoReached(suicide: bool, a: IceConn, b: IceConn)
    requires a != b
    ensures Reaches(Start(suicide), [] + [Join(a)] + [Join(b)], Two(suicide, a, b))
  {
    var s := Start(suicide);
    var s1 := Step(s, Join(a));
    ReachesOn(s, [], s, Join(a));
    ReachesOn(s, [] + [Join(a)], s1, Join(b));
    assert Step(s1, Join(b)).nodes == Two(suicide, a, b).nodes;
    assert Step(s1, Join(b)).server.clients == Two(suicide, a, b).server.clients;
  }

  // ------------------------------------------------ listening without a key

  /** A client that has just come. */
  predicate IsNew(s: System, id: IceConn) {
    && id in s.nodes && s.nodes[id] == Node(s.nodes[id].who, K.NewClient(), [], []) && s.nodes[id].who !in s.keys
    && id in s.server.clients && SERVER !in s.server.appIds
  }

  /** It connects a signal with a message that is not answered, a signal comes, and it reads it. */
  function EarRun(id: IceConn, app: string, sender: string): seq<Event> {
    [Say(id, Send, 0, app, SERVER, B.ConnectSignal(true)), Serve(id), Signal(id, sender), Deliver(id)]
  }

  /** The client thinks that the key of the signal is its own. */
  function Misled(s: System, id: IceConn, sender: string): System
    requires IsNew(s, id)
  {
    s.(nodes := s.nodes[id := Node(s.nodes[id].who, K.Arrive(K.NewClient(), Notice(sender)), [], [])],
       ears := s.ears + {id})
  }

  function Connection(app: string): Out {
    Out(K.Msg(Send, SEND_KEY, app, None), SERVER, B.ConnectSignal(true))
  }

  lemma ConnectionSaid(s: System, id: IceConn, app: string)
    requires B.ValidNames(s.server) && IsNew(s, id)
    ensures var ev := Say(id, Send, 0, app, SERVER, B.ConnectSignal(true));
            && Possible(s, ev) && Step(s, ev) == s.(nodes := s.nodes[id := s.nodes[id].(outbox := [Connection(app)])])
            && Possible(Step(s, ev), Serve(id)) && !Disciplined(Step(s, ev), Serve(id))
  {
    var ev := Say(id, Send, 0, app, SERVER, B.ConnectSignal(true));
    assert Said(s.nodes[id], ev) == s.nodes[id].(outbox := [Connection(app)]);
  }

  lemma ConnectionServed(s: System, id: IceConn, app: string)
    requires B.ValidNames(s.server) && IsNew(s, id)
    ensures var said := s.(nodes := s.nodes[id := s.nodes[id].(outbox := [Connection(app)])]);
            && Possible(said, Serve(id)) && Step(said, Serve(id)) == s.(ears := s.ears + {id})
  {
    var said := s.(nodes := s.nodes[id := s.nodes[id].(outbox := [Connection(app)])]);
    CastToNobody(s.nodes, CastOf(s.server, id, Connection(app)));
    assert Popped(said.nodes[id]).outbox == [];
    assert Popped(said.nodes[id]) == s.nodes[id];
    assert said.nodes[id := s.nodes[id]] == s.nodes;
  }

  lemma SignalRead(s: System, id: IceConn, sender: string)
    requires B.ValidNames(s.server) && IsNew(s, id)
    ensures var deaf := s.(ears := s.ears + {id});
            && Possible(deaf, Signal(id, sender)) && Possible(Step(deaf, Signal(id, sender)), Deliver(id))
            && Step(Step(deaf, Signal(id, sender)), Deliver(id)) == Misled(s, id, sender)
  {
    var n := Receiving(s.nodes[id], Notice(sender));
    assert n.inbox == [Notice(sender)] && Delivered(n).inbox == [];
    assert s.nodes[id := n][id := Delivered(n)] == Misled(s, id, sender).nodes;
  }

  /** What comes of a client that asks for signals before it has a key, whatever the state: it
      takes the key of the first signal for its own, without having been issued one. */
  lemma ListenerTakesKey(s: System, evs: seq<Event>, t: System, id: IceConn, app: string, sender: string)
    requires B.ValidNames(s.server) && Leads(s, evs, t) && IsNew(t, id)
    ensures Leads(s, evs + EarRun(id, app, sender), Misled(t, id, sender))
    ensures var u := Misled(t, id, sender); u.nodes[id].peer.key == SEND_KEY < B.FIRST_KEY && u.nodes[id].who !in u.keys
  {
    var ev := Say(id, Send, 0, app, SERVER, B.ConnectSignal(true));
    ConnectionSaid(t, id, app);
    LeadsOn(s, evs, t, ev, Step(t, ev));
    ConnectionServed(t, id, app);
    LeadsOn(s, evs + [ev], Step(t, ev), Serve(id), t.(ears := t.ears + {id}));
    SignalRead(t, id, sender);
    var heard := Step(t.(ears := t.ears + {id}), Signal(id, sender));
    LeadsOn(s, evs + [ev] + [Serve(id)], t.(ears := t.ears + {id}), Signal(id, sender), heard);
    LeadsOn(s, evs + [ev] + [Serve(id)] + [Signal(id, sender)], heard, Deliver(id), Misled(t, id, sender));
    FourInAll(evs, ev, Serve(id), Signal(id, sender), Deliver(id));
  }

  lemma FourInAll<T>(s: seq<T>, a: T, b: T, c: T, d: T)
    ensures s + [a] + [b] + [c] + [d] == s + [a, b, c, d]
  {
  }

  /** Two such clients have the same key. */
  lemma ListenersShareKey(suicide: bool, a: IceConn, b: IceConn, app: string, sender: string)
    requires a != b
    ensures var evs := [Join(a), Join(b)] + EarRun(a, app, sender) + EarRun(b, app, sender);
            AnyRun(Start(suicide), evs) &&
            var t := Play(Start(suicide), evs);
            && a in t.nodes && b in t.nodes && t.nodes[a].peer.key == t.nodes[b].peer.key == SEND_KEY && t.keys == map[]
  {
    var s := Two(suicide, a, b);
    TwoJoin(suicide, a, b);
    ListenerTakesKey(Start(suicide), [Join(a), Join(b)], s, a, app, sender);
    ListenerTakesKey(Start(suicide), [Join(a), Join(b)] + EarRun(a, app, sender), Misled(s, a, sender), b, app, sender);
  }

  // ------------------------------------------------------ a key sent to many

  function LateReply(key: CARD32, toApp: string, sender: string): Out {
    Out(K.Msg(ReplyDelayed, key, sender, None), toApp, B.Other(true))
  }

  /** A pattern of names that `to` matches. */
  predicate Matches(server: B.Server, toApp: string, to: IceConn) {
    B.IsPattern(toApp) && toApp !in server.appIds && to in B.Matching(server.appIds, toApp)
  }

  lemma LateReplySaid(t: System, id: IceConn, key: CARD32, toApp: string, sender: string)
    requires B.ValidNames(t.server) && id in t.nodes && t.nodes[id].outbox == []
    ensures var ev := Say(id, ReplyDelayed, key, sender, toApp, B.Other(true));
            && Possible(t, ev)
            && Step(t, ev) == t.(nodes := t.nodes[id := t.nodes[id].(outbox := [LateReply(key, toApp, sender)])])
  {
    var ev := Say(id, ReplyDelayed, key, sender, toApp, B.Other(true));
    assert Said(t.nodes[id], ev) == t.nodes[id].(outbox := [LateReply(key, toApp, sender)]);
  }

  lemma IsMiscast(server: B.Server, id: IceConn, to: IceConn, key: CARD32, toApp: string, sender: string)
    requires id in server.clients && Matches(server, toApp, to) && key != SEND_KEY
    ensures var o := LateReply(key, toApp, sender);
            && Miscast(server, id, o) && to in B.Broadcast(server, Asked(id, o))
            && CastOf(server, id, o) == K.Msg(Send, key, sender, None)
  {
  }

  lemma CastArrives(u: System, id: IceConn, to: IceConn)
    requires B.ValidNames(u.server) && id in u.server.clients && Possible(u, Serve(id))
    requires Miscast(u.server, id, u.nodes[id].outbox[0]) && to in u.nodes && id != to
    requires to in B.Broadcast(u.server, Asked(id, u.nodes[id].outbox[0]))
    ensures var v, o := Step(u, Serve(id)), u.nodes[id].outbox[0];
            to in v.nodes && v.nodes[to] == Receiving(u.nodes[to], CastOf(u.server, id, o))
  {
    RepliedIs(u.server, id, u.nodes[id].outbox[0]);
    assert Step(u, Serve(id)).nodes == Broadcasted(u.server, u.nodes, id);
  }

  lemma MatchIsOpen(t: System, id: IceConn, to: IceConn, o: Out)
    requires Inv(t) && to in B.Broadcast(t.server, Asked(id, o))
    ensures to in t.nodes
  {
    BroadcastReaches(t.server, Whos(t.nodes), t.keys, Asked(id, o));
  }

  /** What comes of a ReplyDelayed to a pattern of names that another client matches: it is sent
      a message of the kind Send with the key of the reply. */
  lemma ForeignCast(t: System, id: IceConn, to: IceConn, key: CARD32, toApp: string, sender: string)
    requires Inv(t) && id in t.nodes && t.nodes[id].outbox == [] && id != to
    requires Matches(t.server, toApp, to) && key != SEND_KEY
    ensures var ev := Say(id, ReplyDelayed, key, sender, toApp, B.Other(true));
            Possible(t, ev) && B.ValidNames(t.server) &&
            var u := Step(t, ev);
            Inv(u) && Possible(u, Serve(id)) && B.ValidNames(u.server) &&
            var v := Step(u, Serve(id));
            && !Inv(v) && to in t.nodes && to in v.nodes
            && v.nodes[to] == Receiving(t.nodes[to], K.Msg(Send, key, sender, None))
  {
    ForeignSaid(t, id, to, key, toApp, sender);
    ForeignServed(Step(t, Say(id, ReplyDelayed, key, sender, toApp, B.Other(true))), id, to);
  }

  lemma ForeignSaid(t: System, id: IceConn, to: IceConn, key: CARD32, toApp: string, sender: string)
    requires Inv(t) && id in t.nodes && t.nodes[id].outbox == [] && id != to
    requires Matches(t.server, toApp, to) && key != SEND_KEY
    ensures var ev, o := Say(id, ReplyDelayed, key, sender, toApp, B.Other(true)), LateReply(key, toApp, sender);
            Possible(t, ev) && B.ValidNames(t.server) &&
            var u := Step(t, ev);
            && Inv(u) && Possible(u, Serve(id)) && u.nodes[id].outbox[0] == o && Miscast(u.server, id, o)
            && to in t.nodes && to in u.nodes && u.nodes[to] == t.nodes[to] && to in B.Broadcast(u.server, Asked(id, o))
            && CastOf(u.server, id, o) == K.Msg(Send, key, sender, None)
  {
    var ev, o := Say(id, ReplyDelayed, key, sender, toApp, B.Other(true)), LateReply(key, toApp, sender);
    InvBasics(t);
    LateReplySaid(t, id, key, toApp, sender);
    ClientKeeps(t, ev);
    IsMiscast(t.server, id, to, key, toApp, sender);
    MatchIsOpen(t, id, to, o);
  }

  lemma ForeignServed(u: System, id: IceConn, to: IceConn)
    requires Inv(u) && Possible(u, Serve(id)) && Miscast(u.server, id, u.nodes[id].outbox[0])
    requires to in u.nodes && id != to && to in B.Broadcast(u.server, Asked(id, u.nodes[id].outbox[0]))
    ensures B.ValidNames(u.server) &&
            var v := Step(u, Serve(id));
            && !Inv(v) && to in v.nodes
            && v.nodes[to] == Receiving(u.nodes[to], CastOf(u.server, id, u.nodes[id].outbox[0]))
  {
    InvBasics(u);
    MiscastBreaks(u, id);
    CastArrives(u, id, to);
  }

  lemma NamesMatch(server: B.Server, a: IceConn, b: IceConn)
    requires server.appIds == map["a" := a, "b" := b]
    ensures Matches(server, "a*", a)
  {
    assert "a" in server.appIds && "a*"[..1] <= "a" && server.appIds["a"] == a;
  }

  /** There are such states. */
  lemma ForeignCastReached(suicide: bool, a: IceConn, b: IceConn) returns (evs: seq<Event>, t: System)
    requires a != b
    ensures Reaches(Start(suicide), evs, t) && b in t.nodes && t.nodes[b].outbox == [] && Matches(t.server, "a*", a)
  {
    evs, t := BothNamed(suicide, a, b);
    NamesMatch(t.server, a, b);
  }
}
