/** One server and its clients: what the keys of messages say about the chains of
    calls the messages belong to. Clients come and go, and connection handles come back. */
module CallChains {
  import B = Broker
  import P = BrokerProofs
  import Q = BrokerRemoval
  import R = BrokerRuns
  import opened ClientKeys
  import opened DcopTypes
  import opened Options
  import opened PtrLists
  import opened Registry

  /** A client from its connection on to its end, the how-manieth there was. Its handle
      may be given to another client later. */
  type Who = nat

  /** The client whose call began the chain that a message belongs to. */
  type Origin = Option<Who>

  type Peer = Client<Origin>

  type Hop = Msg<Origin>

  type Keys = map<Who, CARD32>

  const SERVER := "DCOPServer"

  /** A message on its way to the server. */
  datatype Out = Out(hop: Hop, toApp: string, request: B.Request)

  /** A client, what is on its way to it, and what is on its way from it. */
  datatype Node = Node(who: Who, peer: Peer, inbox: seq<Hop>, outbox: seq<Out>)

  type Nodes = map<IceConn, Node>

  /** `joined` counts the clients there were, `keys` records the key that was issued
      first to each of them, `ears` the open handles that have connected a signal. */
  datatype System = System(server: B.Server, nodes: Nodes, joined: nat, keys: Keys, ears: set<IceConn>)

  function Start(suicide: bool): (s: System)
    ensures Inv(s)
  {
    System(B.Initial(suicide), map[], 0, map[], {})
  }

  datatype Event =
    | Join(id: IceConn)
    | Leave(id: IceConn)
    | Say(id: IceConn, opcode: Opcode, key: CARD32, sender: string, toApp: string, request: B.Request)
    | Serve(id: IceConn)
    | Signal(id: IceConn, sender: string)
    | Deliver(id: IceConn)
    | Local(id: IceConn, ev: ClientKeys.Event<Origin>)

  // ------------------------------------------------------------------ steps

  const SEND_KEY: CARD32 := 1

  /** The client at whose call the work began that a stack of frames is doing. */
  function OriginOf(stack: seq<Frame<Origin>>, self: Who): Origin {
    if stack == [] then None
    else
      var below := OriginOf(stack[..|stack| - 1], self);
      match stack[|stack| - 1]
      case Calling(_, key) => if key == 0 then None else if below.Some? then below else Some(self)
      case Handling(_, m) => if m.opcode == Send then below else m.tag
  }

  predicate IsCall(opcode: Opcode) {
    opcode == Call || opcode == Find
  }

  /** What the client does when it sends: a call starts to wait. */
  function Speak(p: Peer, opcode: Opcode): Peer {
    if IsCall(opcode) then BeginCall(p) else p
  }

  function Spoken(who: Who, p: Peer, ev: Event): Hop
    requires ev.Say?
  {
    if IsCall(ev.opcode) then
      var c := BeginCall(p);
      Msg(ev.opcode, c.currentKey, ev.sender, OriginOf(c.stack, who))
    else if ev.opcode == Send then Msg(Send, SEND_KEY, ev.sender, None)
    else Msg(ev.opcode, ev.key, ev.sender, None)
  }

  /** What the server is told by the first message from a client. */
  function Asked(id: IceConn, o: Out): B.Event {
    B.Message(id, o.hop.opcode, o.hop.key, o.toApp, o.request)
  }

  function Served(server: B.Server, id: IceConn, o: Out): B.Outcome
    requires B.ValidNames(server)
  {
    B.Step(server, Asked(id, o))
  }

  function Receiving(n: Node, m: Hop): Node {
    n.(inbox := n.inbox + [m])
  }

  /** What the server sent goes to the queues of its receivers. */
  function Spread(nodes: Nodes, sent: seq<B.Sent>, hop: Hop): Nodes {
    if sent == [] then nodes
    else
      var x := sent[0];
      var m := Msg(x.opcode, x.key, hop.sender, hop.tag);
      Spread(if x.to in nodes then nodes[x.to := Receiving(nodes[x.to], m)] else nodes, sent[1..], hop)
  }

  /** A signal that somebody emitted, or a notice about a name. */
  function Notice(sender: string): Hop {
    Msg(Send, SEND_KEY, sender, None)
  }

  /** The message that goes to many clients when the server gets to a message. */
  function CastOf(server: B.Server, id: IceConn, o: Out): Hop {
    if B.IsMulticast(server, Asked(id, o)) then Msg(Send, o.hop.key, o.hop.sender, None) else Notice(SERVER)
  }

  function Cast(nodes: Nodes, to: set<IceConn>, m: Hop): Nodes {
    map h | h in nodes :: if h in to then Receiving(nodes[h], m) else nodes[h]
  }

  /** Messages about aborted calls belong to no chain. */
  const ABORT: Hop := Msg(ReplyFailed, SEND_KEY, "", None)

  /** The key that a client without one is given with the server's answer. */
  function Issue(keys: Keys, who: Who, sent: seq<B.Sent>): Keys {
    if who !in keys && sent != [] && sent[0].from.None? then keys[who := sent[0].key] else keys
  }

  predicate Possible(s: System, ev: Event) {
    match ev
    case Join(id) => id !in s.server.clients && id !in s.nodes
    case Leave(id) => id in s.server.clients && id in s.nodes
    case Say(id, _, _, _, _, _) => id in s.nodes
    case Serve(id) => id in s.nodes && s.nodes[id].outbox != []
    case Signal(id, _) => id in s.nodes && id in s.ears
    case Deliver(id) => id in s.nodes && s.nodes[id].inbox != []
    case Local(id, ev) => id in s.nodes && !ev.Arrival? && !ev.CallBegins? && ClientKeys.Possible(s.nodes[id].peer, ev)
  }

  function Said(n: Node, ev: Event): Node
    requires ev.Say?
  {
    Node(n.who, Speak(n.peer, ev.opcode), n.inbox, n.outbox + [Out(Spoken(n.who, n.peer, ev), ev.toApp, ev.request)])
  }

  function Delivered(n: Node): Node
    requires n.inbox != []
  {
    n.(peer := Arrive(n.peer, n.inbox[0]), inbox := n.inbox[1..])
  }

  function Popped(n: Node): Node
    requires n.outbox != []
  {
    n.(outbox := n.outbox[1..])
  }

  /** A message that the server looks into itself. */
  predicate Heeded(server: B.Server, o: Out) {
    B.ForServer(o.hop.opcode, o.toApp) && o.toApp !in server.appIds
  }

  /** A message that makes the server give its sender a name. */
  predicate Registers(server: B.Server, o: Out) {
    Heeded(server, o) && o.request.RegisterAs? && o.request.app != ""
  }

  /** A message after which its sender gets notices about names. */
  predicate AsksNotices(server: B.Server, o: Out) {
    Heeded(server, o) && o.request == B.SetNotifications(true)
  }

  /** A message after which its sender gets signals. */
  predicate Connects(server: B.Server, o: Out) {
    Heeded(server, o) && o.request == B.ConnectSignal(true)
  }

  /** The queues of the clients after the first message of one of them was taken and
      perhaps sent on to many. */
  function Broadcasted(server: B.Server, nodes: Nodes, id: IceConn): Nodes
    requires id in nodes && nodes[id].outbox != []
  {
    var n := nodes[id];
    Cast(nodes[id := Popped(n)], B.Broadcast(server, Asked(id, n.outbox[0])), CastOf(server, id, n.outbox[0]))
  }

  /** The queues after a client has left. */
  function Left(server: B.Server, nodes: Nodes, id: IceConn): Nodes
    requires id in server.clients
  {
    Cast(Spread(nodes - {id}, B.RemoveConnection(server, id).sent, ABORT), B.Broadcast(server, B.Disconnect(id)),
         Notice(SERVER))
  }

  function Step(s: System, ev: Event): System
    requires B.ValidNames(s.server) && Possible(s, ev)
  {
    match ev
    case Join(id) =>
      var n := Node(s.joined, NewClient(), [], []);
      System(B.Step(s.server, B.Connect(id)).server, s.nodes[id := n], s.joined + 1, s.keys, s.ears)
    case Leave(id) =>
      s.(server := B.RemoveConnection(s.server, id).server, nodes := Left(s.server, s.nodes, id), ears := s.ears - {id})
    case Say(id, _, _, _, _, _) => s.(nodes := s.nodes[id := Said(s.nodes[id], ev)])
    case Serve(id) =>
      var n := s.nodes[id];
      var o := n.outbox[0];
      var r := Served(s.server, id, o);
      s.(server := r.server,
         nodes := Spread(Broadcasted(s.server, s.nodes, id), r.sent, o.hop),
         keys := Issue(s.keys, n.who, r.sent),
         ears := if Connects(s.server, o) then s.ears + {id} else s.ears)
    case Signal(id, sender) => s.(nodes := s.nodes[id := Receiving(s.nodes[id], Notice(sender))])
    case Deliver(id) => s.(nodes := s.nodes[id := Delivered(s.nodes[id])])
    case Local(id, ev) => s.(nodes := s.nodes[id := s.nodes[id].(peer := ClientKeys.Step(s.nodes[id].peer, ev))])
  }

  /** A message to a pattern of names that somebody is sent a message of the kind Send for,
      although it was none, or not with the key of one. */
  predicate Miscast(server: B.Server, id: IceConn, o: Out) {
    B.IsMulticast(server, Asked(id, o)) && B.Broadcast(server, Asked(id, o)) != {} && o.hop.key != SEND_KEY
  }

  /** What the keys need of a message when the server gets to it: an answer is fit for the
      books; before the server gave it a key, a client calls no other one, and registers and
      asks for signals or notices in no other way than by a call; nobody takes the server's
      name; what is sent to many has the key of a Send; and keys have not run out. */
  predicate Disciplined(s: System, ev: Event)
    requires Possible(s, ev)
  {
    match ev
    case Serve(id) =>
      var o := s.nodes[id].outbox[0];
      var known := s.nodes[id].who in s.keys || o.hop.opcode == Call;
      && B.Conforming(s.server, Asked(id, o))
      && (Keyless(o.hop) ==> o.toApp !in s.server.appIds && s.server.serverKey < CARD32_SIZE - 1)
      && (Registers(s.server, o) ==> o.request.app != SERVER && known)
      && (AsksNotices(s.server, o) || Connects(s.server, o) ==> known)
      && !Miscast(s.server, id, o)
    case _ => true
  }

  // ------------------------------------------------------------- invariants

  function KeyOf(keys: Keys, o: Origin): CARD32 {
    if o.Some? && o.value in keys then keys[o.value] else 0
  }

  ghost predicate Known(keys: Keys, o: Origin) {
    o.Some? ==> o.value in keys
  }

  /** A call carries the key of the client that its chain began with. */
  ghost predicate Marked(keys: Keys, m: Hop) {
    && (IsCall(m.opcode) ==> m.tag.Some? && m.tag.value in keys && m.key == keys[m.tag.value])
    && (m.opcode == Send ==> m.tag == None && m.key == SEND_KEY)
  }

  ghost predicate AllMarked(keys: Keys, ms: seq<Hop>) {
    forall i :: 0 <= i < |ms| ==> Marked(keys, ms[i])
  }

  /** Each level of a stack works under the key of its origin. */
  ghost predicate Tracked(keys: Keys, stack: seq<Frame<Origin>>, self: Who) {
    stack == [] ||
    (Tracked(keys, stack[..|stack| - 1], self)
     && Known(keys, OriginOf(stack, self)) && Level(stack) == KeyOf(keys, OriginOf(stack, self)))
  }

  /** A call without a key. */
  predicate Keyless(m: Hop) {
    IsCall(m.opcode) && m.key == 0
  }

  /** A message to the server. A client that was issued no key yet calls without one. */
  ghost predicate GoodOut(keys: Keys, m: Hop, isNew: bool) {
    (Marked(keys, m) || Keyless(m)) && (isNew && IsCall(m.opcode) ==> Keyless(m))
  }

  ghost predicate GoodOuts(keys: Keys, os: seq<Out>, isNew: bool) {
    forall i :: 0 <= i < |os| ==> GoodOut(keys, os[i].hop, isNew)
  }

  /** A client has no key, or is about to read it, or has the key issued to it. */
  ghost predicate HasIssued(keys: Keys, who: Who, p: Peer, inbox: seq<Hop>) {
    && (p.key != 0 ==> who in keys && keys[who] == p.key)
    && (p.key == 0 ==> (who in keys <==> inbox != []) && (inbox != [] ==> inbox[0].key == keys[who]))
    && (p.key == 0 ==> p.currentKey == 0 && p.messages == [])
  }

  ghost predicate AllRequests(ms: seq<Hop>) {
    forall i :: 0 <= i < |ms| ==> IsRequest(ms[i].opcode)
  }

  ghost predicate GoodState(keys: Keys, who: Who, p: Peer) {
    ClientKeys.Inv(p) && Tracked(keys, p.stack, who) && AllMarked(keys, p.messages) && AllRequests(p.messages)
  }

  ghost predicate GoodNode(keys: Keys, n: Node) {
    && HasIssued(keys, n.who, n.peer, n.inbox)
    && GoodState(keys, n.who, n.peer) && AllMarked(keys, n.inbox)
    && GoodOuts(keys, n.outbox, n.who !in keys)
  }

  ghost predicate GoodNodes(keys: Keys, nodes: Nodes) {
    forall id | id in nodes :: GoodNode(keys, nodes[id])
  }

  /** Keys are issued from 42 on, to each client a different one. */
  ghost predicate Distinct(keys: Keys, next: CARD32) {
    && (forall a | a in keys :: B.FIRST_KEY <= keys[a] < next)
    && (forall a, b | a in keys && b in keys && keys[a] == keys[b] :: a == b)
  }

  type Owners = map<IceConn, Who>

  /** Who has each open handle. */
  function Whos(nodes: Nodes): Owners {
    map h | h in nodes :: nodes[h].who
  }

  /** No two open handles are of one client, and later clients are new ones. */
  ghost predicate Different(whos: Owners, keys: Keys, joined: nat) {
    && (forall h | h in whos :: whos[h] < joined)
    && (forall h, g | h in whos && g in whos && whos[h] == whos[g] :: h == g)
    && (forall w | w in keys :: w < joined)
  }

  /** The open handles of clients that were issued a key. */
  ghost function Holders(whos: Owners, keys: Keys): set<IceConn> {
    set h | h in whos && whos[h] in keys
  }

  /** Only clients that were issued a key can be addressed, none by the server's name. */
  ghost predicate GoodNames(appIds: map<string, IceConn>, holders: set<IceConn>) {
    forall n | n in appIds :: n != SERVER && appIds[n] in holders
  }

  ghost predicate Within(list: seq<IceConn>, holders: set<IceConn>) {
    forall x | x in list :: x in holders
  }

  /** Only clients that were issued a key are waited for in the server's lists. */
  ghost predicate GoodLists(cl: B.Clients, holders: set<IceConn>) {
    forall c | c in cl :: Within(cl[c].waitingForReply, holders) && Within(cl[c].waitingForDelayedReply, holders)
  }

  /** Only clients that were issued a key get notices. */
  ghost predicate GoodNotices(cl: B.Clients, holders: set<IceConn>) {
    forall c | c in cl :: cl[c].notifyRegister > 0 ==> c in holders
  }

  ghost predicate GoodServer(server: B.Server, whos: Owners, keys: Keys) {
    && B.Inv(server) && server.clients.Keys == whos.Keys
    && GoodNames(server.appIds, Holders(whos, keys)) && GoodLists(server.clients, Holders(whos, keys))
    && GoodNotices(server.clients, Holders(whos, keys))
    && B.FIRST_KEY <= server.serverKey && Distinct(keys, server.serverKey)
  }

  /** Only clients that were issued a key get signals. */
  ghost predicate GoodEars(s: System) {
    s.ears <= Holders(Whos(s.nodes), s.keys)
  }

  ghost predicate Sound(s: System) {
    && GoodServer(s.server, Whos(s.nodes), s.keys)
    && Different(Whos(s.nodes), s.keys, s.joined)
    && GoodNodes(s.keys, s.nodes)
  }

  ghost predicate Inv(s: System) {
    Sound(s) && GoodEars(s)
  }

  // ----------------------------------------------- what the steps do to a peer

  lemma TrackPush(keys: Keys, stack: seq<Frame<Origin>>, f: Frame<Origin>, self: Who)
    requires Tracked(keys, stack, self)
    requires Known(keys, OriginOf(stack + [f], self)) && Level(stack + [f]) == KeyOf(keys, OriginOf(stack + [f], self))
    ensures Tracked(keys, stack + [f], self)
  {
    assert (stack + [f])[..|stack|] == stack;
  }

  lemma OriginKeyed(keys: Keys, next: CARD32, stack: seq<Frame<Origin>>, self: Who)
    requires Distinct(keys, next) && Tracked(keys, stack, self)
    ensures OriginOf(stack, self).None? <==> Level(stack) == 0
  {
  }

  lemma EnterTracked(keys: Keys, next: CARD32, p: Peer, m: Hop, self: Who)
    requires Distinct(keys, next) && Tracked(keys, p.stack, self) && Marked(keys, m) && IsRequest(m.opcode)
    ensures Tracked(keys, Enter(p, m).stack, self)
  {
    var f := Handling(p.currentKey, m);
    assert (p.stack + [f])[..|p.stack|] == p.stack;
    assert p.stack == [] ==> Level(p.stack) == 0 && OriginOf(p.stack, self) == None;
    TrackPush(keys, p.stack, f, self);
  }

  lemma CallTracked(keys: Keys, next: CARD32, p: Peer, self: Who)
    requires Distinct(keys, next) && Tracked(keys, p.stack, self) && p.currentKey == Level(p.stack)
    requires p.key != 0 ==> self in keys && keys[self] == p.key
    ensures Tracked(keys, BeginCall(p).stack, self)
  {
    var f := Calling(p.currentKey, CallKey(p));
    OriginKeyed(keys, next, p.stack, self);
    assert (p.stack + [f])[..|p.stack|] == p.stack;
    TrackPush(keys, p.stack, f, self);
  }

  lemma LevelDown(stack: seq<Frame<Origin>>)
    requires stack != [] && Nested(stack) && Level(stack) == 0
    ensures Level(stack[..|stack| - 1]) == 0
  {
  }

  lemma ArriveKeeps(keys: Keys, next: CARD32, who: Who, p: Peer, m: Hop)
    requires Distinct(keys, next) && GoodState(keys, who, p) && Marked(keys, m)
    ensures GoodState(keys, who, Arrive(p, m))
  {
    ClientKeys.StepKeeps(p, Arrival(m));
    ArrivedIs(p, m);
    if IsRequest(m.opcode) && !Refuses(p, m) && !Foreign(p, m) {
      EnterTracked(keys, next, p, m, who);
    }
  }

  lemma ArrivedIs(p: Peer, m: Hop)
    ensures var q := Arrive(p, m);
            var taken := IsRequest(m.opcode) && !Refuses(p, m);
            && q.stack == (if taken && !Foreign(p, m) then Enter(p, m).stack else p.stack)
            && q.messages == (if taken && Foreign(p, m) then p.messages + [m] else p.messages)
  {
  }

  lemma TakeIsGood(keys: Keys, ms: seq<Hop>, i: nat)
    requires i < |ms| && AllMarked(keys, ms) && AllRequests(ms)
    ensures AllMarked(keys, Take(ms, i)) && AllRequests(Take(ms, i))
    ensures Marked(keys, ms[i]) && IsRequest(ms[i].opcode)
  {
  }

  lemma PostedIsTracked(keys: Keys, next: CARD32, who: Who, p: Peer, i: nat)
    requires Distinct(keys, next) && i < |p.messages| && Tracked(keys, p.stack, who)
    requires Marked(keys, p.messages[i]) && IsRequest(p.messages[i].opcode) && p.iterators != []
    ensures Tracked(keys, RunPosted(p, i).stack, who) && RunPosted(p, i).messages == Take(p.messages, i)
  {
    if !Refuses(p, p.messages[i]) {
      EnterTracked(keys, next, TakeOut(p, i), p.messages[i], who);
    }
  }

  lemma LocalKeepsState(keys: Keys, next: CARD32, who: Who, p: Peer, ev: ClientKeys.Event<Origin>)
    requires Distinct(keys, next) && GoodState(keys, who, p) && ClientKeys.Possible(p, ev) && !ev.Arrival?
             && !ev.CallBegins?
    ensures GoodState(keys, who, ClientKeys.Step(p, ev))
  {
    ClientKeys.StepKeeps(p, ev);
    if ev.Posted? {
      TakeIsGood(keys, p.messages, ev.index);
      PostedIsTracked(keys, next, who, p, ev.index);
    }
  }

  lemma SpeakKeeps(keys: Keys, next: CARD32, who: Who, p: Peer, inbox: seq<Hop>, opcode: Opcode)
    requires Distinct(keys, next) && GoodState(keys, who, p) && HasIssued(keys, who, p, inbox)
    ensures GoodState(keys, who, Speak(p, opcode)) && HasIssued(keys, who, Speak(p, opcode), inbox)
  {
    if IsCall(opcode) {
      ClientKeys.StepKeeps(p, CallBegins);
      CallTracked(keys, next, p, who);
    }
  }

  /** What a client sends is marked with its origin, or is a call without a key. */
  lemma SpokenIsGood(keys: Keys, next: CARD32, who: Who, p: Peer, inbox: seq<Hop>, ev: Event)
    requires Distinct(keys, next) && GoodState(keys, who, p) && HasIssued(keys, who, p, inbox) && ev.Say?
    ensures GoodOut(keys, Spoken(who, p, ev), who !in keys)
    ensures IsCall(ev.opcode) ==> (Keyless(Spoken(who, p, ev)) <==> p.key == 0)
  {
    if IsCall(ev.opcode) {
      var c := BeginCall(p);
      CallTracked(keys, next, p, who);
      OriginKeyed(keys, next, c.stack, who);
      TopLevel(p);
    }
  }

  lemma TopLevel(p: Peer)
    ensures Level(BeginCall(p).stack) == BeginCall(p).currentKey
  {
  }

  lemma SaidIsGood(keys: Keys, next: CARD32, n: Node, ev: Event)
    requires Distinct(keys, next) && GoodNode(keys, n) && ev.Say?
    ensures GoodNode(keys, Said(n, ev))
  {
    SpeakKeeps(keys, next, n.who, n.peer, n.inbox, ev.opcode);
    SpokenIsGood(keys, next, n.who, n.peer, n.inbox, ev);
  }

  lemma DeliveredIsGood(keys: Keys, next: CARD32, n: Node)
    requires Distinct(keys, next) && GoodNode(keys, n) && n.inbox != []
    ensures GoodNode(keys, Delivered(n))
  {
    ArriveKeeps(keys, next, n.who, n.peer, n.inbox[0]);
    assert AllMarked(keys, n.inbox[1..]);
  }

  lemma LocalKeepsIssued(keys: Keys, who: Who, p: Peer, inbox: seq<Hop>, ev: ClientKeys.Event<Origin>)
    requires ClientKeys.Inv(p) && HasIssued(keys, who, p, inbox)
    requires ClientKeys.Possible(p, ev) && !ev.Arrival? && !ev.CallBegins?
    ensures HasIssued(keys, who, ClientKeys.Step(p, ev), inbox)
  {
    if p.key == 0 && p.stack != [] {
      LevelDown(p.stack);
    }
  }

  lemma OneWho(nodes: Nodes, id: IceConn, n: Node)
    ensures Whos(nodes[id := n]) == Whos(nodes)[id := n.who]
    ensures id in nodes && nodes[id].who == n.who ==> Whos(nodes[id := n]) == Whos(nodes)
  {
  }

  lemma OneNode(keys: Keys, nodes: Nodes, id: IceConn, n: Node)
    requires GoodNodes(keys, nodes) && GoodNode(keys, n)
    ensures GoodNodes(keys, nodes[id := n]) && Whos(nodes[id := n]) == Whos(nodes)[id := n.who]
    ensures id in nodes && nodes[id].who == n.who ==> Whos(nodes[id := n]) == Whos(nodes)
  {
    OneWho(nodes, id, n);
    var after := nodes[id := n];
    forall x | x in after ensures GoodNode(keys, after[x]) {
      if x != id {
        assert GoodNode(keys, nodes[x]);
      }
    }
  }

  /** What clients do on their own. */
  lemma ClientKeeps(s: System, ev: Event)
    requires Inv(s) && Possible(s, ev) && (ev.Say? || ev.Deliver? || ev.Local?)
    ensures Inv(Step(s, ev))
  {
    var n, next := s.nodes[ev.id], s.server.serverKey;
    match ev
    case Say(_, _, _, _, _, _) =>
      SaidIsGood(s.keys, next, n, ev);
      OneNode(s.keys, s.nodes, ev.id, Said(n, ev));
    case Deliver(_) =>
      DeliveredIsGood(s.keys, next, n);
      OneNode(s.keys, s.nodes, ev.id, Delivered(n));
    case Local(_, local) =>
      LocalKeepsState(s.keys, next, n.who, n.peer, local);
      LocalKeepsIssued(s.keys, n.who, n.peer, n.inbox, local);
      OneNode(s.keys, s.nodes, ev.id, n.(peer := ClientKeys.Step(n.peer, local)));
  }

  lemma JoinedHolders(whos: Owners, keys: Keys, joined: nat, id: IceConn)
    requires Different(whos, keys, joined) && id !in whos
    ensures Holders(whos[id := joined], keys) == Holders(whos, keys)
    ensures Different(whos[id := joined], keys, joined + 1)
  {
  }

  lemma JoinedServer(server: B.Server, whos: Owners, keys: Keys, joined: nat, id: IceConn)
    requires GoodServer(server, whos, keys) && Different(whos, keys, joined) && id !in whos
    ensures GoodServer(B.Step(server, B.Connect(id)).server, whos[id := joined], keys)
    ensures Different(whos[id := joined], keys, joined + 1)
  {
    R.ConnectKeeps(server, id);
    JoinedHolders(whos, keys, joined, id);
  }

  lemma NewNode(keys: Keys, who: Who)
    requires who !in keys
    ensures GoodNode(keys, Node(who, NewClient(), [], []))
  {
  }

  /** A state, one part after the other. */
  lemma InvIs(t: System, server: B.Server, whos: Owners, keys: Keys)
    requires t.server == server && Whos(t.nodes) == whos && t.keys == keys
    requires GoodNodes(t.keys, t.nodes) && Different(whos, keys, t.joined)
    ensures Inv(t) <==> GoodServer(server, whos, keys) && t.ears <= Holders(whos, keys)
  {
  }

  lemma JoinKeeps(s: System, id: IceConn)
    requires Inv(s) && Possible(s, Join(id))
    ensures Inv(Step(s, Join(id)))
  {
    JoinedServer(s.server, Whos(s.nodes), s.keys, s.joined, id);
    NewNode(s.keys, s.joined);
    OneNode(s.keys, s.nodes, id, Node(s.joined, NewClient(), [], []));
    JoinedHolders(Whos(s.nodes), s.keys, s.joined, id);
    InvIs(Step(s, Join(id)), B.Step(s.server, B.Connect(id)).server, Whos(s.nodes)[id := s.joined], s.keys);
  }

  // -------------------------------------------------------------- the server

  /** The client's own name never becomes the server's. */
  lemma NotTheServersName(names: set<string>, app: string)
    requires app != SERVER
    ensures UniqueName(names, app) != SERVER
  {
    var r := UniqueName(names, app);
    if r != app {
      var n := FreeSuffix(names, app, 2);
      assert r[|app|] == '-';
      assert '-' in r && '-' !in SERVER;
    }
  }

  /** A client that registers gets the server's name exactly when it asks for that name
      and no other client has it. */
  lemma TakesServersNameExactly(server: B.Server, id: IceConn, app: string)
    requires B.ValidNames(server) && id in server.clients && app != ""
    ensures var names := B.Register(server, id, app).appIds;
            && (SERVER in names && names[SERVER] == id
                <==> app == SERVER && (SERVER in server.appIds ==> server.appIds[SERVER] == id))
            && (SERVER !in server.appIds ==> (SERVER in names <==> app == SERVER))
  {
    var ids := B.ReleaseName(server.appIds, server.clients[id].appId, id);
    if app != SERVER {
      NotTheServersName(ids.Keys, app);
    } else if SERVER in ids {
      var r := UniqueName(ids.Keys, app);
      assert r != SERVER;
    }
  }

  /** Registering leaves the server's name free, and names only clients with a key, exactly
      when a client with a key asks for another name. */
  lemma RegisterKeepsNamesExactly(server: B.Server, id: IceConn, app: string, holders: set<IceConn>)
    requires B.ValidNames(server) && id in server.clients && app != "" && GoodNames(server.appIds, holders)
    ensures GoodNames(B.Register(server, id, app).appIds, holders) <==> app != SERVER && id in holders
  {
    TakesServersNameExactly(server, id, app);
    var ids := B.ReleaseName(server.appIds, server.clients[id].appId, id);
    var r := UniqueName(ids.Keys, app);
    assert r in B.Register(server, id, app).appIds;
    if app != SERVER {
      NotTheServersName(ids.Keys, app);
    }
  }

  lemma ReceivedNames(server: B.Server, id: IceConn, request: B.Request, holders: set<IceConn>)
    requires B.ValidNames(server) && id in server.clients && GoodNames(server.appIds, holders)
    ensures GoodNames(B.Receive(server, id, request).0.appIds, holders)
            <==> (request.RegisterAs? && request.app != "" ==> request.app != SERVER && id in holders)
  {
    if request.RegisterAs? && request.app != "" {
      RegisterKeepsNamesExactly(server, id, request.app, holders);
    }
  }

  lemma UnroutedNames(server: B.Server, id: IceConn, o: Out, holders: set<IceConn>)
    requires B.ValidNames(server) && id in server.clients && GoodNames(server.appIds, holders)
             && o.toApp !in server.appIds
    ensures GoodNames(Served(server, id, o).server.appIds, holders)
            <==> (Registers(server, o) ==> o.request.app != SERVER && id in holders)
  {
    ReceivedNames(server, id, o.request, holders);
    AnsweredNames(server, id, o.hop.key);
    AnsweredNames(B.Receive(server, id, o.request).0, id, o.hop.key);
  }

  lemma AnsweredNames(server: B.Server, id: IceConn, key: CARD32)
    ensures forall ok ::
              var r := B.AnswerSelf(server, id, key, ok).server;
              r.clients == server.clients && r.appIds == server.appIds
  {
  }

  lemma RemoveRefWithin(list: seq<IceConn>, x: IceConn, holders: set<IceConn>)
    requires Within(list, holders)
    ensures Within(RemoveRef(list, x), holders)
  {
    RemoveRefCounts(list, x);
    forall y | y in RemoveRef(list, x) ensures y in holders {
      assert y in multiset(RemoveRef(list, x));
      assert y in multiset(list);
    }
  }

  lemma RouteKeepsLists(cl: B.Clients, id: IceConn, opcode: Opcode, t: IceConn, holders: set<IceConn>)
    requires GoodLists(cl, holders) && id in cl && t in cl && t in holders && (IsCall(opcode) ==> id in holders)
    ensures GoodLists(B.Route(cl, id, opcode, t), holders)
  {
    var cl' := B.Route(cl, id, opcode, t);
    RemoveRefWithin(cl[id].waitingForReply, t, holders);
    RemoveRefWithin(cl[id].waitingForDelayedReply, t, holders);
    forall c | c in cl'
      ensures Within(cl'[c].waitingForReply, holders) && Within(cl'[c].waitingForDelayedReply, holders)
    {
      match opcode
      case Send =>
      case Call | Find =>
      case ReplyDelayed => P.AnswerLateLists(cl, t, id, c);
      case Reply | ReplyFailed | ReplyWait => P.AnswerCallLists(cl, t, id, opcode == ReplyWait, c);
    }
  }

  lemma UnroutedLists(server: B.Server, id: IceConn, o: Out, holders: set<IceConn>)
    requires B.ValidNames(server) && id in server.clients && o.toApp !in server.appIds
             && GoodLists(server.clients, holders)
    ensures GoodLists(Served(server, id, o).server.clients, holders)
    ensures Served(server, id, o).server.clients.Keys == server.clients.Keys
  {
    ReceivedLists(server, id, o.request, holders);
    AnsweredNames(server, id, o.hop.key);
    AnsweredNames(B.Receive(server, id, o.request).0, id, o.hop.key);
  }

  lemma ReceivedLists(server: B.Server, id: IceConn, request: B.Request, holders: set<IceConn>)
    requires id in server.clients && GoodLists(server.clients, holders)
    ensures GoodLists(B.Receive(server, id, request).0.clients, holders)
    ensures B.Receive(server, id, request).0.clients.Keys == server.clients.Keys
  {
  }

  lemma ReceivedNotices(server: B.Server, id: IceConn, request: B.Request, holders: set<IceConn>)
    requires id in server.clients && GoodNotices(server.clients, holders)
    ensures GoodNotices(B.Receive(server, id, request).0.clients, holders)
            <==> (request == B.SetNotifications(true) ==> id in holders)
  {
    var cl := B.Receive(server, id, request).0.clients;
    assert id in cl;
  }

  lemma UnroutedNotices(server: B.Server, id: IceConn, o: Out, holders: set<IceConn>)
    requires B.ValidNames(server) && id in server.clients && o.toApp !in server.appIds
             && GoodNotices(server.clients, holders)
    ensures GoodNotices(Served(server, id, o).server.clients, holders) <==> (AsksNotices(server, o) ==> id in holders)
  {
    ReceivedNotices(server, id, o.request, holders);
    AnsweredNames(server, id, o.hop.key);
    AnsweredNames(B.Receive(server, id, o.request).0, id, o.hop.key);
  }

  /** A message for a registered client is passed on as it is. */
  lemma Forwarding(server: B.Server, id: IceConn, o: Out)
    requires B.ValidNames(server) && id in server.clients && o.toApp in server.appIds
    ensures var r := Served(server, id, o);
            && r.sent == [B.Sent(server.appIds[o.toApp], o.hop.opcode, o.hop.key, Some(id))]
            && r.server == server.(clients := B.Route(server.clients, id, o.hop.opcode, server.appIds[o.toApp]))
  {
  }

  /** The server's own answer, which issues a key to who has none. */
  ghost predicate Answered(key: CARD32, id: IceConn, sent: seq<B.Sent>, before: CARD32, after: CARD32) {
    && |sent| == 1 && sent[0].to == id && sent[0].from == None && !IsRequest(sent[0].opcode)
    && sent[0].key == (if key == 0 then before else key)
    && after == (if key == 0 then B.NextKey(before) else before)
  }

  lemma AnswersSelf(server: B.Server, id: IceConn, key: CARD32, ok: bool)
    ensures var r := B.AnswerSelf(server, id, key, ok); Answered(key, id, r.sent, server.serverKey, r.server.serverKey)
  {
  }

  /** The server answers calls itself that it cannot pass on, and drops other messages. */
  lemma Answering(server: B.Server, id: IceConn, o: Out)
    requires B.ValidNames(server) && id in server.clients && o.toApp !in server.appIds
    ensures var r := Served(server, id, o);
            if IsCall(o.hop.opcode) then Answered(o.hop.key, id, r.sent, server.serverKey, r.server.serverKey)
            else r.sent == [] && r.server.serverKey == server.serverKey
  {
    var (s1, ok) := B.Receive(server, id, o.request);
    R.ReceiveKeepsKey(server, id, o.request);
    AnswersSelf(s1, id, o.hop.key, ok);
    AnswersSelf(server, id, o.hop.key, false);
  }

  // ----------------------------------------------------------- more keys

  /** More keys are known. */
  ghost predicate Extends(keys: Keys, more: Keys) {
    forall a | a in keys :: a in more && more[a] == keys[a]
  }

  lemma {:induction false} TrackedMore(keys: Keys, more: Keys, stack: seq<Frame<Origin>>, self: Who)
    requires Extends(keys, more) && Tracked(keys, stack, self)
    ensures Tracked(more, stack, self)
    decreases |stack|
  {
    if stack != [] {
      TrackedMore(keys, more, stack[..|stack| - 1], self);
    }
  }

  lemma MarkedMore(keys: Keys, more: Keys, ms: seq<Hop>)
    requires Extends(keys, more) && AllMarked(keys, ms)
    ensures AllMarked(more, ms)
  {
    assert forall m :: Marked(keys, m) ==> Marked(more, m);
  }

  lemma OutsMore(keys: Keys, more: Keys, os: seq<Out>, isNew: bool)
    requires Extends(keys, more) && GoodOuts(keys, os, isNew)
    ensures GoodOuts(more, os, isNew) && GoodOuts(more, os, false)
  {
    assert forall m :: Marked(keys, m) ==> Marked(more, m);
  }

  lemma StateMore(keys: Keys, more: Keys, who: Who, p: Peer)
    requires Extends(keys, more) && GoodState(keys, who, p)
    ensures GoodState(more, who, p)
  {
    TrackedMore(keys, more, p.stack, who);
    MarkedMore(keys, more, p.messages);
  }

  /** A key issued to another client changes nothing. */
  lemma NodeMore(keys: Keys, more: Keys, n: Node)
    requires Extends(keys, more) && GoodNode(keys, n) && (n.who in more ==> n.who in keys)
    ensures GoodNode(more, n)
  {
    StateMore(keys, more, n.who, n.peer);
    MarkedMore(keys, more, n.inbox);
    OutsMore(keys, more, n.outbox, n.who !in keys);
  }

  lemma NodesMore(keys: Keys, nodes: Nodes, joined: nat, id: IceConn, key: CARD32, n: Node)
    requires GoodNodes(keys, nodes) && Different(Whos(nodes), keys, joined)
    requires id in nodes && n.who == nodes[id].who && n.who !in keys && GoodNode(keys[n.who := key], n)
    ensures GoodNodes(keys[n.who := key], nodes[id := n])
  {
    forall x | x in nodes && x != id ensures GoodNode(keys[n.who := key], nodes[x]) {
      assert Whos(nodes)[x] != Whos(nodes)[id];
      NodeMore(keys, keys[n.who := key], nodes[x]);
    }
  }

  /** One more client can be addressed. */
  lemma OneMoreHolder(whos: Owners, keys: Keys, joined: nat, id: IceConn, key: CARD32)
    requires Different(whos, keys, joined) && id in whos
    ensures Different(whos, keys[whos[id] := key], joined)
    ensures Holders(whos, keys[whos[id] := key]) == Holders(whos, keys) + {id}
  {
  }

  lemma MoreHolders(server: B.Server, holders: set<IceConn>, more: set<IceConn>)
    requires holders <= more
    ensures GoodNames(server.appIds, holders) ==> GoodNames(server.appIds, more)
    ensures GoodLists(server.clients, holders) ==> GoodLists(server.clients, more)
    ensures GoodNotices(server.clients, holders) ==> GoodNotices(server.clients, more)
  {
  }

  // ------------------------------------------------------- messages for clients

  lemma MarkedSnoc(keys: Keys, ms: seq<Hop>, m: Hop)
    requires AllMarked(keys, ms) && Marked(keys, m)
    ensures AllMarked(keys, ms + [m])
  {
  }

  /** A further message for a client that was issued a key. */
  lemma ReceivingIsGood(keys: Keys, n: Node, m: Hop)
    requires GoodNode(keys, n) && Marked(keys, m) && n.who in keys
    ensures GoodNode(keys, Receiving(n, m))
  {
    MarkedSnoc(keys, n.inbox, m);
  }

  /** The first message for a client is the answer that gives it its key. */
  lemma FirstAnswerIsGood(keys: Keys, n: Node, m: Hop)
    requires GoodNode(keys, n) && n.who !in keys && !IsRequest(m.opcode)
    ensures GoodNode(keys[n.who := m.key], Receiving(n, m))
  {
    var more := keys[n.who := m.key];
    assert n.inbox == [];
    StateMore(keys, more, n.who, n.peer);
    OutsMore(keys, more, n.outbox, true);
    assert n.inbox + [m] == [m];
  }

  lemma SpreadOne(nodes: Nodes, sent: seq<B.Sent>, hop: Hop)
    requires |sent| == 1 && sent[0].to in nodes
    ensures Spread(nodes, sent, hop)
         == nodes[sent[0].to := Receiving(nodes[sent[0].to], Msg(sent[0].opcode, sent[0].key, hop.sender, hop.tag))]
  {
  }

  lemma OneOfManyIsGood(keys: Keys, n: Node, reached: bool, m: Hop)
    requires GoodNode(keys, n) && (reached ==> Marked(keys, m) && n.who in keys)
    ensures GoodNode(keys, if reached then Receiving(n, m) else n)
  {
    if reached {
      ReceivingIsGood(keys, n, m);
    }
  }

  lemma CastWhos(nodes: Nodes, to: set<IceConn>, m: Hop)
    ensures Whos(Cast(nodes, to, m)) == Whos(nodes)
  {
  }

  lemma CastIsGood(keys: Keys, nodes: Nodes, to: set<IceConn>, m: Hop)
    requires GoodNodes(keys, nodes) && (to != {} ==> Marked(keys, m)) && to <= Holders(Whos(nodes), keys)
    ensures GoodNodes(keys, Cast(nodes, to, m)) && Whos(Cast(nodes, to, m)) == Whos(nodes)
  {
    CastWhos(nodes, to, m);
    var after := Cast(nodes, to, m);
    forall h | h in after ensures GoodNode(keys, after[h]) {
      assert h in to ==> nodes[h].who in keys;
      OneOfManyIsGood(keys, nodes[h], h in to, m);
    }
  }

  lemma CastToNobody(nodes: Nodes, m: Hop)
    ensures Cast(nodes, {}, m) == nodes
  {
  }

  /** What goes to many clients goes to clients that were issued a key. */
  lemma BroadcastReaches(server: B.Server, whos: Owners, keys: Keys, ev: B.Event)
    requires GoodServer(server, whos, keys)
    ensures B.Broadcast(server, ev) <= Holders(whos, keys)
  {
  }

  /** A signal reaches clients that were issued a key, or gives one a key that nobody issued it. */
  lemma NoticeKeepsExactly(keys: Keys, n: Node, sender: string)
    requires GoodNode(keys, n)
    ensures GoodNode(keys, Receiving(n, Notice(sender))) <==> n.who in keys
  {
    if n.who in keys {
      ReceivingIsGood(keys, n, Notice(sender));
    }
  }

  lemma SignalKeeps(s: System, id: IceConn, sender: string)
    requires Inv(s) && Possible(s, Signal(id, sender))
    ensures Inv(Step(s, Signal(id, sender)))
  {
    assert id in Holders(Whos(s.nodes), s.keys);
    NoticeKeepsExactly(s.keys, s.nodes[id], sender);
    OneNode(s.keys, s.nodes, id, Receiving(s.nodes[id], Notice(sender)));
  }

  // ------------------------------------------------- the server passes on

  lemma ForwardedServer(server: B.Server, whos: Owners, keys: Keys, id: IceConn, o: Out)
    requires GoodServer(server, whos, keys) && id in whos && o.toApp in server.appIds
    requires B.Conforming(server, Asked(id, o)) && (IsCall(o.hop.opcode) ==> whos[id] in keys)
    ensures GoodServer(Served(server, id, o).server, whos, keys)
  {
    var to := server.appIds[o.toApp];
    Forwarding(server, id, o);
    R.StepKeeps(server, Asked(id, o));
    RouteKeepsLists(server.clients, id, o.hop.opcode, to, Holders(whos, keys));
    R.RouteKeepsIdentities(server.clients, id, o.hop.opcode, to);
  }

  lemma ForwardedNodes(keys: Keys, nodes: Nodes, id: IceConn, to: IceConn)
    requires GoodNodes(keys, nodes) && id in nodes && to in nodes && nodes[to].who in keys
    requires nodes[id].outbox != [] && Marked(keys, nodes[id].outbox[0].hop)
    ensures var rest := nodes[id := Popped(nodes[id])];
            var after := rest[to := Receiving(rest[to], nodes[id].outbox[0].hop)];
            GoodNodes(keys, after) && Whos(after) == Whos(nodes)
  {
    var hop := nodes[id].outbox[0].hop;
    var rest := nodes[id := Popped(nodes[id])];
    OneNode(keys, nodes, id, Popped(nodes[id]));
    ReceivingIsGood(keys, rest[to], hop);
    OneNode(keys, rest, to, Receiving(rest[to], hop));
  }

  /** What serving a message that is passed on comes to. */
  lemma Passed(s: System, id: IceConn)
    requires B.ValidNames(s.server) && s.server.clients.Keys == s.nodes.Keys && Possible(s, Serve(id))
    requires s.nodes[id].outbox[0].toApp in s.server.appIds
    ensures var o, rest := s.nodes[id].outbox[0], s.nodes[id := Popped(s.nodes[id])];
            var to := s.server.appIds[o.toApp];
            Step(s, Serve(id)) == s.(server := Served(s.server, id, o).server,
                                     nodes := rest[to := Receiving(rest[to], o.hop)])
  {
    var o := s.nodes[id].outbox[0];
    Forwarding(s.server, id, o);
    CastToNobody(s.nodes[id := Popped(s.nodes[id])], CastOf(s.server, id, o));
    SpreadOne(s.nodes[id := Popped(s.nodes[id])], Served(s.server, id, o).sent, o.hop);
  }

  lemma ForwardDiscipline(s: System, id: IceConn)
    requires Possible(s, Serve(id)) && s.nodes[id].outbox[0].toApp in s.server.appIds
    ensures var o := s.nodes[id].outbox[0];
            Disciplined(s, Serve(id)) <==> B.Conforming(s.server, Asked(id, o)) && !Keyless(o.hop)
  {
  }

  lemma ForwardKeeps(s: System, id: IceConn)
    requires Inv(s) && Possible(s, Serve(id)) && s.nodes[id].outbox[0].toApp in s.server.appIds
    requires B.Conforming(s.server, Asked(id, s.nodes[id].outbox[0])) && !Keyless(s.nodes[id].outbox[0].hop)
    ensures Inv(Step(s, Serve(id)))
  {
    var n := s.nodes[id];
    var to := s.server.appIds[n.outbox[0].toApp];
    assert GoodNode(s.keys, n) && GoodOut(s.keys, n.outbox[0].hop, n.who !in s.keys);
    assert to in Holders(Whos(s.nodes), s.keys);
    Passed(s, id);
    ForwardedServer(s.server, Whos(s.nodes), s.keys, id, n.outbox[0]);
    ForwardedNodes(s.keys, s.nodes, id, to);
  }

  lemma Unmarked(keys: Keys, next: CARD32, n: Node)
    requires Distinct(keys, next) && n.inbox != [] && Keyless(n.inbox[|n.inbox| - 1])
    ensures !GoodNode(keys, n)
  {
    assert !Marked(keys, n.inbox[|n.inbox| - 1]);
  }

  /** A call without a key that is passed on is a message without a key for its receiver. */
  lemma KeylessBreaks(s: System, id: IceConn)
    requires B.ValidNames(s.server) && s.server.clients.Keys == s.nodes.Keys && Distinct(s.keys, s.server.serverKey)
    requires Possible(s, Serve(id)) && s.nodes[id].outbox[0].toApp in s.server.appIds
             && Keyless(s.nodes[id].outbox[0].hop)
    ensures !GoodNodes(Step(s, Serve(id)).keys, Step(s, Serve(id)).nodes)
  {
    Passed(s, id);
    Unmarked(s.keys, s.server.serverKey, Step(s, Serve(id)).nodes[s.server.appIds[s.nodes[id].outbox[0].toApp]]);
  }

  lemma StrayBreaks(s: System, id: IceConn)
    requires B.Inv(s.server) && s.server.clients.Keys == s.nodes.Keys && Possible(s, Serve(id))
    requires s.nodes[id].outbox[0].toApp in s.server.appIds && !B.Conforming(s.server, Asked(id, s.nodes[id].outbox[0]))
    ensures !B.Inv(Step(s, Serve(id)).server)
  {
    R.StepKeeps(s.server, Asked(id, s.nodes[id].outbox[0]));
  }

  lemma Broken(t: System)
    requires !GoodNodes(t.keys, t.nodes) || !B.Inv(t.server)
    ensures !Inv(t)
  {
  }

  lemma InvBasics(s: System)
    requires Inv(s)
    ensures B.Inv(s.server) && s.server.clients.Keys == s.nodes.Keys && Distinct(s.keys, s.server.serverKey)
  {
  }

  lemma ForwardBreaks(s: System, id: IceConn)
    requires Inv(s) && Possible(s, Serve(id)) && s.nodes[id].outbox[0].toApp in s.server.appIds
    requires !(B.Conforming(s.server, Asked(id, s.nodes[id].outbox[0])) && !Keyless(s.nodes[id].outbox[0].hop))
    ensures !Inv(Step(s, Serve(id)))
  {
    InvBasics(s);
    if Keyless(s.nodes[id].outbox[0].hop) {
      KeylessBreaks(s, id);
    } else {
      StrayBreaks(s, id);
    }
    Broken(Step(s, Serve(id)));
  }

  // -------------------------------------------- the server answers on its own

  /** The keys after the server kept a message to itself. */
  function KeysAfter(keys: Keys, who: Who, m: Hop, next: CARD32): Keys {
    if who !in keys && Keyless(m) then keys[who := next] else keys
  }

  lemma KeptKeys(server: B.Server, keys: Keys, who: Who, id: IceConn, o: Out)
    requires B.ValidNames(server) && id in server.clients && o.toApp !in server.appIds
    requires B.FIRST_KEY <= server.serverKey && Distinct(keys, server.serverKey)
    ensures var after := Served(server, id, o).server.serverKey;
            Keyless(o.hop) && server.serverKey == CARD32_SIZE - 1
            <==> !(B.FIRST_KEY <= after && Distinct(KeysAfter(keys, who, o.hop, server.serverKey), after))
  {
    Answering(server, id, o);
  }

  /** The server stays good exactly when it does not run out of keys, gives a name that is not
      its own to a client with a key if it gives one at all, and notices to none without a key. */
  lemma KeptServer(server: B.Server, whos: Owners, keys: Keys, joined: nat, id: IceConn, o: Out)
    requires GoodServer(server, whos, keys) && Different(whos, keys, joined) && id in whos && o.toApp !in server.appIds
    ensures var more := KeysAfter(keys, whos[id], o.hop, server.serverKey);
            GoodServer(Served(server, id, o).server, whos, more)
            <==> (Keyless(o.hop) ==> server.serverKey < CARD32_SIZE - 1)
                 && (Registers(server, o) ==> o.request.app != SERVER && whos[id] in more)
                 && (AsksNotices(server, o) ==> whos[id] in more)
  {
    var more := KeysAfter(keys, whos[id], o.hop, server.serverKey);
    KeptKeys(server, keys, whos[id], id, o);
    R.StepKeeps(server, Asked(id, o));
    OneMoreHolder(whos, keys, joined, id, server.serverKey);
    MoreHolders(server, Holders(whos, keys), Holders(whos, more));
    UnroutedNames(server, id, o, Holders(whos, more));
    UnroutedLists(server, id, o, Holders(whos, more));
    UnroutedNotices(server, id, o, Holders(whos, more));
  }

  /** An answer of the server, which gives a client without a key its key. */
  lemma AnsweredNode(keys: Keys, nodes: Nodes, joined: nat, id: IceConn, m: Hop)
    requires GoodNodes(keys, nodes) && Different(Whos(nodes), keys, joined) && id in nodes && !IsRequest(m.opcode)
    ensures var n := Receiving(nodes[id], m);
            GoodNodes(if n.who in keys then keys else keys[n.who := m.key], nodes[id := n])
  {
    var n := Receiving(nodes[id], m);
    if n.who in keys {
      ReceivingIsGood(keys, nodes[id], m);
      OneNode(keys, nodes, id, n);
    } else {
      FirstAnswerIsGood(keys, nodes[id], m);
      NodesMore(keys, nodes, joined, id, m.key, n);
    }
  }

  /** A client without a key calls without one. */
  ghost predicate NewIsKeyless(keys: Keys, n: Node)
    requires n.outbox != []
  {
    n.who !in keys && IsCall(n.outbox[0].hop.opcode) ==> Keyless(n.outbox[0].hop)
  }

  lemma OutboxIsGood(keys: Keys, n: Node)
    requires GoodNode(keys, n) && n.outbox != []
    ensures GoodOut(keys, n.outbox[0].hop, n.who !in keys) && NewIsKeyless(keys, n)
  {
  }

  /** What serving a message that the server keeps to itself comes to. */
  lemma KeptIs(s: System, id: IceConn)
    requires B.ValidNames(s.server) && id in s.server.clients && Possible(s, Serve(id))
    requires s.nodes[id].outbox[0].toApp !in s.server.appIds
    requires NewIsKeyless(s.keys, s.nodes[id])
    ensures var n, t := s.nodes[id], Step(s, Serve(id));
            && t.keys == KeysAfter(s.keys, n.who, n.outbox[0].hop, s.server.serverKey)
            && t.server == Served(s.server, id, n.outbox[0]).server && t.joined == s.joined
            && t.ears == if Connects(s.server, n.outbox[0]) then s.ears + {id} else s.ears
  {
    Answering(s.server, id, s.nodes[id].outbox[0]);
  }

  lemma PoppedIsGood(keys: Keys, n: Node)
    requires GoodNode(keys, n) && n.outbox != []
    ensures GoodNode(keys, Popped(n))
  {
  }

  /** What the server puts on the wire for a message that it keeps to itself. */
  ghost predicate Replied(o: Out, id: IceConn, sent: seq<B.Sent>, next: CARD32) {
    if IsCall(o.hop.opcode) then exists after :: Answered(o.hop.key, id, sent, next, after) else sent == []
  }

  lemma RepliedIs(server: B.Server, id: IceConn, o: Out)
    requires B.ValidNames(server) && id in server.clients && o.toApp !in server.appIds
    ensures Replied(o, id, Served(server, id, o).sent, server.serverKey)
  {
    Answering(server, id, o);
  }

  lemma AnsweredNodes(keys: Keys, nodes: Nodes, joined: nat, id: IceConn, next: CARD32, sent: seq<B.Sent>, o: Out)
    requires GoodNodes(keys, nodes) && Different(Whos(nodes), keys, joined) && id in nodes
    requires Replied(o, id, sent, next)
    requires nodes[id].who !in keys && IsCall(o.hop.opcode) ==> Keyless(o.hop)
    ensures GoodNodes(KeysAfter(keys, nodes[id].who, o.hop, next), Spread(nodes, sent, o.hop))
    ensures Whos(Spread(nodes, sent, o.hop)) == Whos(nodes)
  {
    if sent != [] {
      var m := Msg(sent[0].opcode, sent[0].key, o.hop.sender, o.hop.tag);
      SpreadOne(nodes, sent, o.hop);
      AnsweredNode(keys, nodes, joined, id, m);
      OneWho(nodes, id, Receiving(nodes[id], m));
    }
  }

  lemma CastOfIsMarked(server: B.Server, keys: Keys, id: IceConn, o: Out)
    requires !Miscast(server, id, o)
    ensures B.Broadcast(server, Asked(id, o)) != {} ==> Marked(keys, CastOf(server, id, o))
  {
  }

  lemma BroadcastedIsGood(server: B.Server, keys: Keys, nodes: Nodes, id: IceConn)
    requires GoodNodes(keys, nodes) && id in nodes && nodes[id].outbox != []
             && !Miscast(server, id, nodes[id].outbox[0])
    requires B.Broadcast(server, Asked(id, nodes[id].outbox[0])) <= Holders(Whos(nodes), keys)
    ensures GoodNodes(keys, Broadcasted(server, nodes, id)) && Whos(Broadcasted(server, nodes, id)) == Whos(nodes)
  {
    var n := nodes[id];
    PoppedIsGood(keys, n);
    OneNode(keys, nodes, id, Popped(n));
    CastOfIsMarked(server, keys, id, n.outbox[0]);
    CastIsGood(keys, nodes[id := Popped(n)], B.Broadcast(server, Asked(id, n.outbox[0])),
               CastOf(server, id, n.outbox[0]));
  }

  lemma KeptNodes(server: B.Server, keys: Keys, nodes: Nodes, joined: nat, id: IceConn, sent: seq<B.Sent>)
    requires GoodNodes(keys, nodes) && Different(Whos(nodes), keys, joined) && id in nodes && nodes[id].outbox != []
    requires B.Broadcast(server, Asked(id, nodes[id].outbox[0])) <= Holders(Whos(nodes), keys)
    requires !Miscast(server, id, nodes[id].outbox[0]) && Replied(nodes[id].outbox[0], id, sent, server.serverKey)
    ensures var n := nodes[id];
            var o := n.outbox[0];
            var after := Spread(Broadcasted(server, nodes, id), sent, o.hop);
            GoodNodes(KeysAfter(keys, n.who, o.hop, server.serverKey), after) && Whos(after) == Whos(nodes)
  {
    var n, cast := nodes[id], Broadcasted(server, nodes, id);
    OutboxIsGood(keys, n);
    BroadcastedIsGood(server, keys, nodes, id);
    assert Whos(cast)[id] == Whos(nodes)[id];
    AnsweredNodes(keys, cast, joined, id, server.serverKey, sent, n.outbox[0]);
  }

  lemma KeptDiscipline(s: System, id: IceConn)
    requires Possible(s, Serve(id)) && s.nodes[id].outbox[0].toApp !in s.server.appIds
             && NewIsKeyless(s.keys, s.nodes[id])
    ensures var n := s.nodes[id];
            var o := n.outbox[0];
            var known := n.who in KeysAfter(s.keys, n.who, o.hop, s.server.serverKey);
            Disciplined(s, Serve(id))
            <==> (Keyless(o.hop) ==> s.server.serverKey < CARD32_SIZE - 1)
                 && (Registers(s.server, o) ==> o.request.app != SERVER && known)
                 && (AsksNotices(s.server, o) ==> known) && (Connects(s.server, o) ==> known)
                 && !Miscast(s.server, id, o)
  {
  }

  lemma MiscastIsBad(keys: Keys, n: Node, m: Hop)
    requires m.opcode == Send && m.key != SEND_KEY
    ensures !GoodNode(keys, Receiving(n, m))
  {
    var inbox := Receiving(n, m).inbox;
    assert inbox[|inbox| - 1] == m && !Marked(keys, m);
  }

  /** What many were sent with a key of its own is good for none of them. */
  lemma MiscastNodes(s: System, id: IceConn)
    requires B.ValidNames(s.server) && id in s.server.clients && Possible(s, Serve(id))
    requires Miscast(s.server, id, s.nodes[id].outbox[0])
             && B.Broadcast(s.server, Asked(id, s.nodes[id].outbox[0])) <= s.nodes.Keys
    ensures !GoodNodes(Step(s, Serve(id)).keys, Step(s, Serve(id)).nodes)
  {
    var n, t := s.nodes[id], Step(s, Serve(id));
    var o := n.outbox[0];
    RepliedIs(s.server, id, o);
    var h :| h in B.Broadcast(s.server, Asked(id, o));
    assert h in s.nodes && t.nodes == Broadcasted(s.server, s.nodes, id);
    assert t.nodes[h] == Receiving(s.nodes[id := Popped(n)][h], CastOf(s.server, id, o));
    MiscastIsBad(t.keys, s.nodes[id := Popped(n)][h], CastOf(s.server, id, o));
  }

  lemma MiscastBreaks(s: System, id: IceConn)
    requires Inv(s) && Possible(s, Serve(id)) && Miscast(s.server, id, s.nodes[id].outbox[0])
    ensures !Inv(Step(s, Serve(id)))
  {
    BroadcastReaches(s.server, Whos(s.nodes), s.keys, Asked(id, s.nodes[id].outbox[0]));
    MiscastNodes(s, id);
    Broken(Step(s, Serve(id)));
  }

  lemma KeptSound(s: System, id: IceConn)
    requires Inv(s) && Possible(s, Serve(id)) && s.nodes[id].outbox[0].toApp !in s.server.appIds
    requires !Miscast(s.server, id, s.nodes[id].outbox[0])
    ensures var t := Step(s, Serve(id));
            && GoodNodes(t.keys, t.nodes) && Whos(t.nodes) == Whos(s.nodes)
            && t.server == Served(s.server, id, s.nodes[id].outbox[0]).server && t.joined == s.joined
            && t.keys == KeysAfter(s.keys, s.nodes[id].who, s.nodes[id].outbox[0].hop, s.server.serverKey)
            && t.ears == (if Connects(s.server, s.nodes[id].outbox[0]) then s.ears + {id} else s.ears)
  {
    var o := s.nodes[id].outbox[0];
    OutboxIsGood(s.keys, s.nodes[id]);
    KeptIs(s, id);
    BroadcastReaches(s.server, Whos(s.nodes), s.keys, Asked(id, o));
    RepliedIs(s.server, id, o);
    KeptNodes(s.server, s.keys, s.nodes, s.joined, id, Served(s.server, id, o).sent);
  }

  /** Who gets signals after a message. */
  lemma KeptEars(ears: set<IceConn>, holders: set<IceConn>, more: set<IceConn>, id: IceConn, connects: bool)
    requires ears <= holders <= more
    ensures (if connects then ears + {id} else ears) <= more <==> (connects ==> id in more)
  {
  }

  /** The discipline of a message that the server keeps to itself, by what it would break. */
  lemma KeptBreaks(s: System, id: IceConn)
    requires Inv(s) && Possible(s, Serve(id)) && s.nodes[id].outbox[0].toApp !in s.server.appIds
    requires !Miscast(s.server, id, s.nodes[id].outbox[0])
    ensures var n, o := s.nodes[id], s.nodes[id].outbox[0];
            var more := KeysAfter(s.keys, n.who, o.hop, s.server.serverKey);
            Disciplined(s, Serve(id))
            <==> (GoodServer(Served(s.server, id, o).server, Whos(s.nodes), more)
                  && (Connects(s.server, o) ==> n.who in more))
  {
    OutboxIsGood(s.keys, s.nodes[id]);
    KeptServer(s.server, Whos(s.nodes), s.keys, s.joined, id, s.nodes[id].outbox[0]);
    KeptDiscipline(s, id);
  }

  lemma KeptListeners(s: System, id: IceConn)
    requires Inv(s) && Possible(s, Serve(id))
    ensures var n, o, whos := s.nodes[id], s.nodes[id].outbox[0], Whos(s.nodes);
            var more := KeysAfter(s.keys, n.who, o.hop, s.server.serverKey);
            var ears := if Connects(s.server, o) then s.ears + {id} else s.ears;
            && Different(whos, more, s.joined)
            && (ears <= Holders(whos, more) <==> (Connects(s.server, o) ==> n.who in more))
  {
    var n, o, whos := s.nodes[id], s.nodes[id].outbox[0], Whos(s.nodes);
    var more := KeysAfter(s.keys, n.who, o.hop, s.server.serverKey);
    OneMoreHolder(whos, s.keys, s.joined, id, s.server.serverKey);
    KeptEars(s.ears, Holders(whos, s.keys), Holders(whos, more), id, Connects(s.server, o));
  }

  lemma KeptKeeps(s: System, id: IceConn)
    requires Inv(s) && Possible(s, Serve(id)) && s.nodes[id].outbox[0].toApp !in s.server.appIds
    requires !Miscast(s.server, id, s.nodes[id].outbox[0])
    ensures Inv(Step(s, Serve(id))) <==> Disciplined(s, Serve(id))
  {
    var n, o, whos := s.nodes[id], s.nodes[id].outbox[0], Whos(s.nodes);
    var more := KeysAfter(s.keys, n.who, o.hop, s.server.serverKey);
    KeptSound(s, id);
    KeptBreaks(s, id);
    KeptListeners(s, id);
    InvIs(Step(s, Serve(id)), Served(s.server, id, o).server, whos, more);
  }

  // --------------------------------------------------------- a client leaves

  lemma {:induction false} AbortsCallers(cl: B.Clients, dead: IceConn, callers: seq<IceConn>)
    ensures forall m | m in B.AbortCalls(cl, dead, callers).1 :: m.to in callers
    ensures var cl' := B.AbortCalls(cl, dead, callers).0;
            forall c | c in cl :: cl'[c] == cl[c].(waitingOnReply := cl'[c].waitingOnReply)
    decreases |callers|
  {
    if callers != [] {
      var a := callers[0];
      var cl1 := if a in cl then cl[a := cl[a].(waitingOnReply := RemoveRef(cl[a].waitingOnReply, dead))] else cl;
      AbortsCallers(cl1, dead, callers[1..]);
    }
  }

  lemma {:induction false} ForgettingKeepsLists(cl: B.Clients, dead: IceConn, called: seq<IceConn>,
                                                holders: set<IceConn>)
    requires GoodLists(cl, holders)
    ensures GoodLists(B.ForgetCalls(cl, dead, called), holders)
    decreases |called|
  {
    if called != [] {
      var b := called[0];
      if b in cl {
        RemoveRefWithin(cl[b].waitingForReply, dead, holders);
        RemoveRefWithin(cl[b].waitingForDelayedReply, dead, holders);
        ForgettingKeepsLists(cl[b := B.ForgetCaller(cl[b], dead)], dead, called[1..], holders);
      } else {
        ForgettingKeepsLists(cl, dead, called[1..], holders);
      }
    }
  }

  /** Who is told that a call was aborted had a key, and the lists stay good. */
  lemma DroppingKeepsLists(cl: B.Clients, dead: IceConn, holders: set<IceConn>)
    requires GoodLists(cl, holders) && dead in cl
    ensures var r := B.DropPending(cl - {dead}, dead, cl[dead]);
            && GoodLists(r.0, holders)
            && forall m | m in r.1 :: m.to in holders && m.opcode == ReplyFailed
  {
    var conn, open := cl[dead], cl - {dead};
    AbortsCallers(open, dead, conn.waitingForReply);
    var once := B.AbortCalls(open, dead, conn.waitingForReply);
    AbortsCallers(once.0, dead, conn.waitingForDelayedReply);
    var twice := B.AbortCalls(once.0, dead, conn.waitingForDelayedReply);
    Q.AbortOnlyFails(open, dead, conn.waitingForReply);
    Q.AbortOnlyFails(once.0, dead, conn.waitingForDelayedReply);
    assert GoodLists(twice.0, holders);
    ForgettingKeepsLists(twice.0, dead, conn.waitingOnReply, holders);
  }

  /** Lists without a closed handle hold the handles that are left. */
  lemma LessHolders(cl: B.Clients, holders: set<IceConn>, dead: IceConn)
    requires GoodLists(cl, holders) && B.NoDangling(cl) && dead !in cl
    ensures GoodLists(cl, holders - {dead})
  {
    forall c | c in cl
      ensures Within(cl[c].waitingForReply, holders - {dead}) && Within(cl[c].waitingForDelayedReply, holders - {dead})
    {
      assert B.OnlyOpen(cl, cl[c].waitingForReply) && B.OnlyOpen(cl, cl[c].waitingForDelayedReply);
    }
  }

  lemma LeftTables(server: B.Server, id: IceConn, holders: set<IceConn>)
    requires B.Inv(server) && id in server.clients
    requires GoodNames(server.appIds, holders) && GoodLists(server.clients, holders)
             && GoodNotices(server.clients, holders)
    ensures var after := B.RemoveConnection(server, id).server;
            && GoodNames(after.appIds, holders - {id}) && GoodLists(after.clients, holders - {id})
            && GoodNotices(after.clients, holders - {id})
  {
    var after := B.RemoveConnection(server, id).server;
    R.RemovalKeeps(server, id);
    DroppingKeepsLists(server.clients, id, holders);
    LessHolders(after.clients, holders, id);
  }

  lemma LeftServer(server: B.Server, whos: Owners, keys: Keys, id: IceConn)
    requires GoodServer(server, whos, keys) && id in whos
    ensures GoodServer(B.RemoveConnection(server, id).server, whos - {id}, keys)
  {
    R.RemovalKeeps(server, id);
    assert Holders(whos - {id}, keys) == Holders(whos, keys) - {id};
    LeftTables(server, id, Holders(whos, keys));
  }

  lemma {:induction false} SpreadAborts(keys: Keys, nodes: Nodes, sent: seq<B.Sent>)
    requires GoodNodes(keys, nodes)
    requires forall m | m in sent :: (m.to in nodes ==> nodes[m.to].who in keys) && m.opcode == ReplyFailed
    ensures GoodNodes(keys, Spread(nodes, sent, ABORT)) && Whos(Spread(nodes, sent, ABORT)) == Whos(nodes)
    decreases |sent|
  {
    if sent != [] {
      var x := sent[0];
      assert x in sent;
      if x.to in nodes {
        var m := Msg(x.opcode, x.key, ABORT.sender, ABORT.tag);
        ReceivingIsGood(keys, nodes[x.to], m);
        OneNode(keys, nodes, x.to, Receiving(nodes[x.to], m));
        SpreadAborts(keys, nodes[x.to := Receiving(nodes[x.to], m)], sent[1..]);
      } else {
        SpreadAborts(keys, nodes, sent[1..]);
      }
    }
  }

  lemma FewerHolders(whos: Owners, keys: Keys, joined: nat, id: IceConn)
    requires Different(whos, keys, joined)
    ensures Holders(whos - {id}, keys) == Holders(whos, keys) - {id} && Different(whos - {id}, keys, joined)
  {
  }

  lemma FewerNodes(keys: Keys, nodes: Nodes, id: IceConn)
    requires GoodNodes(keys, nodes)
    ensures GoodNodes(keys, nodes - {id}) && Whos(nodes - {id}) == Whos(nodes) - {id}
  {
    var rest := nodes - {id};
    forall h | h in rest ensures GoodNode(keys, rest[h]) {
      assert GoodNode(keys, nodes[h]);
    }
  }

  lemma AbortedNodes(server: B.Server, keys: Keys, nodes: Nodes, id: IceConn)
    requires id in server.clients && GoodLists(server.clients, Holders(Whos(nodes), keys)) && GoodNodes(keys, nodes)
    ensures var aborted := Spread(nodes - {id}, B.RemoveConnection(server, id).sent, ABORT);
            GoodNodes(keys, aborted) && Whos(aborted) == Whos(nodes) - {id}
  {
    DroppingKeepsLists(server.clients, id, Holders(Whos(nodes), keys));
    FewerNodes(keys, nodes, id);
    SpreadAborts(keys, nodes - {id}, B.RemoveConnection(server, id).sent);
  }

  lemma LeftNodes(server: B.Server, keys: Keys, nodes: Nodes, joined: nat, id: IceConn)
    requires id in server.clients && GoodLists(server.clients, Holders(Whos(nodes), keys)) && GoodNodes(keys, nodes)
    requires Different(Whos(nodes), keys, joined)
             && B.Broadcast(server, B.Disconnect(id)) <= Holders(Whos(nodes), keys) - {id}
    ensures GoodNodes(keys, Left(server, nodes, id)) && Whos(Left(server, nodes, id)) == Whos(nodes) - {id}
  {
    var aborted := Spread(nodes - {id}, B.RemoveConnection(server, id).sent, ABORT);
    AbortedNodes(server, keys, nodes, id);
    FewerHolders(Whos(nodes), keys, joined, id);
    CastIsGood(keys, aborted, B.Broadcast(server, B.Disconnect(id)), Notice(SERVER));
  }

  lemma LeaveKeeps(s: System, id: IceConn)
    requires Inv(s) && Possible(s, Leave(id))
    ensures Inv(Step(s, Leave(id)))
  {
    LeftServer(s.server, Whos(s.nodes), s.keys, id);
    BroadcastReaches(s.server, Whos(s.nodes), s.keys, B.Disconnect(id));
    LeftNodes(s.server, s.keys, s.nodes, s.joined, id);
    FewerHolders(Whos(s.nodes), s.keys, s.joined, id);
  }

  // -------------------------------------------------------------------- runs

  lemma ServeKeeps(s: System, id: IceConn)
    requires Inv(s) && Possible(s, Serve(id))
    ensures Inv(Step(s, Serve(id))) <==> Disciplined(s, Serve(id))
  {
    if s.nodes[id].outbox[0].toApp in s.server.appIds {
      ForwardDiscipline(s, id);
      if Disciplined(s, Serve(id)) {
        ForwardKeeps(s, id);
      } else {
        ForwardBreaks(s, id);
      }
    } else if Miscast(s.server, id, s.nodes[id].outbox[0]) {
      MiscastBreaks(s, id);
    } else {
      KeptKeeps(s, id);
    }
  }

  /** Whatever clients do, a step keeps keys and chains in order exactly when the message
      that the server gets to is a disciplined one. */
  lemma StepKeeps(s: System, ev: Event)
    requires Inv(s) && Possible(s, ev)
    ensures Inv(Step(s, ev)) <==> Disciplined(s, ev)
  {
    match ev {
      case Leave(id) => LeaveKeeps(s, id);
      case Join(id) => JoinKeeps(s, id);
      case Serve(id) => ServeKeeps(s, id);
      case Signal(id, sender) => SignalKeeps(s, id, sender);
      case Say(_, _, _, _, _, _) => ClientKeeps(s, ev);
      case Deliver(_) => ClientKeeps(s, ev);
      case Local(_, _) => ClientKeeps(s, ev);
    }
  }

  /** A run in which the messages are disciplined. */
  ghost predicate GoodRun(s: System, evs: seq<Event>)
    requires Inv(s)
    decreases |evs|
  {
    evs == [] ||
    (Possible(s, evs[0]) && Disciplined(s, evs[0]) && (StepKeeps(s, evs[0]); GoodRun(Step(s, evs[0]), evs[1..])))
  }

  /** Where a run leads. Its ensures is the invariant of every reachable state. */
  ghost function Run(s: System, evs: seq<Event>): (t: System)
    requires Inv(s) && GoodRun(s, evs)
    ensures Inv(t)
    decreases |evs|
  {
    if evs == [] then s
    else
      StepKeeps(s, evs[0]);
      Run(Step(s, evs[0]), evs[1..])
  }

  // -------------------------------------------------------------- properties

  /** In every reachable state, clients with a key have different ones, and every call
      that is under way, queued or being handled has the key of the client that the
      chain began with, also when that client's handle belongs to another one by now. */
  lemma ChainsKeepTheirKey(suicide: bool, evs: seq<Event>)
    requires GoodRun(Start(suicide), evs)
    ensures var s := Run(Start(suicide), evs);
            && (forall a, b | a in s.nodes && b in s.nodes && s.nodes[a].peer.key == s.nodes[b].peer.key != 0 :: a == b)
            && (forall a, b | a in s.keys && b in s.keys && s.keys[a] == s.keys[b] :: a == b)
            && (forall a | a in s.nodes && s.nodes[a].peer.key != 0 ::
                  B.FIRST_KEY <= s.nodes[a].peer.key == KeyOf(s.keys, Some(s.nodes[a].who)))
            && (forall a | a in s.nodes ::
                  AllMarked(s.keys, s.nodes[a].inbox) && AllMarked(s.keys, s.nodes[a].peer.messages)
                  && s.nodes[a].peer.currentKey == KeyOf(s.keys, OriginOf(s.nodes[a].peer.stack, s.nodes[a].who)))
  {
    var s := Run(Start(suicide), evs);
    forall a | a in s.nodes ensures GoodNode(s.keys, s.nodes[a]) && Whos(s.nodes)[a] == s.nodes[a].who {
    }
  }

  /** The message at the head of a client's queue is handled as soon as it is read. */
  predicate HandledAtOnce(n: Node)
    requires n.inbox != []
  {
    var m := n.inbox[0];
    Arrive(n.peer, m).stack == n.peer.stack + [Handling(n.peer.currentKey, m)]
  }

  /** A request that a client accepts is handled at once exactly when the client is
      in no chain or the request belongs to the chain that the client is in. Any other
      request is queued. */
  lemma HandledAtOnceExactly(s: System, id: IceConn)
    requires Inv(s) && id in s.nodes && s.nodes[id].inbox != [] && s.nodes[id].peer.key != 0
    requires var m := s.nodes[id].inbox[0]; IsRequest(m.opcode) && !Refuses(s.nodes[id].peer, m)
    ensures var n := s.nodes[id];
            var m, at := n.inbox[0], OriginOf(n.peer.stack, n.who);
            && (HandledAtOnce(n) <==> at == None || m.tag == at)
            && (!HandledAtOnce(n) ==> Arrive(n.peer, m).messages == n.peer.messages + [m])
  {
    var n := s.nodes[id];
    var m := n.inbox[0];
    assert GoodNode(s.keys, n) && Marked(s.keys, m);
    OriginKeyed(s.keys, s.server.serverKey, n.peer.stack, n.who);
    assert |n.peer.stack + [Handling(n.peer.currentKey, m)]| != |n.peer.stack|;
  }

  /** Once a client is in a chain, it stays in it further up the stack. */
  lemma {:induction false} SameChain(keys: Keys, next: CARD32, stack: seq<Frame<Origin>>, who: Who, i: nat)
    requires Distinct(keys, next) && Tracked(keys, stack, who) && Nested(stack) && i <= |stack|
    requires OriginOf(stack[..i], who).Some?
    ensures OriginOf(stack, who) == OriginOf(stack[..i], who)
    decreases |stack|
  {
    if i == |stack| {
      assert stack[..i] == stack;
    } else {
      var below := stack[..|stack| - 1];
      assert below[..i] == stack[..i];
      SameChain(keys, next, below, who, i);
      OriginKeyed(keys, next, below, who);
      OriginKeyed(keys, next, stack, who);
    }
  }

  /** A call that comes back to a client which takes part in the chain, however deep
      in its stack, is handled at once: it never waits for the chain it belongs to. */
  lemma CallbackIsHandled(s: System, id: IceConn, i: nat)
    requires Inv(s) && id in s.nodes && s.nodes[id].inbox != [] && s.nodes[id].peer.key != 0
    requires var n := s.nodes[id]; i <= |n.peer.stack| && OriginOf(n.peer.stack[..i], n.who).Some?
    requires var n, m := s.nodes[id], s.nodes[id].inbox[0];
             IsRequest(m.opcode) && !Refuses(n.peer, m) && m.tag == OriginOf(n.peer.stack[..i], n.who)
    ensures HandledAtOnce(s.nodes[id])
  {
    var n := s.nodes[id];
    assert GoodNode(s.keys, n);
    SameChain(s.keys, s.server.serverKey, n.peer.stack, n.who, i);
    HandledAtOnceExactly(s, id);
  }
}
