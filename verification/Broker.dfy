/** The DCOP server as a state machine over values: which connections exist,
    what each of them waits for, and which messages every step sends. */
module Broker {
  import opened DcopTypes
  import opened Options
  import opened PtrLists
  import opened Registry

  // ---------------------------------------------------------------- state

  datatype Conn = Conn(
    appId: Option<string>,
    daemon: bool,
    notifyRegister: nat,
    waitingOnReply: seq<IceConn>,
    waitingForReply: seq<IceConn>,
    waitingForDelayedReply: seq<IceConn>)

  const NEW_CONN := Conn(None, false, 0, [], [], [])

  type Clients = map<IceConn, Conn>

  datatype Server = Server(
    clients: Clients,
    appIds: map<string, IceConn>,
    currentClientNumber: int,
    serverKey: CARD32,
    suicide: bool,
    shutdown: bool,
    timerActive: bool)

  const FIRST_KEY: CARD32 := 42

  function Initial(suicide: bool): (s: Server)
    ensures Inv(s)
  {
    Server(map[], map[], 0, FIRST_KEY, suicide, false, false)
  }

  /** A message put on connection `to`. `from` is the connection it was
      forwarded or aborted for; the server's own answers have none. */
  datatype Sent = Sent(to: IceConn, opcode: Opcode, key: CARD32, from: Option<IceConn>)

  /** What a message to "DCOPServer" asks for. Whether a signal connection is accepted is
      decided elsewhere. */
  datatype Request =
    | RegisterAs(app: string)
    | SetDaemonMode(on: bool)
    | SetNotifications(on: bool)
    | ConnectSignal(accepted: bool)
    | Other(understood: bool)

  datatype Event =
    | Connect(id: IceConn)
    | Disconnect(id: IceConn)
    | Message(id: IceConn, opcode: Opcode, key: CARD32, toApp: string, request: Request)
    | Shutdown

  datatype Outcome = Outcome(server: Server, sent: seq<Sent>)

  // ----------------------------------------------- calls and their answers

  /** `a` calls `b`. */
  function AddCall(cl: Clients, a: IceConn, b: IceConn): Clients
    requires a in cl && b in cl
  {
    var cl1 := cl[b := cl[b].(waitingForReply := cl[b].waitingForReply + [a])];
    cl1[a := cl1[a].(waitingOnReply := cl1[a].waitingOnReply + [b])]
  }

  /** `b` answers `a` with a Reply, a ReplyFailed or a ReplyWait. */
  function AnswerCall(cl: Clients, a: IceConn, b: IceConn, wait: bool): Clients
    requires a in cl && b in cl
  {
    var cl1 := cl[b := cl[b].(waitingForReply := RemoveRef(cl[b].waitingForReply, a))];
    if wait then
      cl1[b := cl1[b].(waitingForDelayedReply := cl1[b].waitingForDelayedReply + [a])]
    else
      cl1[a := cl1[a].(waitingOnReply := RemoveRef(cl1[a].waitingOnReply, b))]
  }

  /** `b` sends `a` the answer it had promised with a ReplyWait. */
  function AnswerLate(cl: Clients, a: IceConn, b: IceConn): Clients
    requires a in cl && b in cl
  {
    if a !in cl[b].waitingForDelayedReply then cl
    else
      var cl1 := cl[b := cl[b].(waitingForDelayedReply := RemoveRef(cl[b].waitingForDelayedReply, a))];
      cl1[a := cl1[a].(waitingOnReply := RemoveRef(cl1[a].waitingOnReply, b))]
  }

  // ------------------------------------------- requests to the server itself

  /** Taking the old name of a client out of the table, if it really is its entry. */
  function ReleaseName(appIds: map<string, IceConn>, appId: Option<string>, id: IceConn): map<string, IceConn> {
    if appId.Some? && appId.value in appIds && appIds[appId.value] == id
    then appIds - {appId.value}
    else appIds
  }

  function Register(s: Server, id: IceConn, app: string): Server
    requires id in s.clients
  {
    if app == "" then s
    else
      var conn := s.clients[id];
      var ids := ReleaseName(s.appIds, conn.appId, id);
      var name := UniqueName(ids.Keys, app);
      s.(clients := s.clients[id := conn.(appId := Some(name))],
         appIds := ids[name := id],
         currentClientNumber := s.currentClientNumber + (if conn.appId.None? then 1 else 0),
         timerActive := s.timerActive && conn.appId.Some?)
  }

  function SetDaemon(s: Server, id: IceConn, on: bool): Server
    requires id in s.clients
  {
    var conn := s.clients[id];
    if conn.appId.None? || conn.daemon == on then s
    else
      s.(clients := s.clients[id := conn.(daemon := on)],
         currentClientNumber := s.currentClientNumber + (if on then -1 else 1),
         timerActive := s.timerActive && on)
  }

  /** setNotifications counts, so that a client may ask more than once. */
  function SetNotify(s: Server, id: IceConn, on: bool): Server
    requires id in s.clients
  {
    var n := s.clients[id].notifyRegister;
    s.(clients := s.clients[id := s.clients[id].(notifyRegister := if on then n + 1 else if n > 0 then n - 1 else 0)])
  }

  function Receive(s: Server, id: IceConn, request: Request): (Server, bool)
    requires id in s.clients
  {
    match request
    case RegisterAs(app) => (Register(s, id, app), true)
    case SetDaemonMode(on) => (SetDaemon(s, id, on), true)
    case SetNotifications(on) => (SetNotify(s, id, on), true)
    case ConnectSignal(_) => (s, true)
    case Other(understood) => (s, understood)
  }

  function NextKey(k: CARD32): CARD32 {
    (k + 1) % CARD32_SIZE
  }

  /** The server's own answer to a call; a call without a key is given one. */
  function AnswerSelf(s: Server, id: IceConn, key: CARD32, ok: bool): Outcome {
    var answer := if ok then Reply else ReplyFailed;
    if key != 0 then Outcome(s, [Sent(id, answer, key, None)])
    else Outcome(s.(serverKey := NextKey(s.serverKey)), [Sent(id, answer, s.serverKey, None)])
  }

  // -------------------------------------------------------- the two handlers

  /** What a message from `id` to the registered client `t` does to the lists. */
  function Route(cl: Clients, id: IceConn, opcode: Opcode, t: IceConn): Clients
    requires id in cl && t in cl
  {
    match opcode
    case Send => cl
    case Call => AddCall(cl, id, t)
    case Find => AddCall(cl, id, t)
    case ReplyDelayed => AnswerLate(cl, t, id)
    case _ => AnswerCall(cl, t, id, opcode == ReplyWait)
  }

  /** A message whose addressee is not a registered client. */
  function WithoutTarget(s: Server, id: IceConn, opcode: Opcode, key: CARD32,
                         toApp: string, request: Request): Outcome
    requires id in s.clients
  {
    var mine := toApp == "DCOPServer";
    match opcode
    case Call =>
      if mine then
        var (s1, ok) := Receive(s, id, request);
        AnswerSelf(s1, id, key, ok)
      else AnswerSelf(s, id, key, false)
    case Find => AnswerSelf(s, id, key, false)
    case Send => Outcome(if mine then Receive(s, id, request).0 else s, [])
    case ReplyDelayed => Outcome(if mine then Receive(s, id, request).0 else s, [])
    case _ => Outcome(s, [])
  }

  function ProcessMessage(s: Server, id: IceConn, opcode: Opcode, key: CARD32,
                          toApp: string, request: Request): Outcome
    requires ValidNames(s)
  {
    if id !in s.clients then Outcome(s, [])
    else if toApp in s.appIds then
      var t := s.appIds[toApp];
      Outcome(s.(clients := Route(s.clients, id, opcode, t)), [Sent(t, opcode, key, Some(id))])
    else WithoutTarget(s, id, opcode, key, toApp, request)
  }

  /** Aborting the calls `dead` still owed an answer to. */
  function AbortCalls(cl: Clients, dead: IceConn, callers: seq<IceConn>): (r: (Clients, seq<Sent>))
    ensures r.0.Keys == cl.Keys
  {
    if callers == [] then (cl, [])
    else
      var a := callers[0];
      var cl1 := if a in cl then cl[a := cl[a].(waitingOnReply := RemoveRef(cl[a].waitingOnReply, dead))] else cl;
      var (cl2, sent) := AbortCalls(cl1, dead, callers[1..]);
      (cl2, [Sent(a, ReplyFailed, 1, Some(dead))] + sent)
  }

  /** Forgetting one call of `dead` to a client: the plain list is tried
      first, the delayed one only if that fails. */
  function ForgetCaller(c: Conn, dead: IceConn): Conn {
    if dead in c.waitingForReply
    then c.(waitingForReply := RemoveRef(c.waitingForReply, dead))
    else c.(waitingForDelayedReply := RemoveRef(c.waitingForDelayedReply, dead))
  }

  function ForgetCalls(cl: Clients, dead: IceConn, called: seq<IceConn>): (r: Clients)
    ensures r.Keys == cl.Keys
  {
    if called == [] then cl
    else
      var b := called[0];
      ForgetCalls(if b in cl then cl[b := ForgetCaller(cl[b], dead)] else cl, dead, called[1..])
  }

  function DropPending(cl: Clients, dead: IceConn, conn: Conn): (Clients, seq<Sent>) {
    var (cl1, sent1) := AbortCalls(cl, dead, conn.waitingForReply);
    var (cl2, sent2) := AbortCalls(cl1, dead, conn.waitingForDelayedReply);
    (ForgetCalls(cl2, dead, conn.waitingOnReply), sent1 + sent2)
  }

  /** Taking the closed connection `c` out of the table of names and the count. */
  function StrikeOff(s: Server, c: Conn): Server {
    if c.appId.None? then s
    else s.(appIds := s.appIds - {c.appId.value},
            currentClientNumber := s.currentClientNumber - (if c.daemon then 0 else 1))
  }

  /** Arming the termination timer if nothing is left to wait for. */
  function Armed(s: Server): Server {
    s.(timerActive := s.timerActive || (s.suicide && s.currentClientNumber == 0) || (s.shutdown && s.appIds == map[]))
  }

  function RemoveConnection(s: Server, id: IceConn): Outcome
    requires id in s.clients
  {
    var conn := s.clients[id];
    var (cl, sent) := DropPending(s.clients - {id}, id, conn);
    Outcome(Armed(StrikeOff(s.(clients := cl), conn)), sent)
  }

  /** A fresh handle is never one that is still open; a closed one is unknown. */
  predicate Possible(s: Server, ev: Event) {
    match ev
    case Connect(id) => id !in s.clients
    case Disconnect(id) => id in s.clients
    case _ => true
  }

  function Step(s: Server, ev: Event): Outcome
    requires ValidNames(s) && Possible(s, ev)
  {
    match ev
    case Connect(id) => Outcome(s.(clients := s.clients[id := NEW_CONN]), [])
    case Disconnect(id) => RemoveConnection(s, id)
    case Message(id, opcode, key, toApp, request) => ProcessMessage(s, id, opcode, key, toApp, request)
    case Shutdown => Outcome(if s.shutdown then s else s.(shutdown := true, timerActive := true), [])
  }

  // ------------------------------------------------ messages to many clients

  /** A message that the server looks into itself if there is no client of that name. */
  predicate ForServer(opcode: Opcode, toApp: string) {
    toApp == "DCOPServer" && (opcode == Call || opcode == Send || opcode == ReplyDelayed)
  }

  /** A name that stands for all clients whose names begin like it. */
  predicate IsPattern(toApp: string) {
    toApp != "" && toApp[|toApp| - 1] == '*'
  }

  function Matching(appIds: map<string, IceConn>, toApp: string): set<IceConn>
    requires IsPattern(toApp)
  {
    set n | n in appIds && toApp[..|toApp| - 1] <= n :: appIds[n]
  }

  /** The clients that asked for notices about names, except the one they are about. */
  function Listeners(cl: Clients, but: IceConn): set<IceConn> {
    set c | c in cl && c != but && cl[c].notifyRegister > 0
  }

  predicate IsMulticast(s: Server, ev: Event) {
    && ev.Message? && ev.id in s.clients && ev.toApp !in s.appIds && IsPattern(ev.toApp)
    && (ev.opcode == Send || ev.opcode == ReplyDelayed)
  }

  /** A client is given a name. */
  predicate IsNaming(s: Server, ev: Event) {
    && ev.Message? && ev.id in s.clients && ev.toApp !in s.appIds && ForServer(ev.opcode, ev.toApp)
    && ev.request.RegisterAs? && ev.request.app != ""
  }

  /** A client that had a name is gone. */
  predicate IsUnnaming(s: Server, ev: Event) {
    ev.Disconnect? && ev.id in s.clients && s.clients[ev.id].appId.Some?
  }

  /** Who is sent a message of the kind Send in a step besides what the outcome says, in the
      order of a dictionary: notices about a name, or a message to a pattern. */
  function Broadcast(s: Server, ev: Event): set<IceConn> {
    if IsMulticast(s, ev) then Matching(s.appIds, ev.toApp)
    else if IsNaming(s, ev) || IsUnnaming(s, ev) then Listeners(s.clients, ev.id)
    else {}
  }

  /** Notices have the key of a plain Send, a multicast message that of its sender. */
  function BroadcastKey(s: Server, ev: Event): CARD32 {
    if IsMulticast(s, ev) then ev.key else 1
  }

  // -------------------------------------------------------------- invariants

  /** `appIds` is a bijection between its keys and the registered connections. */
  ghost predicate ValidNames(s: Server) {
    && (forall n | n in s.appIds :: s.appIds[n] in s.clients && s.clients[s.appIds[n]].appId == Some(n))
    && (forall id | id in s.clients && s.clients[id].appId.Some? ::
          s.clients[id].appId.value in s.appIds && s.appIds[s.clients[id].appId.value] == id)
  }

  /** How many answers of `b` client `a` believes to be waiting on. */
  function Awaited(cl: Clients, a: IceConn, b: IceConn): nat
    requires a in cl
  {
    Count(cl[a].waitingOnReply, b)
  }

  /** How many calls of `a` client `b` still owes an answer to. */
  function Outstanding(cl: Clients, a: IceConn, b: IceConn): nat
    requires b in cl
  {
    Count(cl[b].waitingForReply, a) + Count(cl[b].waitingForDelayedReply, a)
  }

  /** The bookkeeping rule written down with the three lists. */
  ghost predicate Balanced(cl: Clients) {
    forall a, b | a in cl && b in cl :: Awaited(cl, a, b) == Outstanding(cl, a, b)
  }

  ghost predicate OnlyOpen(cl: Clients, list: seq<IceConn>) {
    forall x | x in list :: x in cl
  }

  ghost predicate NoDangling(cl: Clients) {
    forall c | c in cl :: OnlyOpen(cl, cl[c].waitingOnReply) && OnlyOpen(cl, cl[c].waitingForReply)
                       && OnlyOpen(cl, cl[c].waitingForDelayedReply)
  }

  ghost predicate Bookkept(cl: Clients) {
    Balanced(cl) && NoDangling(cl)
  }

  ghost function Applications(cl: Clients): set<IceConn> {
    set c | c in cl && cl[c].appId.Some? && !cl[c].daemon
  }

  ghost predicate Counted(s: Server) {
    && (forall c | c in s.clients && s.clients[c].appId.None? :: !s.clients[c].daemon)
    && s.currentClientNumber == |Applications(s.clients)|
    && (s.timerActive ==> s.shutdown || (s.suicide && s.currentClientNumber == 0))
  }

  ghost predicate Inv(s: Server) {
    ValidNames(s) && Bookkept(s.clients) && Counted(s)
  }

  /** An answer of `b` to `a` does no harm to the books: the call is on the plain list, or
      it is a final answer to a call that `b` does not owe an answer to at all. */
  predicate Settles(cl: Clients, a: IceConn, b: IceConn, wait: bool)
    requires b in cl
  {
    a in cl[b].waitingForReply || (!wait && a !in cl[b].waitingForDelayedReply)
  }

  predicate IsAnswer(opcode: Opcode) {
    opcode == Reply || opcode == ReplyFailed || opcode == ReplyWait
  }

  /** A client does not give a plain answer to a call that it has put off, and puts off only
      calls it has been handed and has not answered. */
  predicate Conforming(s: Server, ev: Event) {
    match ev
    case Message(id, opcode, _, toApp, _) =>
      (IsAnswer(opcode) && id in s.clients && toApp in s.appIds) ==>
        Settles(s.clients, s.appIds[toApp], id, opcode == ReplyWait)
    case _ => true
  }
}
