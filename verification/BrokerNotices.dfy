/** What clients that asked for notices are told about the table of names. */
module BrokerNotices {
  import opened Broker
  import opened BrokerProofs
  import opened BrokerRuns
  import opened DcopTypes
  import opened Options
  import opened Registry

  /** The name that a client gets in a step. */
  function NewName(s: Server, ev: Event): string
    requires IsNaming(s, ev)
  {
    UniqueName(ReleaseName(s.appIds, s.clients[ev.id].appId, ev.id).Keys, ev.request.app)
  }

  /** A client that has a name gets another one. */
  predicate IsRenaming(s: Server, ev: Event) {
    IsNaming(s, ev) && s.clients[ev.id].appId.Some? && s.clients[ev.id].appId.value != NewName(s, ev)
  }

  predicate By(ev: Event, l: IceConn) {
    match ev
    case Connect(_) => false
    case Disconnect(id) => id == l
    case Message(id, _, _, _, _) => id == l
    case Shutdown => false
  }

  /** What a listener makes of the notice about a step, if it is sent one: the name in
      "applicationRegistered" is added, that in "applicationRemoved" taken away. */
  function Heard(names: set<string>, s: Server, ev: Event, l: IceConn): set<string> {
    if l !in Broadcast(s, ev) then names
    else if IsNaming(s, ev) then names + {NewName(s, ev)}
    else if IsUnnaming(s, ev) then names - {s.clients[ev.id].appId.value}
    else names
  }

  ghost predicate Listens(s: Server, l: IceConn) {
    l in s.clients && s.clients[l].notifyRegister > 0
  }

  lemma ServedNames(s: Server, id: IceConn, opcode: Opcode, key: CARD32, toApp: string, request: Request)
    requires id in s.clients && ForServer(opcode, toApp)
    ensures WithoutTarget(s, id, opcode, key, toApp, request).server.appIds == Receive(s, id, request).0.appIds
  {
  }

  lemma NamingIs(s: Server, ev: Event)
    requires ValidNames(s) && IsNaming(s, ev)
    ensures Step(s, ev).server.appIds == ReleaseName(s.appIds, s.clients[ev.id].appId, ev.id)[NewName(s, ev) := ev.id]
  {
    ServedNames(s, ev.id, ev.opcode, ev.key, ev.toApp, ev.request);
  }

  lemma ReceivingNamesNobody(s: Server, id: IceConn, request: Request)
    requires id in s.clients && (request.RegisterAs? ==> request.app == "")
    ensures Receive(s, id, request).0.appIds == s.appIds
  {
  }

  lemma UnroutedNamesNobody(s: Server, id: IceConn, opcode: Opcode, key: CARD32, toApp: string, request: Request)
    requires id in s.clients && (ForServer(opcode, toApp) && request.RegisterAs? ==> request.app == "")
    ensures WithoutTarget(s, id, opcode, key, toApp, request).server.appIds == s.appIds
  {
    if ForServer(opcode, toApp) {
      ReceivingNamesNobody(s, id, request);
    }
  }

  lemma NoNameChanges(s: Server, ev: Event)
    requires ValidNames(s) && Possible(s, ev) && !IsNaming(s, ev) && !IsUnnaming(s, ev)
    ensures Step(s, ev).server.appIds == s.appIds
  {
    match ev
    case Connect(_) =>
    case Disconnect(_) =>
    case Message(id, opcode, key, toApp, request) =>
      if id in s.clients && toApp !in s.appIds {
        UnroutedNamesNobody(s, id, opcode, key, toApp, request);
      }
    case Shutdown =>
  }

  /** Everyone else who listens is told of every change of the table, and what is told is
      all that changes exactly when no client gets another name. */
  lemma HeardExactly(s: Server, ev: Event, l: IceConn)
    requires ValidNames(s) && Possible(s, ev) && Listens(s, l) && !By(ev, l)
    ensures Heard(s.appIds.Keys, s, ev, l) == Step(s, ev).server.appIds.Keys <==> !IsRenaming(s, ev)
  {
    if IsNaming(s, ev) {
      NamingIs(s, ev);
      var former := s.clients[ev.id].appId;
      if IsRenaming(s, ev) {
        assert former.value in Heard(s.appIds.Keys, s, ev, l);
      } else if former.Some? {
        assert s.appIds.Keys == (s.appIds.Keys - {former.value}) + {former.value};
      }
    } else if !IsUnnaming(s, ev) {
      NoNameChanges(s, ev);
    }
  }

  lemma ReceivingKeepsListening(s: Server, id: IceConn, request: Request, l: IceConn)
    requires id in s.clients && Listens(s, l) && id != l
    ensures Listens(Receive(s, id, request).0, l)
  {
  }

  /** Others cannot end it that a client listens. */
  lemma ListensOn(s: Server, ev: Event, l: IceConn)
    requires ValidNames(s) && Possible(s, ev) && Listens(s, l) && !By(ev, l)
    ensures Listens(Step(s, ev).server, l)
  {
    match ev
    case Connect(_) =>
    case Disconnect(id) => DropPendingKeepsIdentities(s.clients - {id}, id, s.clients[id]);
    case Message(id, opcode, _, toApp, request) =>
      if id in s.clients {
        if toApp in s.appIds {
          RouteKeepsIdentities(s.clients, id, opcode, s.appIds[toApp]);
        } else {
          ReceivingKeepsListening(s, id, request, l);
        }
      }
    case Shutdown =>
  }

  /** A run of the others. */
  ghost predicate OthersRun(s: Server, evs: seq<Event>, l: IceConn)
    requires ValidNames(s)
  {
    AnyRun(s, evs) && forall ev <- evs :: !By(ev, l)
  }

  ghost predicate NeverRenames(s: Server, evs: seq<Event>)
    requires ValidNames(s) && AnyRun(s, evs)
    decreases |evs|
  {
    evs == [] || (!IsRenaming(s, evs[0]) && (StepKeepsNames(s, evs[0]); NeverRenames(Step(s, evs[0]).server, evs[1..])))
  }

  /** What the listener believes is the table of names in all states of a run. */
  ghost predicate AlwaysTrue(names: set<string>, s: Server, evs: seq<Event>, l: IceConn)
    requires ValidNames(s) && AnyRun(s, evs)
    decreases |evs|
  {
    && names == s.appIds.Keys
    && (evs == [] ||
        (StepKeepsNames(s, evs[0]);
         AlwaysTrue(Heard(names, s, evs[0], l), Step(s, evs[0]).server, evs[1..], l)))
  }

  /** A client that knows the names and asked for notices knows them from then on exactly as
      long as no client gets another name. */
  lemma {:induction false} NoticesTellNamesExactly(s: Server, evs: seq<Event>, l: IceConn)
    requires ValidNames(s) && OthersRun(s, evs, l) && Listens(s, l)
    ensures AlwaysTrue(s.appIds.Keys, s, evs, l) <==> NeverRenames(s, evs)
    decreases |evs|
  {
    if evs != [] {
      assert evs[0] in evs;
      StepKeepsNames(s, evs[0]);
      HeardExactly(s, evs[0], l);
      ListensOn(s, evs[0], l);
      if !IsRenaming(s, evs[0]) {
        NoticesTellNamesExactly(Step(s, evs[0]).server, evs[1..], l);
      }
    }
  }

  /** A client called "a" that registers as "b" stays "a" for those who listen. */
  lemma RenameIsNotTold(s: Server, id: IceConn, l: IceConn, a: string, b: string)
    requires ValidNames(s) && id in s.clients && s.clients[id].appId == Some(a) && Listens(s, l) && l != id
    requires b != a && b != "" && b !in s.appIds && "DCOPServer" !in s.appIds
    ensures var ev := Message(id, Call, 1, "DCOPServer", RegisterAs(b));
            var t := Step(s, ev).server;
            a !in t.appIds && b in t.appIds && Heard(s.appIds.Keys, s, ev, l) == t.appIds.Keys + {a}
  {
    var ev := Message(id, Call, 1, "DCOPServer", RegisterAs(b));
    NamingIs(s, ev);
    assert a in s.appIds;
  }
}
