/** The two loops of the server that send one message to many clients, in the order of a
    dictionary, which is not known. */
module Broadcasts {
  import B = Broker
  import opened Connections
  import opened DcopTypes
  import opened Options

  /** One message of the kind Send for each of the receivers. */
  function Each(to: set<IceConn>, key: CARD32, from: Option<IceConn>): multiset<B.Sent> {
    multiset(set t | t in to :: B.Sent(t, Send, key, from))
  }

  lemma EachMore(to: set<IceConn>, t: IceConn, key: CARD32, from: Option<IceConn>)
    requires t !in to
    ensures Each(to + {t}, key, from) == Each(to, key, from) + multiset{B.Sent(t, Send, key, from)}
  {
    var m := B.Sent(t, Send, key, from);
    var all, some := set x | x in to + {t} :: B.Sent(x, Send, key, from), set x | x in to :: B.Sent(x, Send, key, from);
    assert m !in some;
    assert all == some + {m};
  }

  /** What a step sends to many clients. */
  ghost function Casting(s: B.Server, ev: B.Event): multiset<B.Sent> {
    Each(B.Broadcast(s, ev), B.BroadcastKey(s, ev), if B.IsMulticast(s, ev) then Some(ev.id) else None)
  }

  /** Who is told about a request. */
  ghost function NoticedOf(s: B.Server, id: IceConn, request: B.Request): set<IceConn> {
    if request.RegisterAs? && request.app != "" then B.Listeners(s.clients, id) else {}
  }

  /** What a message without an answer is sent on as, if it is for no client. */
  ghost function WithoutTargetTo(s: B.Server, id: IceConn, key: CARD32, toApp: string,
                                 request: B.Request): multiset<B.Sent>
  {
    if toApp == "DCOPServer" then Each(NoticedOf(s, id, request), 1, None)
    else if B.IsPattern(toApp) then Each(B.Matching(s.appIds, toApp), key, Some(id))
    else multiset{}
  }

  lemma NoneToCast(key: CARD32, from: Option<IceConn>)
    ensures Each({}, key, from) == multiset{}
  {
  }

  lemma CastingIs(s: B.Server, id: IceConn, opcode: Opcode, key: CARD32, toApp: string, request: B.Request)
    requires id in s.clients && toApp !in s.appIds
    ensures Casting(s, B.Message(id, opcode, key, toApp, request))
         == if opcode == Call && toApp == "DCOPServer" then Each(NoticedOf(s, id, request), 1, None)
            else if opcode == Send || opcode == ReplyDelayed then WithoutTargetTo(s, id, key, toApp, request)
            else multiset{}
  {
    NoneToCast(1, None);
  }

  lemma NothingCast(s: B.Server, id: IceConn, opcode: Opcode, key: CARD32, toApp: string, request: B.Request)
    requires id in s.clients && toApp !in s.appIds
    ensures opcode != Call && opcode != Send && opcode != ReplyDelayed ==>
              Casting(s, B.Message(id, opcode, key, toApp, request)) == multiset{}
  {
    CastingIs(s, id, opcode, key, toApp, request);
  }

  // ----------------------------------------------------------------- notices

  /** The clients of a table that get notices about the client of the handle `but`. */
  ghost function ListeningIn(clients: map<IceConn, DCOPConnection>, ids: set<IceConn>, but: IceConn): set<IceConn>
    requires ids <= clients.Keys
    reads (clients.Values)`notifyRegister
  {
    set id | id in ids && id != but && clients[id].notifyRegister > 0
  }

  lemma ListeningMore(clients: map<IceConn, DCOPConnection>, ids: set<IceConn>, id: IceConn, but: IceConn)
    requires ids <= clients.Keys && id in clients && id !in ids
    ensures var now := ListeningIn(clients, ids + {id}, but);
            if id != but && clients[id].notifyRegister > 0
            then Each(now, 1, None) == Each(ListeningIn(clients, ids, but), 1, None)
                + multiset{B.Sent(id, Send, 1, None)}
            else Each(now, 1, None) == Each(ListeningIn(clients, ids, but), 1, None)
  {
    var now, was := ListeningIn(clients, ids + {id}, but), ListeningIn(clients, ids, but);
    if id != but && clients[id].notifyRegister > 0 {
      assert now == was + {id};
      EachMore(was, id, 1, None);
    } else {
      assert now == was;
    }
  }

  /** The loop of broadcastApplicationRegistration. */
  method NoticesAbout(clients: map<IceConn, DCOPConnection>, conn: DCOPConnection) returns (notices: seq<B.Sent>)
    requires forall id | id in clients :: clients[id] == conn <==> id == conn.iceConn
    ensures multiset(notices) == Each(ListeningIn(clients, clients.Keys, conn.iceConn), 1, None)
  {
    notices := [];
    var rest := clients.Keys;
    ghost var done: set<IceConn> := {};
    while rest != {}
      invariant rest + done == clients.Keys && rest !! done
      invariant multiset(notices) == Each(ListeningIn(clients, done, conn.iceConn), 1, None)
      decreases rest
    {
      var id :| id in rest;
      ListeningMore(clients, done, id, conn.iceConn);
      if clients[id].notifyRegister > 0 && clients[id] != conn {
        notices := notices + [B.Sent(id, Send, 1, None)];
      }
      rest, done := rest - {id}, done + {id};
    }
    assert done == clients.Keys;
  }

  // --------------------------------------------------------------- multicast

  /** Those whose names begin like the pattern, among some names. */
  ghost function MatchingIn(appIds: map<string, DCOPConnection>, names: set<string>, toApp: string): set<IceConn>
    requires B.IsPattern(toApp) && names <= appIds.Keys
  {
    set n | n in names && toApp[..|toApp| - 1] <= n :: appIds[n].iceConn
  }

  ghost predicate OneNameEach(appIds: map<string, DCOPConnection>) {
    forall n, m | n in appIds && m in appIds && appIds[n].iceConn == appIds[m].iceConn :: n == m
  }

  lemma MatchingMore(appIds: map<string, DCOPConnection>, names: set<string>, n: string, toApp: string, key: CARD32,
                     from: IceConn)
    requires OneNameEach(appIds) && B.IsPattern(toApp) && names <= appIds.Keys && n in appIds && n !in names
    ensures var now := MatchingIn(appIds, names + {n}, toApp);
            var was := Each(MatchingIn(appIds, names, toApp), key, Some(from));
            if toApp[..|toApp| - 1] <= n
            then Each(now, key, Some(from)) == was + multiset{B.Sent(appIds[n].iceConn, Send, key, Some(from))}
            else Each(now, key, Some(from)) == was
  {
    var now, was := MatchingIn(appIds, names + {n}, toApp), MatchingIn(appIds, names, toApp);
    if toApp[..|toApp| - 1] <= n {
      assert now == was + {appIds[n].iceConn};
      EachMore(was, appIds[n].iceConn, key, Some(from));
    } else {
      assert now == was;
    }
  }

  /** The loop of processMessage over the clients that a pattern stands for. */
  method ForMatching(appIds: map<string, DCOPConnection>, toApp: string, key: CARD32, from: IceConn)
    returns (cast: seq<B.Sent>)
    requires OneNameEach(appIds) && B.IsPattern(toApp)
    ensures multiset(cast) == Each(MatchingIn(appIds, appIds.Keys, toApp), key, Some(from))
  {
    cast := [];
    var l := |toApp| - 1;
    var rest := appIds.Keys;
    ghost var done: set<string> := {};
    while rest != {}
      invariant rest + done == appIds.Keys && rest !! done
      invariant multiset(cast) == Each(MatchingIn(appIds, done, toApp), key, Some(from))
      decreases rest
    {
      var n :| n in rest;
      MatchingMore(appIds, done, n, toApp, key, from);
      if toApp[..l] <= n {
        cast := cast + [B.Sent(appIds[n].iceConn, Send, key, Some(from))];
      }
      rest, done := rest - {n}, done + {n};
    }
    assert done == appIds.Keys;
  }
}
