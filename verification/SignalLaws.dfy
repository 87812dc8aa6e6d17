/** What the table of signal connections owes to those who connect, emit and disconnect. */
module SignalLaws {
  import opened Connections
  import opened Options
  import opened PtrLists
  import opened Signals
  import opened Texts

  // ------------------------------------------------------------------- emitting

  /** A connection to one object of the sender takes only that object's signals. */
  predicate Fits(c: SC, senderObj: string) {
    c.senderObj == "" || c.senderObj == senderObj
  }

  predicate Served(listed: seq<SC>, conn: DCOPConnection?, name: Option<string>, senderObj: string, c: SC) {
    c in Receivers(listed, conn, name, senderObj, false)
  }

  /** A volatile connection is served exactly if the emitter is the sender it was made for,
      whatever that is called by now. */
  lemma VolatileIsServed(listed: seq<SC>, conn: DCOPConnection?, name: Option<string>, senderObj: string, c: SC)
    requires c in listed && c.senderConn != null
    ensures Served(listed, conn, name, senderObj, c) <==> Fits(c, senderObj) && conn == c.senderConn
  {
    ReceiversMembers(listed, conn, name, senderObj, false, c);
  }

  /** A connection without a sender is served whoever emits. */
  lemma AnonymousIsServed(listed: seq<SC>, conn: DCOPConnection?, name: Option<string>, senderObj: string, c: SC)
    requires c in listed && c.senderConn == null && c.sender == ""
    ensures Served(listed, conn, name, senderObj, c) <==> Fits(c, senderObj)
  {
    ReceiversMembers(listed, conn, name, senderObj, false, c);
  }

  /** A connection to a name is served if the emitter has that name, and the one to the server's
      name in any case. */
  lemma NamedIsServed(listed: seq<SC>, conn: DCOPConnection?, name: Option<string>, senderObj: string, c: SC)
    requires c in listed && c.senderConn == null && c.sender != ""
    ensures Served(listed, conn, name, senderObj, c)
            <==> Fits(c, senderObj) && (c.sender == "DCOPServer" || (conn != null && name == Some(c.sender)))
  {
    ReceiversMembers(listed, conn, name, senderObj, false, c);
  }

  /** Nothing else is served, and an emitter that is to be left out is left out, and nobody else. */
  lemma OthersAreNotServed(listed: seq<SC>, conn: DCOPConnection?, name: Option<string>, senderObj: string, c: SC)
    ensures Served(listed, conn, name, senderObj, c) ==> c in listed
    ensures c in Receivers(listed, conn, name, senderObj, true)
            <==> Served(listed, conn, name, senderObj, c) && conn != c.recvConn
  {
    ReceiversMembers(listed, conn, name, senderObj, false, c);
    ReceiversMembers(listed, conn, name, senderObj, true, c);
  }

  lemma {:induction false} ReceiversAreRest(listed: seq<SC>, conn: DCOPConnection?, name: Option<string>,
                                            senderObj: string, gone: set<SC>)
    requires forall c <- listed :: c in gone <==> !Wanted(c, conn, name, senderObj, false)
    ensures Receivers(listed, conn, name, senderObj, false) == Without(listed, gone)
  {
    if listed != [] {
      assert listed[0] in listed && forall c <- listed[1..] :: c in listed;
      ReceiversAreRest(listed[1..], conn, name, senderObj, gone);
    }
  }

  /** Those who are served are served in the order in which they connected. */
  lemma ServedInOrder(listed: seq<SC>, conn: DCOPConnection?, name: Option<string>, senderObj: string)
    ensures Receivers(listed, conn, name, senderObj, false)
         == Without(listed, set c | c in listed && !Served(listed, conn, name, senderObj, c))
  {
    forall c | c in listed
      ensures Served(listed, conn, name, senderObj, c) <==> Wanted(c, conn, name, senderObj, false)
    {
      ReceiversMembers(listed, conn, name, senderObj, false, c);
    }
    ReceiversAreRest(listed, conn, name, senderObj, set c | c in listed && !Served(listed, conn, name, senderObj, c));
  }

  /** An emission names the object in front of the first '#', if there is one. */
  lemma EmissionNames(obj: string, signal: string)
    requires '#' !in obj
    ensures SenderObj(obj + "#" + signal) == obj && SignalName(obj + "#" + signal) == signal
    ensures SenderObj(obj) == "" && SignalName(obj) == obj
  {
    IndexOfBehind(obj, '#', signal);
  }

  // ----------------------------------------------------------------- connecting

  /** Once a volatile connection is made, the signal gets to it exactly when its sender emits
      it, and all other connections get what they got before. */
  lemma ConnectedIsServed(index: Index, lists: Lists, c: SC, index': Index, lists': Lists, conn: DCOPConnection?,
                          name: Option<string>, senderObj: string)
    requires Added(index, lists, c, index', lists') && c !in At(index, c.signal)
    ensures c.senderConn != null ==>
              (Served(At(index', c.signal), conn, name, senderObj, c) <==> Fits(c, senderObj) && conn == c.senderConn)
    ensures forall x: SC, s | x != c ::
              Served(At(index', s), conn, name, senderObj, x) <==> Served(At(index, s), conn, name, senderObj, x)
  {
    if c.senderConn != null {
      VolatileIsServed(At(index', c.signal), conn, name, senderObj, c);
    }
    forall x: SC, s | x != c
      ensures Served(At(index', s), conn, name, senderObj, x) <==> Served(At(index, s), conn, name, senderObj, x)
    {
      ReceiversMembers(At(index', s), conn, name, senderObj, false, x);
      ReceiversMembers(At(index, s), conn, name, senderObj, false, x);
    }
  }

  lemma {:induction false} ReceiversSnoc(listed: seq<SC>, c: SC, conn: DCOPConnection?, name: Option<string>,
                                         senderObj: string)
    ensures Receivers(listed + [c], conn, name, senderObj, false)
         == Receivers(listed, conn, name, senderObj, false)
            + if Wanted(c, conn, name, senderObj, false) then [c] else []
    decreases |listed|
  {
    if listed == [] {
      assert [] + [c] == [c] && [c][1..] == [];
    } else {
      assert (listed + [c])[0] == listed[0] && (listed + [c])[1..] == listed[1..] + [c];
      ReceiversSnoc(listed[1..], c, conn, name, senderObj);
    }
  }

  /** Whoever connects last is served last, and nobody else is served otherwise than before. */
  lemma NewIsServedLast(index: Index, lists: Lists, c: SC, index': Index, lists': Lists, s: string,
                        conn: DCOPConnection?, name: Option<string>, senderObj: string)
    requires Added(index, lists, c, index', lists')
    ensures var before, after := Receivers(At(index, s), conn, name, senderObj, false),
                                 Receivers(At(index', s), conn, name, senderObj, false);
            after == before || (s == c.signal && after == before + [c])
  {
    if s == c.signal {
      ReceiversSnoc(At(index, s), c, conn, name, senderObj);
    }
  }

  // -------------------------------------------------------------- disconnecting

  /** A connection comes from the client that is called `sender`: by the name it has now if
      the connection is volatile, else by the name that was given. */
  predicate ComesFrom(c: SC, names: Names, sender: string) {
    if c.senderConn == null then c.sender == sender
    else c.senderConn in names && names[c.senderConn] == Some(sender)
  }

  /** An argument that is left empty does not matter. */
  predicate Agrees(arg: string, value: string) {
    arg == "" || arg == value
  }

  /** disconnectSignal is to delete the caller's connections from that sender that agree with
      all arguments that are given. */
  lemma TargetsExactly(listed: seq<SC>, names: Names, sender: string, senderObj: string, conn: DCOPConnection,
                       receiverObj: string, slot: string, c: SC)
    ensures c in Targets(listed, names, sender, senderObj, conn, receiverObj, slot) <==>
              && c in listed && c.recvConn == conn && ComesFrom(c, names, sender)
              && Agrees(senderObj, c.senderObj) && Agrees(receiverObj, c.recvObj) && Agrees(slot, c.slot)
  {
  }

  /** With the arguments it was made with, a connection is deleted again: always, if it is by
      name, and as long as the sender is called the same, if it is volatile. */
  lemma ConnectedIsDisconnected(listed: seq<SC>, names: Names, c: SC)
    requires c in listed
    ensures c in Targets(listed, names, c.sender, c.senderObj, c.recvConn, c.recvObj, c.slot)
            <==> (c.senderConn != null ==> c.senderConn in names && names[c.senderConn] == Some(c.sender))
  {
    TargetsExactly(listed, names, c.sender, c.senderObj, c.recvConn, c.recvObj, c.slot, c);
  }

  /** What was deleted is never served again, and all else is served as before. */
  lemma DeletedIsSilent(index: Index, lists: Lists, gone: set<SC>, index': Index, lists': Lists, c: SC, s: string,
                        conn: DCOPConnection?, name: Option<string>, senderObj: string)
    requires Purged(index, lists, gone, index', lists')
    ensures Served(At(index', s), conn, name, senderObj, c)
            <==> c !in gone && Served(At(index, s), conn, name, senderObj, c)
  {
    WithoutMembers(At(index, s), gone, c);
    ReceiversMembers(At(index', s), conn, name, senderObj, false, c);
    ReceiversMembers(At(index, s), conn, name, senderObj, false, c);
  }

  /** What removeConnections says it removes: the connections that the object receives, and the
      volatile ones that it sends. */
  function Documented(listed: seq<SC>, conn: DCOPConnection, obj: string): set<SC> {
    set c | c in listed && ((c.recvConn == conn && c.recvObj == obj) || (c.senderConn == conn && c.senderObj == obj))
  }

  /** A connection of a client to itself, of which the object is only one end. */
  predicate HalfOf(c: SC, conn: DCOPConnection, obj: string) {
    c.recvConn == conn && c.senderConn == conn && (c.recvObj == obj) != (c.senderObj == obj)
  }

  lemma RelatedIs(listed: seq<SC>, conn: DCOPConnection, obj: string, c: SC)
    requires obj != "" && c in listed && Involves(c, conn)
    ensures c in RelatedOf(listed, conn, obj) <==> c in Documented(listed, conn, obj) && !HalfOf(c, conn, obj)
    ensures HalfOf(c, conn, obj) ==> c in Documented(listed, conn, obj)
  {
  }

  /** removeConnections removes what it says exactly if no connection of the client to itself
      has the object at one end only. */
  lemma RemovesAsDocumentedExactly(listed: seq<SC>, conn: DCOPConnection, obj: string)
    requires obj != "" && forall c <- listed :: Involves(c, conn)
    ensures RelatedOf(listed, conn, obj) == Documented(listed, conn, obj)
            <==> forall c <- listed :: !HalfOf(c, conn, obj)
  {
    forall c | c in listed
      ensures c in RelatedOf(listed, conn, obj) <==> c in Documented(listed, conn, obj) && !HalfOf(c, conn, obj)
      ensures HalfOf(c, conn, obj) ==> c in Documented(listed, conn, obj)
    {
      RelatedIs(listed, conn, obj, c);
    }
    if forall c <- listed :: !HalfOf(c, conn, obj) {
      assert forall c :: c in RelatedOf(listed, conn, obj) <==> c in Documented(listed, conn, obj);
    }
  }

  /** Without an object, all connections of the client go. */
  lemma AllAreRemoved(listed: seq<SC>, conn: DCOPConnection)
    ensures RelatedOf(listed, conn, "") == set c | c in listed
  {
  }

  /** A connection of a client from its object "a" to its object "b" survives the removal of
      either, although it is documented as one of both. */
  method HalfSurvives(conn: DCOPConnection) returns (c: DCOPSignalConnection)
    ensures c in Documented([c], conn, "a") && c in Documented([c], conn, "b")
    ensures RelatedOf([c], conn, "a") == {} && RelatedOf([c], conn, "b") == {}
  {
    c := new DCOPSignalConnection("me", "a", conn, "s()", conn, "b", "t()");
    RelatedIs([c], conn, "a", c);
    RelatedIs([c], conn, "b", c);
  }
}
