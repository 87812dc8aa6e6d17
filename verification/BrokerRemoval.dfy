/** Removing a connection, possibly in the middle of calls on either side:
    the two draining loops and the short-circuit removal amount to striking
    the connection out of every list. */
module BrokerRemoval {
  import opened Broker
  import opened BrokerProofs
  import opened DcopTypes
  import opened Options
  import opened PtrLists

  function Struck(c: Conn, dead: IceConn): Conn {
    c.(waitingOnReply := Without(c.waitingOnReply, {dead}),
       waitingForReply := Without(c.waitingForReply, {dead}),
       waitingForDelayedReply := Without(c.waitingForDelayedReply, {dead}))
  }

  /** The simple form: every other connection, without `dead` in its lists. */
  function Erase(cl: Clients, dead: IceConn): Clients {
    map c | c in cl && c != dead :: Struck(cl[c], dead)
  }

  /** The messages that tell `a` how a call to `b` ended. */
  function Answers(sent: seq<Sent>, a: IceConn, b: IceConn): nat {
    if sent == [] then 0
    else OneIf(sent[0].to == a && sent[0].from == Some(b) && sent[0].opcode in {Reply, ReplyFailed})
         + Answers(sent[1..], a, b)
  }

  lemma {:induction false} AnswersConcat(s: seq<Sent>, t: seq<Sent>, a: IceConn, b: IceConn)
    ensures Answers(s + t, a, b) == Answers(s, a, b) + Answers(t, a, b)
  {
    if s == [] {
      assert s + t == t;
    } else {
      assert (s + t)[1..] == s[1..] + t;
      AnswersConcat(s[1..], t, a, b);
    }
  }

  function Minus(m: nat, n: nat): nat { if m > n then m - n else 0 }

  lemma CountHead(s: seq<IceConn>, x: IceConn)
    requires s != []
    ensures Count(s, x) == OneIf(s[0] == x) + Count(s[1..], x)
  {
    assert s == [s[0]] + s[1..];
  }

  lemma {:induction false} AbortCallsEffect(cl: Clients, dead: IceConn, callers: seq<IceConn>, x: IceConn)
    requires x in cl
    ensures var cl' := AbortCalls(cl, dead, callers).0;
            && cl'[x] == cl[x].(waitingOnReply := cl'[x].waitingOnReply)
            && Count(cl'[x].waitingOnReply, dead) == Minus(Count(cl[x].waitingOnReply, dead), Count(callers, x))
            && Without(cl'[x].waitingOnReply, {dead}) == Without(cl[x].waitingOnReply, {dead})
  {
    if callers != [] {
      var a := callers[0];
      var cl1 := if a in cl then cl[a := cl[a].(waitingOnReply := RemoveRef(cl[a].waitingOnReply, dead))] else cl;
      AbortCallsEffect(cl1, dead, callers[1..], x);
      CountRemoveRef(cl[x].waitingOnReply, dead, dead);
      WithoutAbsorbs(cl[x].waitingOnReply, dead, {dead});
      CountHead(callers, x);
    }
  }

  lemma {:induction false} AbortCallsAnswers(cl: Clients, dead: IceConn, callers: seq<IceConn>, a: IceConn, b: IceConn)
    ensures Answers(AbortCalls(cl, dead, callers).1, a, b) == if b == dead then Count(callers, a) else 0
  {
    if callers != [] {
      var x := callers[0];
      var cl1 := if x in cl then cl[x := cl[x].(waitingOnReply := RemoveRef(cl[x].waitingOnReply, dead))] else cl;
      AbortCallsAnswers(cl1, dead, callers[1..], a, b);
      CountHead(callers, a);
    }
  }

  function Owed(c: Conn, dead: IceConn): nat {
    Count(c.waitingForReply, dead) + Count(c.waitingForDelayedReply, dead)
  }

  lemma ForgetCallerEffect(c: Conn, dead: IceConn)
    ensures Owed(ForgetCaller(c, dead), dead) == Minus(Owed(c, dead), 1)
    ensures Struck(ForgetCaller(c, dead), dead) == Struck(c, dead)
    ensures ForgetCaller(c, dead).waitingOnReply == c.waitingOnReply
  {
    CountRemoveRef(c.waitingForReply, dead, dead);
    CountRemoveRef(c.waitingForDelayedReply, dead, dead);
    WithoutAbsorbs(c.waitingForReply, dead, {dead});
    WithoutAbsorbs(c.waitingForDelayedReply, dead, {dead});
    assert dead in c.waitingForReply <==> dead in multiset(c.waitingForReply);
    assert dead in c.waitingForDelayedReply <==> dead in multiset(c.waitingForDelayedReply);
  }

  lemma {:induction false} ForgetCallsEffect(cl: Clients, dead: IceConn, called: seq<IceConn>, x: IceConn)
    requires x in cl
    ensures var cl' := ForgetCalls(cl, dead, called);
            && Owed(cl'[x], dead) == Minus(Owed(cl[x], dead), Count(called, x))
            && Struck(cl'[x], dead) == Struck(cl[x], dead)
            && cl'[x].waitingOnReply == cl[x].waitingOnReply
  {
    if called != [] {
      var b := called[0];
      var cl1 := if b in cl then cl[b := ForgetCaller(cl[b], dead)] else cl;
      ForgetCallsEffect(cl1, dead, called[1..], x);
      ForgetCallerEffect(cl[x], dead);
      CountHead(called, x);
    }
  }

  lemma NoneLeft(s: seq<IceConn>, dead: IceConn)
    requires Count(s, dead) == 0
    ensures Without(s, {dead}) == s
  {
    assert dead !in s;
    WithoutNothing(s, {dead});
  }

  /** With the books in order, the three loops of `removeConnection` strike the
      dead connection out of every list of every other connection, and change
      nothing else. */
  lemma DropPendingErases(cl: Clients, dead: IceConn)
    requires Bookkept(cl) && dead in cl
    ensures DropPending(cl - {dead}, dead, cl[dead]).0 == Erase(cl, dead)
  {
    var conn := cl[dead];
    var cl0 := cl - {dead};
    var cl1 := AbortCalls(cl0, dead, conn.waitingForReply).0;
    var cl2 := AbortCalls(cl1, dead, conn.waitingForDelayedReply).0;
    var cl3 := ForgetCalls(cl2, dead, conn.waitingOnReply);
    forall x | x in cl0 ensures cl3[x] == Struck(cl[x], dead) {
      AbortCallsEffect(cl0, dead, conn.waitingForReply, x);
      AbortCallsEffect(cl1, dead, conn.waitingForDelayedReply, x);
      ForgetCallsEffect(cl2, dead, conn.waitingOnReply, x);
      assert Awaited(cl, x, dead) == Outstanding(cl, x, dead);
      assert Awaited(cl, dead, x) == Outstanding(cl, dead, x);
      NoneLeft(cl3[x].waitingOnReply, dead);
      NoneLeft(cl3[x].waitingForReply, dead);
      NoneLeft(cl3[x].waitingForDelayedReply, dead);
    }
  }

  lemma EraseCounts(cl: Clients, dead: IceConn, x: IceConn, y: IceConn)
    requires x in cl && y in cl && x != dead && y != dead
    ensures Awaited(Erase(cl, dead), x, y) == Awaited(cl, x, y)
    ensures Outstanding(Erase(cl, dead), x, y) == Outstanding(cl, x, y)
  {
    WithoutCounts(cl[x].waitingOnReply, {dead}, y);
    WithoutCounts(cl[y].waitingForReply, {dead}, x);
    WithoutCounts(cl[y].waitingForDelayedReply, {dead}, x);
  }

  lemma WithoutOnlyOpen(cl: Clients, list: seq<IceConn>, dead: IceConn)
    requires OnlyOpen(cl, list)
    ensures OnlyOpen(Erase(cl, dead), Without(list, {dead}))
  {
    forall x | x in Without(list, {dead}) ensures x in Erase(cl, dead) {
      WithoutCounts(list, {dead}, x);
      assert x in multiset(Without(list, {dead}));
      assert x in multiset(list);
    }
  }

  lemma EraseKeepsBooks(cl: Clients, dead: IceConn)
    requires Bookkept(cl)
    ensures Bookkept(Erase(cl, dead))
  {
    var cl' := Erase(cl, dead);
    forall x, y | x in cl' && y in cl' ensures Awaited(cl', x, y) == Outstanding(cl', x, y) {
      EraseCounts(cl, dead, x, y);
      assert Awaited(cl, x, y) == Outstanding(cl, x, y);
    }
    forall c | c in cl' ensures OnlyOpen(cl', cl'[c].waitingOnReply) && OnlyOpen(cl', cl'[c].waitingForReply)
                             && OnlyOpen(cl', cl'[c].waitingForDelayedReply) {
      WithoutOnlyOpen(cl, cl[c].waitingOnReply, dead);
      WithoutOnlyOpen(cl, cl[c].waitingForReply, dead);
      WithoutOnlyOpen(cl, cl[c].waitingForDelayedReply, dead);
    }
  }

  /** Why the condition on answers matters: a plain Reply to a call that `b` had
      already put off leaves the put-off entry behind, and when the caller then goes
      away, its closed handle stays on a list of `b` for good. */
  lemma StrayReplyDangles(cl: Clients, a: IceConn, b: IceConn)
    requires Bookkept(cl) && a in cl && b in cl && a != b
    requires a !in cl[b].waitingForReply && a in cl[b].waitingForDelayedReply
    ensures var cl1 := AnswerCall(cl, a, b, false);
            var cl2 := DropPending(cl1 - {a}, a, cl1[a]).0;
            b in cl2 && a !in cl2 && Owed(cl2[b], a) == 1 && !NoDangling(cl2)
  {
    var cl1 := AnswerCall(cl, a, b, false);
    var conn, open := cl1[a], cl1 - {a};
    var once := AbortCalls(open, a, conn.waitingForReply).0;
    var twice := AbortCalls(once, a, conn.waitingForDelayedReply).0;
    AnswerCallLists(cl, a, b, false, a);
    AnswerCallLists(cl, a, b, false, b);
    assert Awaited(cl, a, b) == Outstanding(cl, a, b);
    CountRemoveRef(cl[a].waitingOnReply, b, b);
    CountRemoveRef(cl[b].waitingForReply, a, a);
    Counterpart(cl, a, b);
    AbortCallsEffect(open, a, conn.waitingForReply, b);
    AbortCallsEffect(once, a, conn.waitingForDelayedReply, b);
    ForgetCallsEffect(twice, a, conn.waitingOnReply, b);
    var left := ForgetCalls(twice, a, conn.waitingOnReply)[b];
    assert a in multiset(left.waitingForReply) || a in multiset(left.waitingForDelayedReply);
    assert a in left.waitingForReply || a in left.waitingForDelayedReply;
  }

  /** Every call still owed an answer by the dead connection is answered with
      exactly one ReplyFailed, and of the others only those are told who asked for notices. */
  lemma RemovalAnswers(s: Server, dead: IceConn, a: IceConn, b: IceConn)
    requires dead in s.clients
    ensures Answers(RemoveConnection(s, dead).sent, a, b) ==
            if b == dead then Outstanding(s.clients, a, dead) else 0
    ensures forall m | m in RemoveConnection(s, dead).sent ::
              m.opcode == ReplyFailed && m.key == 1 && m.from == Some(dead)
    ensures forall l :: l in Broadcast(s, Disconnect(dead)) <==>
              s.clients[dead].appId.Some? && l in s.clients && l != dead && s.clients[l].notifyRegister > 0
  {
    var conn := s.clients[dead];
    var cl0 := s.clients - {dead};
    var r1 := AbortCalls(cl0, dead, conn.waitingForReply);
    var r2 := AbortCalls(r1.0, dead, conn.waitingForDelayedReply);
    AbortCallsAnswers(cl0, dead, conn.waitingForReply, a, b);
    AbortCallsAnswers(r1.0, dead, conn.waitingForDelayedReply, a, b);
    AnswersConcat(r1.1, r2.1, a, b);
    AbortOnlyFails(cl0, dead, conn.waitingForReply);
    AbortOnlyFails(r1.0, dead, conn.waitingForDelayedReply);
  }

  lemma {:induction false} AbortOnlyFails(cl: Clients, dead: IceConn, callers: seq<IceConn>)
    ensures forall m | m in AbortCalls(cl, dead, callers).1 ::
              m.opcode == ReplyFailed && m.key == 1 && m.from == Some(dead)
  {
    if callers != [] {
      var x := callers[0];
      var cl1 := if x in cl then cl[x := cl[x].(waitingOnReply := RemoveRef(cl[x].waitingOnReply, dead))] else cl;
      AbortOnlyFails(cl1, dead, callers[1..]);
    }
  }
}
