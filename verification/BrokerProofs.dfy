/** What every step of the server keeps: the bookkeeping of calls, the table
    of names and the number of clients. */
module BrokerProofs {
  import opened DcopTypes
  import opened PtrLists
  import opened Broker

  function OneIf(b: bool): nat { if b then 1 else 0 }

  // ------------------------------------------------- counting calls per pair

  lemma AddCallCounts(cl: Clients, a: IceConn, b: IceConn, x: IceConn, y: IceConn)
    requires a in cl && b in cl && x in cl && y in cl
    ensures Awaited(AddCall(cl, a, b), x, y) == Awaited(cl, x, y) + OneIf(x == a && y == b)
    ensures Outstanding(AddCall(cl, a, b), x, y) == Outstanding(cl, x, y) + OneIf(x == a && y == b)
  {
  }

  predicate SameIdentity(c: Conn, c': Conn) {
    c'.appId == c.appId && c'.daemon == c.daemon && c'.notifyRegister == c.notifyRegister
  }

  lemma AnswerCallLists(cl: Clients, a: IceConn, b: IceConn, wait: bool, x: IceConn)
    requires a in cl && b in cl && x in cl
    ensures var cl' := AnswerCall(cl, a, b, wait);
            && cl'.Keys == cl.Keys && SameIdentity(cl[x], cl'[x])
            && cl'[x].waitingOnReply ==
               (if x == a && !wait then RemoveRef(cl[a].waitingOnReply, b) else cl[x].waitingOnReply)
            && cl'[x].waitingForReply ==
               (if x == b then RemoveRef(cl[b].waitingForReply, a) else cl[x].waitingForReply)
            && cl'[x].waitingForDelayedReply ==
               (if x == b && wait then cl[b].waitingForDelayedReply + [a] else cl[x].waitingForDelayedReply)
  {
  }

  lemma AnswerLateLists(cl: Clients, a: IceConn, b: IceConn, x: IceConn)
    requires a in cl && b in cl && x in cl
    ensures var cl' := AnswerLate(cl, a, b);
            var matched := a in cl[b].waitingForDelayedReply;
            && cl'.Keys == cl.Keys && SameIdentity(cl[x], cl'[x])
            && cl'[x].waitingOnReply ==
               (if x == a && matched then RemoveRef(cl[a].waitingOnReply, b) else cl[x].waitingOnReply)
            && cl'[x].waitingForReply == cl[x].waitingForReply
            && cl'[x].waitingForDelayedReply ==
               (if x == b && matched then RemoveRef(cl[b].waitingForDelayedReply, a) else cl[x].waitingForDelayedReply)
  {
  }

  lemma CountRemoveRef<T>(s: seq<T>, x: T, y: T)
    ensures Count(RemoveRef(s, x), y) == Count(s, y) - OneIf(x == y && x in s)
  {
    RemoveRefCounts(s, x);
  }

  /** Answering a call the callee has on its plain list. */
  lemma AnswerCallCounts(cl: Clients, a: IceConn, b: IceConn, wait: bool, x: IceConn, y: IceConn)
    requires a in cl && b in cl && x in cl && y in cl
    requires a in cl[b].waitingForReply && b in cl[a].waitingOnReply
    ensures var cl' := AnswerCall(cl, a, b, wait);
            var done := OneIf(!wait && x == a && y == b);
            x in cl' && y in cl' &&
            Awaited(cl', x, y) == Awaited(cl, x, y) - done && Outstanding(cl', x, y) == Outstanding(cl, x, y) - done
  {
    AnswerCallLists(cl, a, b, wait, x);
    AnswerCallLists(cl, a, b, wait, y);
    CountRemoveRef(cl[b].waitingForReply, a, x);
    CountRemoveRef(cl[a].waitingOnReply, b, y);
  }

  lemma AnswerLateCounts(cl: Clients, a: IceConn, b: IceConn, x: IceConn, y: IceConn)
    requires a in cl && b in cl && x in cl && y in cl
    requires a in cl[b].waitingForDelayedReply ==> b in cl[a].waitingOnReply
    ensures var cl' := AnswerLate(cl, a, b);
            var done := OneIf(a in cl[b].waitingForDelayedReply && x == a && y == b);
            x in cl' && y in cl' &&
            Awaited(cl', x, y) == Awaited(cl, x, y) - done && Outstanding(cl', x, y) == Outstanding(cl, x, y) - done
  {
    AnswerLateLists(cl, a, b, x);
    AnswerLateLists(cl, a, b, y);
    CountRemoveRef(cl[b].waitingForDelayedReply, a, x);
    CountRemoveRef(cl[a].waitingOnReply, b, y);
  }

  // ------------------------------------------ calls and answers keep the books

  lemma RemoveRefOnlyOpen(cl: Clients, list: seq<IceConn>, x: IceConn)
    requires OnlyOpen(cl, list)
    ensures OnlyOpen(cl, RemoveRef(list, x))
  {
    RemoveRefCounts(list, x);
    forall y | y in RemoveRef(list, x) ensures y in cl {
      assert y in multiset(RemoveRef(list, x));
      assert y in multiset(list);
    }
  }

  /** In good books an entry on one side has its counterpart on the other. */
  lemma Counterpart(cl: Clients, a: IceConn, b: IceConn)
    requires Bookkept(cl) && a in cl && b in cl
    ensures b in cl[a].waitingOnReply <==> a in cl[b].waitingForReply || a in cl[b].waitingForDelayedReply
  {
    assert Awaited(cl, a, b) == Outstanding(cl, a, b);
    assert b in cl[a].waitingOnReply <==> b in multiset(cl[a].waitingOnReply);
    assert a in cl[b].waitingForReply <==> a in multiset(cl[b].waitingForReply);
    assert a in cl[b].waitingForDelayedReply <==> a in multiset(cl[b].waitingForDelayedReply);
  }

  lemma AddCallKeepsBooks(cl: Clients, a: IceConn, b: IceConn)
    requires Bookkept(cl) && a in cl && b in cl
    ensures Bookkept(AddCall(cl, a, b))
  {
    var cl' := AddCall(cl, a, b);
    forall x, y | x in cl' && y in cl' ensures Awaited(cl', x, y) == Outstanding(cl', x, y) {
      AddCallCounts(cl, a, b, x, y);
    }
  }

  lemma AnswerCallNoDangling(cl: Clients, a: IceConn, b: IceConn, wait: bool)
    requires NoDangling(cl) && a in cl && b in cl
    ensures NoDangling(AnswerCall(cl, a, b, wait))
  {
    RemoveRefOnlyOpen(cl, cl[b].waitingForReply, a);
    RemoveRefOnlyOpen(cl, cl[a].waitingOnReply, b);
    var cl' := AnswerCall(cl, a, b, wait);
    forall c | c in cl' ensures OnlyOpen(cl', cl'[c].waitingOnReply) && OnlyOpen(cl', cl'[c].waitingForReply)
                             && OnlyOpen(cl', cl'[c].waitingForDelayedReply) {
      AnswerCallLists(cl, a, b, wait, c);
    }
  }

  /** The server takes a Reply, ReplyFailed or ReplyWait out of one list
      without looking whether it was there, and the books stay in order exactly
      when the call answered is on the plain list, or is not known at all. */
  lemma AnswerCallKeepsBooksExactly(cl: Clients, a: IceConn, b: IceConn, wait: bool)
    requires Bookkept(cl) && a in cl && b in cl
    ensures Bookkept(AnswerCall(cl, a, b, wait)) <==> Settles(cl, a, b, wait)
  {
    var cl' := AnswerCall(cl, a, b, wait);
    AnswerCallNoDangling(cl, a, b, wait);
    Counterpart(cl, a, b);
    if a in cl[b].waitingForReply {
      forall x, y | x in cl' && y in cl' ensures Awaited(cl', x, y) == Outstanding(cl', x, y) {
        AnswerCallCounts(cl, a, b, wait, x, y);
      }
    } else {
      AnswerCallLists(cl, a, b, wait, a);
      AnswerCallLists(cl, a, b, wait, b);
      CountRemoveRef(cl[b].waitingForReply, a, a);
      CountRemoveRef(cl[a].waitingOnReply, b, b);
      assert Awaited(cl, a, b) == Outstanding(cl, a, b);
      if !wait && a !in cl[b].waitingForDelayedReply {
        UnknownAnswer(cl, a, b);
      } else {
        assert Awaited(cl', a, b) != Outstanding(cl', a, b);
      }
    }
  }

  lemma {:induction false} RemoveRefAbsent<T>(s: seq<T>, x: T)
    requires x !in s
    ensures RemoveRef(s, x) == s
  {
    if s != [] {
      RemoveRefAbsent(s[1..], x);
    }
  }

  lemma UnknownAnswer(cl: Clients, a: IceConn, b: IceConn)
    requires a in cl && b in cl
    requires a !in cl[b].waitingForReply && b !in cl[a].waitingOnReply
    ensures AnswerCall(cl, a, b, false) == cl
  {
    RemoveRefAbsent(cl[b].waitingForReply, a);
    RemoveRefAbsent(cl[a].waitingOnReply, b);
  }

  lemma AnswerLateKeepsBooks(cl: Clients, a: IceConn, b: IceConn)
    requires Bookkept(cl) && a in cl && b in cl
    ensures Bookkept(AnswerLate(cl, a, b))
  {
    var cl' := AnswerLate(cl, a, b);
    Counterpart(cl, a, b);
    forall x, y | x in cl' && y in cl' ensures Awaited(cl', x, y) == Outstanding(cl', x, y) {
      AnswerLateCounts(cl, a, b, x, y);
    }
    RemoveRefOnlyOpen(cl, cl[b].waitingForDelayedReply, a);
    RemoveRefOnlyOpen(cl, cl[a].waitingOnReply, b);
    forall c | c in cl' ensures OnlyOpen(cl', cl'[c].waitingOnReply) && OnlyOpen(cl', cl'[c].waitingForReply)
                             && OnlyOpen(cl', cl'[c].waitingForDelayedReply) {
      AnswerLateLists(cl, a, b, c);
    }
  }
}
