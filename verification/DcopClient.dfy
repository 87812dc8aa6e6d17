/** The DCOP client object. Handling a message or waiting for an answer may bring in
    further messages, which are handled by the same methods on the same object. */
module DcopClient {
  import opened ClientKeys
  import opened DcopTypes

  /** How the work on a message ends: with a result, without one, or with a promise of one. */
  datatype Verdict = Success | Failure | Delay

  function ReplyOf(verdict: Verdict): Opcode {
    match verdict
    case Success => Reply
    case Failure => ReplyFailed
    case Delay => ReplyWait
  }

  /** What happens to a client; `inside` happens while a message is being handled or while
      a call waits, and `insides` while the first messages out of the queue are handled. */
  datatype Act<T> =
    | Receive(msg: Msg<T>, inside: seq<Act<T>>, verdict: Verdict)
    | CallOut(inside: seq<Act<T>>)
    | TimerFires(insides: seq<Script<T>>)
    | AcceptCalls(on: bool)

  datatype Script<T> = Script(acts: seq<Act<T>>, verdict: Verdict)

  /** How many acts there are in all. */
  function Weight<T>(act: Act<T>): nat {
    match act
    case Receive(_, inside, _) => 1 + Weights(inside)
    case CallOut(inside) => 1 + Weights(inside)
    case TimerFires(insides) => 1 + WeightsAll(insides)
    case AcceptCalls(_) => 1
  }

  function Weights<T>(acts: seq<Act<T>>): nat {
    if acts == [] then 0 else Weight(acts[0]) + Weights(acts[1..])
  }

  function WeightsAll<T>(insides: seq<Script<T>>): nat {
    if insides == [] then 0 else Weights(insides[0].acts) + WeightsAll(insides[1..])
  }

  lemma {:induction false} WeightAt<T>(acts: seq<Act<T>>, n: nat)
    requires n < |acts|
    ensures Weight(acts[n]) <= Weights(acts)
    decreases n
  {
    if n > 0 {
      WeightAt(acts[1..], n - 1);
    }
  }

  lemma {:induction false} WeightsAt<T>(insides: seq<Script<T>>, n: nat)
    requires n < |insides|
    ensures Weights(insides[n].acts) <= WeightsAll(insides)
    decreases n
  {
    if n > 0 {
      WeightsAt(insides[1..], n - 1);
    }
  }

  /** The events `evs` lead from one state to the other. */
  ghost predicate Traces<T>(from: Client<T>, evs: seq<Event<T>>, to: Client<T>) {
    GoodRun(from, evs) && Run(from, evs) == to
  }

  lemma {:induction false} TraceConcat<T>(a: Client<T>, evs: seq<Event<T>>, b: Client<T>, more: seq<Event<T>>,
                                          c: Client<T>)
    requires Traces(a, evs, b) && Traces(b, more, c)
    ensures Traces(a, evs + more, c)
    decreases |evs|
  {
    if evs == [] {
      assert evs + more == more;
    } else {
      assert (evs + more)[1..] == evs[1..] + more;
      TraceConcat(Step(a, evs[0]), evs[1..], b, more, c);
    }
  }

  lemma TraceOne<T>(a: Client<T>, ev: Event<T>)
    requires Possible(a, ev)
    ensures Traces(a, [ev], Step(a, ev))
  {
    assert [ev][1..] == [];
  }

  /** `now` is what became of `was` while nothing with another key was handled. */
  ghost predicate Undisturbed<T>(was: Client<T>, now: Client<T>) {
    && Inv(now)
    && now.stack == was.stack
    && now.currentKey == was.currentKey
    && |now.iterators| == |was.iterators|
    && (was.key != 0 ==> now.key == was.key)
    && OnlyUnder(was.currentKey, was.handled, now.handled)
  }

  /** What was handled on top of `before`, was handled under the key `key`. */
  ghost predicate OnlyUnder<T>(key: CARD32, before: seq<Msg<T>>, after: seq<Msg<T>>) {
    before <= after && (key != 0 ==> forall i :: |before| <= i < |after| ==> after[i].key == key)
  }

  // ------------------------------------------------ what acts come to in events

  function After<T>(c: Client<T>, evs: seq<Event<T>>): Client<T> {
    if GoodRun(c, evs) then Run(c, evs) else c
  }

  /** The events that an act comes to. */
  function Told<T>(c: Client<T>, act: Act<T>): seq<Event<T>>
    decreases Weight(act), 3
  {
    match act
    case Receive(m, inside, verdict) => [Arrival(m)] + ToldInside(c, Step(c, Arrival(m)), inside, verdict)
    case CallOut(inside) => [CallBegins] + ToldAll(BeginCall(c), inside) + [CallEnds]
    case TimerFires(insides) => if c.timer then [LoopBegins] + ToldLoop(BeginLoop(c), insides) + [LoopEnds] else []
    case AcceptCalls(on) => [SetAcceptCalls(on)]
  }

  /** What happens inside, if the message was taken up. */
  function ToldInside<T>(c: Client<T>, taken: Client<T>, inside: seq<Act<T>>, verdict: Verdict): seq<Event<T>>
    decreases Weights(inside), 5
  {
    if |taken.stack| == |c.stack| then [] else ToldAll(taken, inside) + [Handled(ReplyOf(verdict))]
  }

  function ToldAll<T>(c: Client<T>, acts: seq<Act<T>>): seq<Event<T>>
    decreases Weights(acts), 4
  {
    if acts == [] then []
    else
      var first := Told(c, acts[0]);
      first + ToldAll(After(c, first), acts[1..])
  }

  /** The innermost loop, which uses up a script for each message that it takes up. */
  function ToldLoop<T>(c: Client<T>, insides: seq<Script<T>>): seq<Event<T>>
    decreases WeightsAll(insides), 7, |insides|, Ahead(c)
  {
    if insides == [] then ToldPlain(c)
    else if !Pointing(c) then []
    else
      TurnShortens(c);
      var first := ToldTurn(c, insides[0]);
      if Foreign(c, c.messages[At(c)]) then [Passed] + ToldLoop(Pass(c), insides)
      else first + ToldLoop(After(c, first), insides[1..])
  }

  function ToldTurn<T>(c: Client<T>, script: Script<T>): seq<Event<T>>
    requires Pointing(c)
    decreases Weights(script.acts), 6
  {
    [Posted(At(c))] + ToldInside(c, RunPosted(c, At(c)), script.acts, script.verdict)
  }

  /** The innermost loop, with handlers that bring in nothing further. */
  function ToldPlain<T>(c: Client<T>): seq<Event<T>>
    decreases Ahead(c)
  {
    if !Pointing(c) then []
    else
      TurnShortens(c);
      if Foreign(c, c.messages[At(c)]) then [Passed] + ToldPlain(Pass(c))
      else CompleteEvents(c) + ToldPlain(Complete(c))
  }

  /** Acts one after the other come to their events one after the other. */
  lemma {:induction false} ToldInTurn<T>(c: Client<T>, acts: seq<Act<T>>, more: seq<Act<T>>)
    ensures ToldAll(c, acts + more) == ToldAll(c, acts) + ToldAll(AfterAll(c, acts), more)
    decreases |acts|
  {
    if acts == [] {
      assert acts + more == more;
    } else {
      var first := Told(c, acts[0]);
      assert (acts + more)[0] == acts[0] && (acts + more)[1..] == acts[1..] + more;
      ToldInTurn(After(c, first), acts[1..], more);
      Regrouped(first, ToldAll(After(c, first), acts[1..]), ToldAll(AfterAll(c, acts), more));
    }
  }

  function AfterAll<T>(c: Client<T>, acts: seq<Act<T>>): Client<T>
    decreases |acts|
  {
    if acts == [] then c else AfterAll(After(c, Told(c, acts[0])), acts[1..])
  }

  /** What a single act comes to: it begins with its own event, and whatever it lets happen
      inside comes before the event that ends it. */
  lemma ToldOnce<T>(c: Client<T>, act: Act<T>)
    ensures ToldAll(c, [act]) == Told(c, act)
    ensures act.Receive? ==>
              var taken := Step(c, Arrival(act.msg));
              Told(c, act) == if |taken.stack| == |c.stack| then [Arrival(act.msg)]
                              else [Arrival(act.msg)] + (ToldAll(taken, act.inside) + [Handled(ReplyOf(act.verdict))])
    ensures act.CallOut? ==> Told(c, act) == [CallBegins] + ToldAll(Step(c, CallBegins), act.inside) + [CallEnds]
    ensures act.AcceptCalls? ==> Told(c, act) == [SetAcceptCalls(act.on)]
  {
    assert [act][1..] == [];
    assert ToldAll(After(c, Told(c, act)), [act][1..]) == [];
    if act.Receive? {
      assert [Arrival(act.msg)] + [] == [Arrival(act.msg)];
    }
  }

  /** A loop over the queue takes up the message that it stands on if that is due, with what the
      next script says, and goes on behind it in either case. */
  lemma ToldByTurns<T>(c: Client<T>, insides: seq<Script<T>>)
    requires Pointing(c) && insides != []
    ensures var m, taken := c.messages[At(c)], RunPosted(c, At(c));
            var inner := if |taken.stack| == |c.stack| then []
                         else ToldAll(taken, insides[0].acts) + [Handled(ReplyOf(insides[0].verdict))];
            var turn := [Posted(At(c))] + inner;
            ToldLoop(c, insides) == if Foreign(c, m) then [Passed] + ToldLoop(Pass(c), insides)
                                    else turn + ToldLoop(After(c, turn), insides[1..])
  {
    var taken := RunPosted(c, At(c));
    var inner := if |taken.stack| == |c.stack| then []
                 else ToldAll(taken, insides[0].acts) + [Handled(ReplyOf(insides[0].verdict))];
    assert ToldInside(c, taken, insides[0].acts, insides[0].verdict) == inner;
    assert ToldTurn(c, insides[0]) == [Posted(At(c))] + inner;
    if Foreign(c, c.messages[At(c)]) {
      assert ToldLoop(c, insides) == [Passed] + ToldLoop(Pass(c), insides);
    } else {
      assert ToldLoop(c, insides)
          == ToldTurn(c, insides[0]) + ToldLoop(After(c, ToldTurn(c, insides[0])), insides[1..]);
    }
  }

  class DCOPClient<T> {
    var key: CARD32
    var currentKey: CARD32
    var acceptCalls: bool
    var messages: seq<Msg<T>>
    var timerActive: bool
    /** The positions of the iterators over the queue, -1 at its end. */
    var iterators: seq<int>
    /** The answers that were put on the wire so far. */
    var answers: seq<Answer>
    ghost var stack: seq<Frame<T>>
    ghost var accepted: seq<Msg<T>>
    ghost var handled: seq<Msg<T>>
    ghost var refused: seq<Msg<T>>
    ghost var settled: seq<Msg<T>>
    ghost var asked: seq<Msg<T>>

    constructor ()
      ensures View() == NewClient() && Inv(View())
    {
      key, currentKey, acceptCalls, messages, timerActive, iterators, answers := 0, 0, true, [], false, [], [];
      stack, accepted, handled, refused, settled, asked := [], [], [], [], [], [];
    }

    ghost function View(): Client<T>
      reads this
    {
      Client(key, currentKey, acceptCalls, messages, timerActive, iterators, stack, accepted, handled, refused,
             settled, asked, answers)
    }

    /** A message comes in. */
    method ProcessMessage(m: Msg<T>, inside: seq<Act<T>>, verdict: Verdict) returns (ghost evs: seq<Event<T>>)
      requires Inv(View())
      modifies this
      ensures Traces(old(View()), evs, View()) && Undisturbed(old(View()), View())
      ensures evs == Told(old(View()), Receive(m, inside, verdict))
      ensures evs != [] && evs[0] == Arrival(m)
      ensures evs == [Arrival(m)] <==> Step(old(View()), Arrival(m)).handled == old(handled)
      ensures evs != [Arrival(m)] ==>
                evs[|evs| - 1]
                == Handled(if verdict == Success then Reply else if verdict == Failure then ReplyFailed else ReplyWait)
      decreases Weights(inside), 10
    {
      ghost var was := View();
      evs := ReadMessage(m, inside, verdict);
      MessageTold(was, m, inside, verdict);
    }

    method ReadMessage(m: Msg<T>, inside: seq<Act<T>>, verdict: Verdict) returns (ghost evs: seq<Event<T>>)
      requires Inv(View())
      modifies this
      ensures Traces(old(View()), evs, View()) && Undisturbed(old(View()), View())
      ensures evs == [Arrival(m)] + ToldInside(old(View()), Step(old(View()), Arrival(m)), inside, verdict)
      decreases Weights(inside), 9
    {
      ghost var was := View();
      if key == 0 {
        key := m.key;
      }
      asked := Asking(asked, m);
      if IsRequest(m.opcode) {
        evs := ProcessInternal(m, true, inside, verdict, was, Arrival(m));
      } else {
        evs := [Arrival(m)];
        NotTaken(was, Arrival(m));
        assert evs + [] == evs;
      }
    }

    /** Requests: from the wire if `canPost`, otherwise out of the queue. `was` is the
        state before the message was read or taken out, `ev` that event. */
    method ProcessInternal(m: Msg<T>, canPost: bool, inside: seq<Act<T>>, verdict: Verdict,
                           ghost was: Client<T>, ghost ev: Event<T>) returns (ghost evs: seq<Event<T>>)
      requires IsRequest(m.opcode) && Inv(was) && Possible(was, ev) && Read(was, ev, m, canPost, View())
      modifies this
      ensures Traces(was, evs, View()) && Undisturbed(was, View())
      ensures evs == [ev] + ToldInside(was, Step(was, ev), inside, verdict)
      decreases Weights(inside), 8
    {
      TakesFrame(was, ev);
      var taken := Gate(m, canPost, was, ev);
      if taken {
        evs := Dispatch(m, inside, verdict, was, ev);
      } else {
        evs := [ev];
        NotTaken(was, ev);
        assert evs + [] == evs;
      }
    }

    /** Refusing or posting a message that is not to be handled now. */
    method Gate(m: Msg<T>, canPost: bool, ghost was: Client<T>, ghost ev: Event<T>) returns (taken: bool)
      requires IsRequest(m.opcode) && Possible(was, ev) && Read(was, ev, m, canPost, View())
      modifies `accepted, `messages, `timerActive, `refused, `settled, `answers
      ensures taken ==> Step(was, ev) == Enter(View(), m) && handled == was.handled && !Foreign(was, m)
      ensures !taken ==> View() == Step(was, ev) && handled == was.handled
    {
      if !acceptCalls && m.opcode == Send {
        Refuse(m, canPost);
        assert answers + [] == answers;
        return false;
      }
      if m.sender == "" {
        Refuse(m, canPost);
        assert answers + [] == answers;
        return false;
      }
      if !acceptCalls {
        Refuse(m, canPost);
        answers := answers + [Answer(ReplyFailed, m.key, m.sender)];
        return false;
      }
      if canPost {
        accepted := accepted + [m];
        if currentKey != 0 && m.key != currentKey {
          messages := messages + [m];
          timerActive := true;
          return false;
        }
      }
      return true;
    }

    /** Handling a message, from beginning to end. */
    method Dispatch(m: Msg<T>, inside: seq<Act<T>>, verdict: Verdict, ghost was: Client<T>, ghost ev: Event<T>)
      returns (ghost evs: seq<Event<T>>)
      requires Inv(was) && Possible(was, ev) && Step(was, ev) == Enter(View(), m)
      requires was.currentKey == currentKey && was.stack == stack && was.handled == handled && !Foreign(was, m)
      requires |was.iterators| == |iterators|
      requires was.key != 0 ==> key == was.key
      modifies this
      ensures Traces(was, evs, View()) && Undisturbed(was, View())
      ensures evs == [ev] + (ToldAll(Step(was, ev), inside) + [Handled(ReplyOf(verdict))])
      decreases Weights(inside), 7
    {
      StepKeeps(was, ev);
      var oldCurrentKey := Begin(m);
      ghost var begun := View();
      ghost var during := Play(inside);
      ghost var done := View();
      TopOf(was.stack, Handling(oldCurrentKey, m));
      End(m, oldCurrentKey, verdict);
      evs := [ev] + during + [Handled(ReplyOf(verdict))];
      Regrouped([ev], during, [Handled(ReplyOf(verdict))]);
      Dispatched(was, ev, m, begun, during, done, ReplyOf(verdict));
    }

    method Begin(m: Msg<T>) returns (oldCurrentKey: CARD32)
      modifies `currentKey, `stack, `handled, `settled
      ensures View() == Enter(old(View()), m) && oldCurrentKey == old(currentKey)
    {
      oldCurrentKey := currentKey;
      if m.opcode != Send {
        currentKey := m.key;
      }
      stack := stack + [Handling(oldCurrentKey, m)];
      handled := handled + [m];
      settled := settled + [m];
    }

    method End(m: Msg<T>, oldCurrentKey: CARD32, verdict: Verdict)
      requires stack != [] && stack[|stack| - 1] == Handling(oldCurrentKey, m)
      modifies `currentKey, `stack, `answers
      ensures View() == Leave(old(View()), ReplyOf(verdict))
    {
      stack := stack[..|stack| - 1];
      if m.opcode == Send {
        return;
      }
      if currentKey == m.key || oldCurrentKey != PRIORITY_KEY {
        currentKey := oldCurrentKey;
      }
      if verdict == Delay {
        answers := answers + [Answer(ReplyWait, m.key, m.sender)];
        return;
      }
      if verdict == Failure {
        answers := answers + [Answer(ReplyFailed, m.key, m.sender)];
        return;
      }
      answers := answers + [Answer(Reply, m.key, m.sender)];
    }

    /** A posted message that is no longer acceptable. */
    ghost method Refuse(m: Msg<T>, canPost: bool)
      modifies `refused, `settled
      ensures refused == if canPost then old(refused) else old(refused) + [m]
      ensures settled == if canPost then old(settled) else old(settled) + [m]
    {
      if !canPost {
        refused := refused + [m];
        settled := settled + [m];
      }
    }

    /** A call that waits for its answer. */
    method CallInternal(inside: seq<Act<T>>) returns (ghost evs: seq<Event<T>>)
      requires Inv(View())
      modifies this
      ensures Traces(old(View()), evs, View()) && Undisturbed(old(View()), View())
      ensures evs == Told(old(View()), CallOut(inside))
      ensures |evs| >= 2 && evs[0] == CallBegins && evs[|evs| - 1] == CallEnds
      decreases Weights(inside), 7
    {
      ghost var was := View();
      StepKeeps(was, CallBegins);
      var oldCurrentKey := StartCall();
      ghost var during := Play(inside);
      ghost var done := View();
      TopOf(was.stack, Calling(oldCurrentKey, CallKey(was)));
      FinishCall(oldCurrentKey);
      evs := [CallBegins] + during + [CallEnds];
      Called(was, during, done);
      CallTold(was, inside, during);
    }

    method StartCall() returns (oldCurrentKey: CARD32)
      modifies `currentKey, `stack
      ensures View() == BeginCall(old(View())) && oldCurrentKey == old(currentKey)
    {
      oldCurrentKey := currentKey;
      if currentKey == 0 {
        currentKey := key;
      }
      stack := stack + [Calling(oldCurrentKey, currentKey)];
    }

    method FinishCall(oldCurrentKey: CARD32)
      requires stack != [] && stack[|stack| - 1].Calling? && stack[|stack| - 1].saved == oldCurrentKey
      modifies `currentKey, `stack
      ensures View() == EndCall(old(View()))
    {
      stack := stack[..|stack| - 1];
      currentKey := oldCurrentKey;
    }

    method Play(acts: seq<Act<T>>) returns (ghost evs: seq<Event<T>>)
      requires Inv(View())
      modifies this
      ensures Traces(old(View()), evs, View()) && Undisturbed(old(View()), View())
      ensures evs == ToldAll(old(View()), acts)
      decreases Weights(acts), 6
    {
      ghost var was := View();
      evs := [];
      var n := 0;
      NothingTold(acts, ToldAll(was, acts));
      while n < |acts|
        invariant n <= |acts|
        invariant Traces(was, evs, View()) && Undisturbed(was, View())
        invariant evs + ToldAll(View(), acts[n..]) == ToldAll(was, acts)
      {
        ghost var before := View();
        WeightAt(acts, n);
        ghost var more := Perform(acts[n]);
        Goes(was, evs, before, more, View());
        ToldNext(before, acts, n, evs, more);
        evs := evs + more;
        n := n + 1;
      }
      assert evs + [] == evs;
    }

    method Perform(act: Act<T>) returns (ghost evs: seq<Event<T>>)
      requires Inv(View())
      modifies this
      ensures Traces(old(View()), evs, View()) && Undisturbed(old(View()), View())
      ensures evs == Told(old(View()), act)
      decreases Weight(act), 5
    {
      match act {
        case Receive(m, inside, verdict) =>
          evs := ProcessMessage(m, inside, verdict);
        case CallOut(inside) =>
          evs := CallInternal(inside);
        case TimerFires(insides) =>
          evs := [];
          if timerActive {
            evs := ProcessPostedMessages(insides);
          }
        case AcceptCalls(on) =>
          evs := [SetAcceptCalls(on)];
          NotTaken(View(), SetAcceptCalls(on));
          acceptCalls := on;
      }
    }

    /** removeRef on the queue: every iterator stays on its item, or goes where the list goes. */
    method RemoveAt(index: nat)
      requires index < |messages|
      modifies `messages, `iterators
      ensures messages == Take(old(messages), index)
      ensures iterators == Shifted(old(iterators), index, |messages|)
    {
      var n, adjusted, its, left := 0, [], iterators, Take(messages, index);
      var length := |left|;
      while n < |its|
        invariant n <= |its|
        invariant adjusted == Shifted(its[..n], index, length)
      {
        ShiftedSnoc(its[..n], its[n], index, length);
        assert its[..n + 1] == its[..n] + [its[n]];
        adjusted := adjusted + [Shift(its[n], index, length)];
        n := n + 1;
      }
      assert its[..n] == its;
      messages := left;
      iterators := adjusted;
    }

    /** The current item, and the iterator one further. */
    method Advance() returns (at: nat, m: Msg<T>)
      requires Pointing(View())
      modifies `iterators
      ensures at == At(old(View())) && m == messages[at]
      ensures View() == Pass(old(View()))
    {
      var last := |iterators| - 1;
      at := iterators[last];
      m := messages[at];
      iterators := iterators[..last] + [if at + 1 < |messages| then at + 1 else -1];
    }

    /** The message at the iterator, if it is due: taken out, with the iterator on the next one. */
    method TakeDue() returns (due: bool, m: Msg<T>)
      requires Pointing(View())
      modifies `messages, `iterators
      ensures m == old(messages)[At(old(View()))] && (due <==> !Foreign(old(View()), m))
      ensures View() == if due then TakeOut(old(View()), At(old(View()))) else Pass(old(View()))
    {
      var at;
      at, m := Advance();
      due := !(currentKey != 0 && m.key != currentKey);
      if due {
        RemoveAt(at);
      }
    }

    /** One turn of the loop over the queue, with what happens while the message is handled. */
    method ScriptedTurn(inside: seq<Act<T>>, verdict: Verdict) returns (due: bool, ghost evs: seq<Event<T>>)
      requires Inv(View()) && Pointing(View())
      modifies this
      ensures Traces(old(View()), evs, View()) && Undisturbed(old(View()), View())
      ensures due <==> !Foreign(old(View()), old(messages)[At(old(View()))])
      ensures evs == if due then ToldTurn(old(View()), Script(inside, verdict)) else [Passed]
      ensures !due ==> View() == Pass(old(View()))
      decreases Weights(inside), 10
    {
      ghost var was := View();
      ghost var at: nat := At(was);
      var m;
      due, m := TakeDue();
      if due {
        assert m in was.messages;
        evs := ProcessInternal(m, false, inside, verdict, was, Posted(at));
      } else {
        evs := [Passed];
        NotTaken(was, Passed);
      }
    }

    /** A message of the queue whose handling brings in nothing further. */
    method HandlePlainly(m: Msg<T>)
      requires IsRequest(m.opcode) && m.sender != ""
      modifies `currentKey, `stack, `handled, `refused, `settled, `answers
      ensures View() == CompleteMsg(old(View()), m)
    {
      if !acceptCalls {
        Refuse(m, false);
        if m.opcode != Send {
          answers := answers + [Answer(ReplyFailed, m.key, m.sender)];
        }
        assert old(answers) + [] == old(answers);
        return;
      }
      ghost var was := View();
      var oldCurrentKey := Begin(m);
      TopOf(was.stack, Handling(oldCurrentKey, m));
      End(m, oldCurrentKey, Success);
    }

    /** One turn of the loop over the queue, on a message whose handling brings in nothing further. */
    method PlainTurn() returns (ghost evs: seq<Event<T>>)
      requires Inv(View()) && Pointing(View())
      modifies this
      ensures Traces(old(View()), evs, View()) && Undisturbed(old(View()), View())
      ensures Ahead(View()) < Ahead(old(View())) && Sweep(View()) == Sweep(old(View()))
      ensures ToldPlain(old(View())) == evs + ToldPlain(View())
    {
      ghost var was := View();
      TurnShortens(was);
      var due, m := TakeDue();
      if due {
        assert m in was.messages;
        HandlePlainly(m);
        CompletePlainly(was);
        evs := CompleteEvents(was);
      } else {
        evs := [Passed];
        NotTaken(was, Passed);
      }
    }

    /** The single shot of the timer is spent, and an iterator is put on the queue. */
    method StartLoop()
      requires timerActive && messages != []
      modifies `timerActive, `iterators
      ensures View() == BeginLoop(old(View()))
    {
      timerActive := false;
      iterators := iterators + [0];
    }

    method FinishLoop()
      requires iterators != []
      modifies `timerActive, `iterators
      ensures View() == EndLoop(old(View()))
    {
      iterators := iterators[..|iterators| - 1];
      if messages != [] {
        timerActive := true;
      }
    }

    /** The timer fires: an iterator goes through the queue while its messages are taken out,
        by this loop or by loops inside the handlers. */
    method ProcessPostedMessages(insides: seq<Script<T>>) returns (ghost evs: seq<Event<T>>)
      requires Inv(View()) && timerActive
      modifies this
      ensures Traces(old(View()), evs, View()) && Undisturbed(old(View()), View())
      ensures evs == Told(old(View()), TimerFires(insides))
      ensures |evs| >= 2 && evs[0] == LoopBegins && evs[|evs| - 1] == LoopEnds
      ensures insides == [] ==> View() == EndLoop(Sweep(BeginLoop(old(View()))))
      decreases WeightsAll(insides), 13
    {
      ghost var was := View();
      if messages == [] {
        NothingPosted(was, insides);
        timerActive := false;
        evs := [LoopBegins, LoopEnds];
        return;
      }
      StepKeeps(was, LoopBegins);
      StartLoop();
      ghost var begun := View();
      ghost var during := PostedLoop(insides);
      ghost var done := View();
      FinishLoop();
      evs := [LoopBegins] + during + [LoopEnds];
      Looped(was, during, done);
      LoopTold(was, insides, during);
    }

    /** One turn of the loop over the queue, on the next script if there is one left. */
    method Turn(insides: seq<Script<T>>, k: nat) returns (next: nat, ghost evs: seq<Event<T>>)
      requires Inv(View()) && Pointing(View()) && k <= |insides|
      modifies this
      ensures Traces(old(View()), evs, View()) && Undisturbed(old(View()), View())
      ensures k <= next <= |insides| && (next == k ==> Ahead(View()) < Ahead(old(View())))
      ensures k == |insides| ==> Sweep(View()) == Sweep(old(View()))
      ensures ToldLoop(old(View()), insides[k..]) == evs + ToldLoop(View(), insides[next..])
      decreases WeightsAll(insides), 11
    {
      ghost var was := View();
      TurnShortens(was);
      next := k;
      if k < |insides| {
        WeightsAt(insides, k);
        var due;
        due, evs := ScriptedTurn(insides[k].acts, insides[k].verdict);
        if due {
          next := k + 1;
        }
        TurnTold(was, insides, k, due, evs, View());
      } else {
        assert insides[k..] == [];
        evs := PlainTurn();
      }
    }

    method PostedLoop(insides: seq<Script<T>>) returns (ghost evs: seq<Event<T>>)
      requires Inv(View()) && iterators != []
      modifies this
      ensures Traces(old(View()), evs, View()) && Undisturbed(old(View()), View())
      ensures At(View()) == -1 && evs == ToldLoop(old(View()), insides)
      ensures insides == [] ==> View() == Sweep(old(View()))
      decreases WeightsAll(insides), 12
    {
      ghost var was := View();
      evs := [];
      var k := 0;
      NothingTold(insides, ToldLoop(was, insides));
      while iterators[|iterators| - 1] != -1
        invariant k <= |insides| && |iterators| == |old(iterators)| && Undisturbed(was, View())
        invariant Traces(was, evs, View())
        invariant insides == [] ==> Sweep(View()) == Sweep(was)
        invariant evs + ToldLoop(View(), insides[k..]) == ToldLoop(was, insides)
        decreases |insides| - k, Ahead(View())
      {
        ghost var before, told := View(), ToldLoop(View(), insides[k..]);
        ghost var more, from := [], k;
        k, more := Turn(insides, k);
        Goes(was, evs, before, more, View());
        Regrouped(evs, more, ToldLoop(View(), insides[k..]));
        evs := evs + more;
      }
      LoopOver(View(), insides[k..]);
      assert evs + [] == evs;
    }
  }

  /** The life of a client object, whatever happens to it: when nothing is going on any more, every
      call that came in was answered once, with its key and to its sender, or still waits. */
  method Live<T>(acts: seq<Act<T>>) returns (c: DCOPClient<T>, ghost evs: seq<Event<T>>)
    ensures fresh(c) && evs == ToldAll(NewClient<T>(), acts) && Traces(NewClient<T>(), evs, c.View())
    ensures c.View().stack == [] && c.iterators == [] && c.currentKey == 0
    ensures CallsIn(CallsOf(evs)) == Given(c.answers) + CallsIn(c.messages)
    ensures c.messages != [] ==> c.timerActive
  {
    c := new DCOPClient<T>();
    evs := c.Play(acts);
    CallsAreAnswered(evs);
  }

  /** What was read from the wire or taken out of the queue is at hand. */
  ghost predicate Read<T>(was: Client<T>, ev: Event<T>, m: Msg<T>, canPost: bool, now: Client<T>) {
    if canPost then
      && ev == Arrival(m)
      && now == was.(key := if was.key == 0 then m.key else was.key, asked := Asking(was.asked, m))
    else
      && ev.Posted? && was.iterators != [] && ev.index < |was.messages|
      && was.messages[ev.index] == m && now == TakeOut(was, ev.index)
  }

  /** An event puts a frame on the stack exactly if it has a message handled. */
  lemma TakesFrame<T>(c: Client<T>, ev: Event<T>)
    requires Possible(c, ev) && (ev.Arrival? || ev.Posted?)
    ensures var d := Step(c, ev);
            && |d.iterators| == |c.iterators|
            && (if |d.handled| == |c.handled| then d.handled == c.handled && d.stack == c.stack
                else |d.stack| == |c.stack| + 1)
  {
  }

  lemma MessageTold<T>(was: Client<T>, m: Msg<T>, inside: seq<Act<T>>, verdict: Verdict)
    ensures var evs := [Arrival(m)] + ToldInside(was, Step(was, Arrival(m)), inside, verdict);
            && evs == Told(was, Receive(m, inside, verdict)) && evs[0] == Arrival(m)
            && (evs == [Arrival(m)] <==> Step(was, Arrival(m)).handled == was.handled)
            && (evs != [Arrival(m)] ==> evs[|evs| - 1] == Handled(ReplyOf(verdict)))
  {
    TakesFrame(was, Arrival(m));
    assert [Arrival(m)] + [] == [Arrival(m)];
  }

  lemma CallTold<T>(was: Client<T>, inside: seq<Act<T>>, during: seq<Event<T>>)
    requires during == ToldAll(BeginCall(was), inside)
    ensures var evs := [CallBegins] + during + [CallEnds];
            evs == Told(was, CallOut(inside)) && evs[0] == CallBegins && evs[|evs| - 1] == CallEnds
  {
  }

  lemma NotTaken<T>(was: Client<T>, ev: Event<T>)
    requires Inv(was) && Possible(was, ev) && Step(was, ev).stack == was.stack && Step(was, ev).handled == was.handled
    requires Step(was, ev).currentKey == was.currentKey && |Step(was, ev).iterators| == |was.iterators|
             && (was.key != 0 ==> Step(was, ev).key == was.key)
    ensures Traces(was, [ev], Step(was, ev)) && Undisturbed(was, Step(was, ev))
  {
    TraceOne(was, ev);
    StepKeeps(was, ev);
  }

  /** What handling a message comes to. */
  lemma Dispatched<T>(was: Client<T>, ev: Event<T>, m: Msg<T>, begun: Client<T>, during: seq<Event<T>>,
                      done: Client<T>, reply: Opcode)
    requires Inv(was) && Possible(was, ev) && Step(was, ev) == begun && !Foreign(was, m) && IsAnswer(reply)
    requires begun.stack == was.stack + [Handling(was.currentKey, m)] && begun.handled == was.handled + [m]
    requires |begun.iterators| == |was.iterators| && (was.key != 0 ==> begun.key == was.key)
    requires was.currentKey != 0 ==> begun.currentKey == was.currentKey
    requires Traces(begun, during, done) && Undisturbed(begun, done)
    ensures Possible(done, Handled(reply))
    ensures Traces(was, [ev] + during + [Handled(reply)], Leave(done, reply)) && Undisturbed(was, Leave(done, reply))
  {
    TopOf(was.stack, Handling(was.currentKey, m));
    Bracket(was, ev, begun, during, done, Handled(reply));
    OnlyUnderTwice(was, m, begun, done);
  }

  lemma TopOf<T>(stack: seq<Frame<T>>, f: Frame<T>)
    ensures (stack + [f])[|stack + [f]| - 1] == f && (stack + [f])[..|stack + [f]| - 1] == stack
  {
  }

  lemma Regrouped<T>(a: seq<T>, b: seq<T>, c: seq<T>)
    ensures a + b + c == a + (b + c)
  {
  }

  /** What happens between an event that adds a frame and the one that takes it away. */
  lemma Bracket<T>(was: Client<T>, first: Event<T>, begun: Client<T>, during: seq<Event<T>>, done: Client<T>,
                   last: Event<T>)
    requires Inv(was) && Possible(was, first) && Step(was, first) == begun
    requires Traces(begun, during, done) && Inv(done) && Possible(done, last)
    ensures Traces(was, [first] + during + [last], Step(done, last))
    ensures Inv(Step(done, last))
    ensures Step(done, last).stack == was.stack ==> Step(done, last).currentKey == was.currentKey
  {
    TraceOne(was, first);
    TraceConcat(was, [first], begun, during, done);
    TraceOne(done, last);
    TraceConcat(was, [first] + during, done, [last], Step(done, last));
    StepKeeps(done, last);
  }

  lemma OnlyUnderTwice<T>(was: Client<T>, m: Msg<T>, begun: Client<T>, done: Client<T>)
    requires begun.handled == was.handled + [m] && !Foreign(was, m)
    requires was.currentKey != 0 ==> begun.currentKey == was.currentKey
    requires OnlyUnder(begun.currentKey, begun.handled, done.handled)
    ensures OnlyUnder(was.currentKey, was.handled, done.handled)
  {
    assert done.handled[|was.handled|] == begun.handled[|was.handled|];
  }

  /** What a call comes to. */
  lemma Called<T>(was: Client<T>, during: seq<Event<T>>, done: Client<T>)
    requires Inv(was) && Traces(BeginCall(was), during, done) && Undisturbed(BeginCall(was), done)
    ensures Possible(done, CallEnds)
    ensures Traces(was, [CallBegins] + during + [CallEnds], EndCall(done)) && Undisturbed(was, EndCall(done))
  {
    TopOf(was.stack, Calling(was.currentKey, CallKey(was)));
    Bracket(was, CallBegins, BeginCall(was), during, done, CallEnds);
  }

  /** What a loop over the queue comes to. */
  lemma Looped<T>(was: Client<T>, during: seq<Event<T>>, done: Client<T>)
    requires Inv(was) && was.timer && Traces(BeginLoop(was), during, done) && Undisturbed(BeginLoop(was), done)
    requires At(done) == -1
    ensures Traces(was, [LoopBegins] + during + [LoopEnds], EndLoop(done)) && Undisturbed(was, EndLoop(done))
  {
    Bracket(was, LoopBegins, BeginLoop(was), during, done, LoopEnds);
  }

  lemma LoopTold<T>(was: Client<T>, insides: seq<Script<T>>, during: seq<Event<T>>)
    requires was.timer && during == ToldLoop(BeginLoop(was), insides)
    ensures var evs := [LoopBegins] + during + [LoopEnds];
            evs == Told(was, TimerFires(insides)) && evs[0] == LoopBegins && evs[|evs| - 1] == LoopEnds
  {
  }

  /** The timer fires on an empty queue. */
  lemma NothingPosted<T>(c: Client<T>, insides: seq<Script<T>>)
    requires Inv(c) && c.timer && c.messages == []
    ensures Traces(c, [LoopBegins, LoopEnds], c.(timer := false)) && Undisturbed(c, c.(timer := false))
    ensures EndLoop(Sweep(BeginLoop(c))) == c.(timer := false)
    ensures Told(c, TimerFires(insides)) == [LoopBegins, LoopEnds]
  {
    assert BeginLoop(c).iterators[..|c.iterators|] == c.iterators;
    TraceOne(c, LoopBegins);
    TraceOne(BeginLoop(c), LoopEnds);
    TraceConcat(c, [LoopBegins], BeginLoop(c), [LoopEnds], c.(timer := false));
    assert [LoopBegins] + [LoopEnds] == [Event<T>.LoopBegins, LoopEnds];
    StepKeeps(c, LoopBegins);
    StepKeeps(BeginLoop(c), LoopEnds);
    LoopOver(BeginLoop(c), insides);
    assert [LoopBegins] + [] + [LoopEnds] == [Event<T>.LoopBegins, LoopEnds];
  }

  lemma LoopOver<T>(c: Client<T>, insides: seq<Script<T>>)
    requires !Pointing(c)
    ensures ToldLoop(c, insides) == [] && Sweep(c) == c
  {
  }

  lemma NothingTold<A, E>(acts: seq<A>, told: seq<E>)
    ensures acts[0..] == acts && [] + told == told
  {
  }

  lemma ToldNext<T>(before: Client<T>, acts: seq<Act<T>>, n: nat, evs: seq<Event<T>>, more: seq<Event<T>>)
    requires n < |acts| && more == Told(before, acts[n])
    ensures evs + ToldAll(before, acts[n..]) == (evs + more) + ToldAll(After(before, more), acts[n + 1..])
  {
    assert acts[n..][0] == acts[n] && acts[n..][1..] == acts[n + 1..];
    Regrouped(evs, more, ToldAll(After(before, more), acts[n + 1..]));
  }

  lemma TurnTold<T>(was: Client<T>, insides: seq<Script<T>>, k: nat, due: bool, evs: seq<Event<T>>, now: Client<T>)
    requires Pointing(was) && k < |insides| && Traces(was, evs, now)
    requires due <==> !Foreign(was, was.messages[At(was)])
    requires evs == if due then ToldTurn(was, insides[k]) else [Passed]
    requires !due ==> now == Pass(was)
    ensures ToldLoop(was, insides[k..]) == evs + ToldLoop(now, insides[if due then k + 1 else k..])
  {
    assert insides[k..][0] == insides[k] && insides[k..][1..] == insides[k + 1..];
  }

  lemma CompletePlainly<T>(c: Client<T>)
    requires Inv(c) && Pointing(c) && !Foreign(c, c.messages[At(c)])
    ensures Traces(c, CompleteEvents(c), Complete(c)) && Undisturbed(c, Complete(c))
  {
    CompleteTrace(c);
    CompleteUndisturbed(c);
  }

  lemma Goes<T>(was: Client<T>, evs: seq<Event<T>>, before: Client<T>, more: seq<Event<T>>, now: Client<T>)
    requires Traces(was, evs, before) && Undisturbed(was, before)
    requires Traces(before, more, now) && Undisturbed(before, now)
    ensures Traces(was, evs + more, now) && Undisturbed(was, now)
  {
    TraceConcat(was, evs, before, more, now);
  }

  lemma EnterLeave<T>(c: Client<T>, m: Msg<T>)
    ensures var d := Leave(Enter(c, m), Reply);
            && d.stack == c.stack && d.currentKey == c.currentKey && d.key == c.key && d.iterators == c.iterators
            && d.handled == c.handled + [m]
  {
    assert (c.stack + [Handling(c.currentKey, m)])[..|c.stack|] == c.stack;
  }

  lemma CompleteTrace<T>(c: Client<T>)
    requires Pointing(c) && !Foreign(c, c.messages[At(c)])
    ensures Traces(c, CompleteEvents(c), Complete(c))
  {
    var i: nat := At(c);
    var taken := RunPosted(c, i);
    TraceOne(c, Posted(i));
    if !Refuses(c, c.messages[i]) {
      TraceOne(taken, Handled(Reply));
      TraceConcat(c, [Posted(i)], taken, [Handled(Reply)], Leave(taken, Reply));
      assert [Event<T>.Posted(i)] + [Handled(Reply)] == [Event<T>.Posted(i), Handled(Reply)];
    }
  }

  lemma CompleteUndisturbed<T>(c: Client<T>)
    requires Inv(c) && Pointing(c) && !Foreign(c, c.messages[At(c)])
    ensures Undisturbed(c, Complete(c))
  {
    var i: nat := At(c);
    CompleteTrace(c);
    RunKeeps(c, CompleteEvents(c));
    EnterLeave(TakeOut(c, i), c.messages[i]);
  }
}
