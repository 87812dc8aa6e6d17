/** How a DCOP client keeps nested calls apart by their keys. The C++ stack of calls
    the client makes and of messages it handles is an explicit list of frames. */
module ClientKeys {
  import opened DcopTypes
  import opened Options

  /** A message with its tag, which is not transmitted: it says in a proof where the message comes from. */
  datatype Msg<T> = Msg(opcode: Opcode, key: CARD32, sender: string, tag: T)

  /** A call that waits, or a message that is being handled; `saved` is the local
      variable that remembers the current key. */
  datatype Frame<T> =
    | Calling(saved: CARD32, key: CARD32)
    | Handling(saved: CARD32, msg: Msg<T>)

  /** An answer that was sent. */
  datatype Answer = Answer(opcode: Opcode, key: CARD32, to: string)

  /** `timer` says whether the timer for the queue is armed, `iterators` where the loops over the
      queue that are under way stand, each inside a handler of the one before; -1 is behind the
      end. `accepted`, `handled` and `refused` record the history of the messages, `settled` those
      that were handled or refused, in the order in which they were taken up; `asked` and
      `answers` the calls that came in and what was sent for them. */
  datatype Client<T> = Client(
    key: CARD32,
    currentKey: CARD32,
    acceptCalls: bool,
    messages: seq<Msg<T>>,
    timer: bool,
    iterators: seq<int>,
    stack: seq<Frame<T>>,
    accepted: seq<Msg<T>>,
    handled: seq<Msg<T>>,
    refused: seq<Msg<T>>,
    settled: seq<Msg<T>>,
    asked: seq<Msg<T>>,
    answers: seq<Answer>)

  function NewClient<T>(): Client<T> {
    Client(0, 0, true, [], false, [], [], [], [], [], [], [], [])
  }

  const PRIORITY_KEY: CARD32 := 2

  predicate Refuses<T>(c: Client<T>, m: Msg<T>) {
    !c.acceptCalls || m.sender == ""
  }

  predicate IsRequest(opcode: Opcode) {
    opcode == Send || opcode == Call || opcode == Find
  }

  /** A client that handles something under a key leaves other keys alone. */
  predicate Foreign<T>(c: Client<T>, m: Msg<T>) {
    c.currentKey != 0 && m.key != c.currentKey
  }

  /** Handling a message begins. */
  function Enter<T>(c: Client<T>, m: Msg<T>): Client<T> {
    c.(currentKey := if m.opcode == Send then c.currentKey else m.key,
       stack := c.stack + [Handling(c.currentKey, m)],
       handled := c.handled + [m],
       settled := c.settled + [m])
  }

  /** A message that has to be answered. Those without a sender are local, and dropped. */
  predicate Asks<T>(m: Msg<T>) {
    (m.opcode == Call || m.opcode == Find) && m.sender != ""
  }

  /** What is sent for a message that is refused. */
  function Declining<T>(m: Msg<T>): seq<Answer> {
    if Asks(m) then [Answer(ReplyFailed, m.key, m.sender)] else []
  }

  function Accept<T>(c: Client<T>, m: Msg<T>): Client<T> {
    var c1 := c.(accepted := c.accepted + [m]);
    if Foreign(c, m) then c1.(messages := c.messages + [m], timer := true) else Enter(c1, m)
  }

  /** A message comes in; the first one ever gives the client its key. */
  function Arrive<T>(c: Client<T>, m: Msg<T>): Client<T> {
    var c1 := c.(key := if c.key == 0 then m.key else c.key, asked := Asking(c.asked, m));
    if !IsRequest(m.opcode) then c1
    else if Refuses(c, m) then c1.(answers := c.answers + Declining(m))
    else Accept(c1, m)
  }

  /** Handling a message ends; unless it was a plain Send, it is answered with `reply`. */
  function Leave<T>(c: Client<T>, reply: Opcode): Client<T>
    requires c.stack != [] && c.stack[|c.stack| - 1].Handling?
  {
    var (saved, m) := var top := c.stack[|c.stack| - 1]; (top.saved, top.msg);
    var back := m.opcode != Send && (c.currentKey == m.key || saved != PRIORITY_KEY);
    c.(currentKey := if back then saved else c.currentKey,
       stack := c.stack[..|c.stack| - 1],
       answers := if m.opcode == Send then c.answers else c.answers + [Answer(reply, m.key, m.sender)])
  }

  function CallKey<T>(c: Client<T>): CARD32 {
    if c.currentKey != 0 then c.currentKey else c.key
  }

  function BeginCall<T>(c: Client<T>): Client<T> {
    c.(currentKey := CallKey(c), stack := c.stack + [Calling(c.currentKey, CallKey(c))])
  }

  function EndCall<T>(c: Client<T>): Client<T>
    requires c.stack != [] && c.stack[|c.stack| - 1].Calling?
  {
    c.(currentKey := c.stack[|c.stack| - 1].saved, stack := c.stack[..|c.stack| - 1])
  }

  function Take<T>(ms: seq<Msg<T>>, i: nat): seq<Msg<T>>
    requires i < |ms|
  {
    ms[..i] + ms[i + 1..]
  }

  /** The iterator of the innermost loop, -1 if there is none. */
  function At<T>(c: Client<T>): int {
    if c.iterators == [] then -1 else c.iterators[|c.iterators| - 1]
  }

  /** The iterator of the innermost loop goes to the next item. */
  function Advanced(its: seq<int>, length: nat): seq<int>
    requires its != []
  {
    var last := |its| - 1;
    its[..last] + [if 0 <= its[last] && its[last] + 1 < length then its[last] + 1 else -1]
  }

  /** Where an iterator is after the item at `index` was removed: one on that item goes to the
      next one, or to the one before if that was the last. */
  function Shift(p: int, index: nat, length: nat): int {
    if p < index then p
    else if p > index then p - 1
    else if index < length then index
    else length - 1
  }

  function Shifted(ps: seq<int>, index: nat, length: nat): (r: seq<int>)
    ensures |r| == |ps|
  {
    if ps == [] then [] else [Shift(ps[0], index, length)] + Shifted(ps[1..], index, length)
  }

  /** The innermost loop goes on past a message that is not due. */
  function Pass<T>(c: Client<T>): Client<T>
    requires c.iterators != []
  {
    c.(iterators := Advanced(c.iterators, |c.messages|))
  }

  /** The innermost loop goes on, and the i-th message is taken out of the queue. */
  function TakeOut<T>(c: Client<T>, i: nat): (d: Client<T>)
    requires i < |c.messages| && c.iterators != []
    ensures |d.iterators| == |c.iterators|
  {
    c.(messages := Take(c.messages, i),
       iterators := Shifted(Advanced(c.iterators, |c.messages|), i, |c.messages| - 1))
  }

  /** The i-th message of the queue is taken out and handled. */
  function RunPosted<T>(c: Client<T>, i: nat): Client<T>
    requires i < |c.messages| && c.iterators != []
  {
    var m := c.messages[i];
    var c1 := TakeOut(c, i);
    if Refuses(c, m) then
      c1.(refused := c.refused + [m], settled := c.settled + [m], answers := c.answers + Declining(m))
    else Enter(c1, m)
  }

  /** The timer has fired, and a loop over the queue begins. */
  function BeginLoop<T>(c: Client<T>): Client<T> {
    c.(timer := false, iterators := c.iterators + [if c.messages == [] then -1 else 0])
  }

  /** The loop is over; what is left in the queue gets another turn later. */
  function EndLoop<T>(c: Client<T>): Client<T>
    requires c.iterators != []
  {
    c.(timer := c.timer || c.messages != [], iterators := c.iterators[..|c.iterators| - 1])
  }

  // ---------------------------------------------------------------- runs

  datatype Event<T> =
    | Arrival(msg: Msg<T>)
    | Handled(reply: Opcode)
    | CallBegins
    | CallEnds
    | LoopBegins
    | Posted(index: nat)
    | Passed
    | LoopEnds
    | SetAcceptCalls(on: bool)

  predicate IsAnswer(opcode: Opcode) {
    opcode == Reply || opcode == ReplyFailed || opcode == ReplyWait
  }

  /** The innermost loop takes up the message it stands on exactly if it is due, and is over only
      when it has come to the end. */
  predicate Possible<T>(c: Client<T>, ev: Event<T>) {
    match ev
    case Handled(reply) => c.stack != [] && c.stack[|c.stack| - 1].Handling? && IsAnswer(reply)
    case CallEnds => c.stack != [] && c.stack[|c.stack| - 1].Calling?
    case LoopBegins => c.timer
    case Posted(i) => c.iterators != [] && At(c) == i && i < |c.messages| && !Foreign(c, c.messages[i])
    case Passed => c.iterators != [] && 0 <= At(c) < |c.messages| && Foreign(c, c.messages[At(c)])
    case LoopEnds => c.iterators != [] && At(c) == -1
    case _ => true
  }

  function Step<T>(c: Client<T>, ev: Event<T>): Client<T>
    requires Possible(c, ev)
  {
    match ev
    case Arrival(m) => Arrive(c, m)
    case Handled(reply) => Leave(c, reply)
    case CallBegins => BeginCall(c)
    case CallEnds => EndCall(c)
    case LoopBegins => BeginLoop(c)
    case Posted(i) => RunPosted(c, i)
    case Passed => Pass(c)
    case LoopEnds => EndLoop(c)
    case SetAcceptCalls(on) => c.(acceptCalls := on)
  }

  predicate GoodRun<T>(c: Client<T>, evs: seq<Event<T>>)
    decreases |evs|
  {
    evs == [] || (Possible(c, evs[0]) && GoodRun(Step(c, evs[0]), evs[1..]))
  }

  function Run<T>(c: Client<T>, evs: seq<Event<T>>): Client<T>
    requires GoodRun(c, evs)
    decreases |evs|
  {
    if evs == [] then c else Run(Step(c, evs[0]), evs[1..])
  }

  // ------------------------------------------------------------- invariants

  /** The key under which a stack of frames works, 0 if there is none. */
  function Level<T>(stack: seq<Frame<T>>): CARD32 {
    if stack == [] then 0
    else
      match stack[|stack| - 1]
      case Calling(_, key) => key
      case Handling(_, m) => if m.opcode == Send then Level(stack[..|stack| - 1]) else m.key
  }

  function FrameKey<T>(f: Frame<T>): CARD32 {
    if f.Calling? then f.key else f.msg.key
  }

  /** Every frame remembers the key it was entered under, and has that key itself
      unless there was none. */
  ghost predicate Nested<T>(stack: seq<Frame<T>>) {
    stack == [] ||
    (var top, below := stack[|stack| - 1], stack[..|stack| - 1];
     Nested(below) && top.saved == Level(below) && (Level(below) == 0 || FrameKey(top) == Level(below)))
  }

  /** Every message that was accepted was handled, refused later on, or still waits. */
  ghost predicate Conserved<T>(c: Client<T>) {
    && multiset(c.accepted) == multiset(c.handled) + multiset(c.refused) + multiset(c.messages)
    && multiset(c.settled) == multiset(c.handled) + multiset(c.refused)
    && (c.refused == [] ==> c.settled == c.handled)
  }

  /** Only requests are queued, and none that is local. */
  ghost predicate Queueable<T>(ms: seq<Msg<T>>) {
    forall m <- ms :: IsRequest(m.opcode) && m.sender != ""
  }

  /** What is queued is not forgotten: a loop is at it, or will be when the timer fires. */
  predicate Scheduled<T>(c: Client<T>) {
    c.messages != [] ==> c.timer || c.iterators != []
  }

  /** Iterators are on items, or behind the end. */
  predicate InRange(its: seq<int>, length: nat) {
    forall i :: 0 <= i < |its| ==> -1 <= its[i] < length
  }

  /** Calls by their keys and senders. */
  type Calls = multiset<(CARD32, string)>

  function CallOf<T>(m: Msg<T>): Calls {
    if m.opcode == Send then multiset{} else multiset{(m.key, m.sender)}
  }

  /** The calls among some messages. */
  function CallsIn<T>(ms: seq<Msg<T>>): Calls {
    if ms == [] then multiset{} else CallsIn(ms[..|ms| - 1]) + CallOf(ms[|ms| - 1])
  }

  function CallOn<T>(f: Frame<T>): Calls {
    if f.Calling? then multiset{} else CallOf(f.msg)
  }

  /** The calls that are being handled. */
  function CallsOn<T>(stack: seq<Frame<T>>): Calls {
    if stack == [] then multiset{} else CallsOn(stack[..|stack| - 1]) + CallOn(stack[|stack| - 1])
  }

  /** The calls that were answered. */
  function Given(answers: seq<Answer>): Calls {
    if answers == [] then multiset{}
    else
      var a := answers[|answers| - 1];
      Given(answers[..|answers| - 1]) + multiset{(a.key, a.to)}
  }

  /** Every call was answered once, with its key and to its sender, or is being handled, or waits. */
  ghost predicate Answered<T>(c: Client<T>) {
    AnsweredBy(c.asked, c.answers, c.messages, c.stack)
  }

  ghost predicate AnsweredBy<T>(asked: seq<Msg<T>>, answers: seq<Answer>, messages: seq<Msg<T>>, stack: seq<Frame<T>>) {
    Balanced(CallsIn(asked), Given(answers), CallsIn(messages), CallsOn(stack))
  }

  ghost predicate Balanced(asked: Calls, given: Calls, waiting: Calls, handling: Calls) {
    asked == given + waiting + handling
  }

  ghost predicate Inv<T>(c: Client<T>) {
    && Nested(c.stack) && c.currentKey == Level(c.stack) && Conserved(c) && Queueable(c.messages) && Scheduled(c)
    && InRange(c.iterators, |c.messages|)
  }

  lemma Push<T>(stack: seq<Frame<T>>, f: Frame<T>)
    requires Nested(stack) && f.saved == Level(stack) && (Level(stack) == 0 || FrameKey(f) == Level(stack))
    ensures Nested(stack + [f])
    ensures Level(stack + [f]) == if f.Handling? && f.msg.opcode == Send then Level(stack) else FrameKey(f)
  {
    assert (stack + [f])[..|stack|] == stack;
  }

  lemma TakeConserves<T>(ms: seq<Msg<T>>, i: nat)
    requires i < |ms|
    ensures multiset(ms) == multiset(Take(ms, i)) + multiset{ms[i]}
  {
    assert ms == ms[..i] + [ms[i]] + ms[i + 1..];
  }

  lemma EnterKeeps<T>(c: Client<T>, m: Msg<T>)
    requires Nested(c.stack) && c.currentKey == Level(c.stack) && !Foreign(c, m)
    ensures var c1 := Enter(c, m); Nested(c1.stack) && c1.currentKey == Level(c1.stack)
  {
    Push(c.stack, Handling(c.currentKey, m));
  }

  // one call more or less

  lemma OneMoreCall(asked: Calls, given: Calls, waiting: Calls, handling: Calls, x: Calls)
    requires Balanced(asked, given, waiting, handling)
    ensures Balanced(asked + x, given + x, waiting, handling)
    ensures Balanced(asked + x, given, waiting + x, handling)
    ensures Balanced(asked + x, given, waiting, handling + x)
  {
  }

  lemma CallMoves(asked: Calls, given: Calls, waiting: Calls, handling: Calls, x: Calls)
    ensures Balanced(asked, given, waiting + x, handling) ==>
              Balanced(asked, given, waiting, handling + x) && Balanced(asked, given + x, waiting, handling)
    ensures Balanced(asked, given, waiting, handling + x) ==> Balanced(asked, given + x, waiting, handling)
  {
  }

  lemma CallsInSnoc<T>(ms: seq<Msg<T>>, m: Msg<T>)
    ensures CallsIn(ms + [m]) == CallsIn(ms) + CallOf(m)
  {
    assert (ms + [m])[..|ms|] == ms;
  }

  lemma {:induction false} CallsInConcat<T>(a: seq<Msg<T>>, b: seq<Msg<T>>)
    ensures CallsIn(a + b) == CallsIn(a) + CallsIn(b)
    decreases |b|
  {
    if b == [] {
      assert a + b == a;
    } else {
      var m := b[|b| - 1];
      assert a + b == (a + b[..|b| - 1]) + [m];
      CallsInSnoc(a + b[..|b| - 1], m);
      CallsInConcat(a, b[..|b| - 1]);
    }
  }

  lemma CallsInAround<T>(before: seq<Msg<T>>, m: Msg<T>, after: seq<Msg<T>>)
    ensures CallsIn((before + [m]) + after) == CallsIn(before + after) + CallOf(m)
  {
    CallsInConcat(before + [m], after);
    CallsInSnoc(before, m);
    CallsInConcat(before, after);
  }

  lemma SplitAround<T>(s: seq<T>, i: nat)
    requires i < |s|
    ensures s == (s[..i] + [s[i]]) + s[i + 1..]
  {
  }

  lemma CallsInTake<T>(ms: seq<Msg<T>>, i: nat)
    requires i < |ms|
    ensures CallsIn(ms) == CallsIn(Take(ms, i)) + CallOf(ms[i])
  {
    SplitAround(ms, i);
    CallsInAround(ms[..i], ms[i], ms[i + 1..]);
  }

  lemma CallsOnSnoc<T>(stack: seq<Frame<T>>, f: Frame<T>)
    ensures CallsOn(stack + [f]) == CallsOn(stack) + CallOn(f)
  {
    assert (stack + [f])[..|stack|] == stack;
  }

  lemma GivenSnoc(answers: seq<Answer>, a: Answer)
    ensures Given(answers + [a]) == Given(answers) + multiset{(a.key, a.to)}
  {
    assert (answers + [a])[..|answers|] == answers;
  }

  /** A refusal answers the message, if it has to be answered. */
  lemma DecliningGives<T>(answers: seq<Answer>, m: Msg<T>)
    ensures Given(answers + Declining(m)) == Given(answers) + if Asks(m) then CallOf(m) else multiset{}
  {
    if Asks(m) {
      GivenSnoc(answers, Answer(ReplyFailed, m.key, m.sender));
    } else {
      assert answers + [] == answers;
    }
  }

  function Asking<T>(asked: seq<Msg<T>>, m: Msg<T>): seq<Msg<T>> {
    if Asks(m) then asked + [m] else asked
  }

  lemma AskingIs<T>(asked: seq<Msg<T>>, m: Msg<T>)
    ensures CallsIn(Asking(asked, m)) == CallsIn(asked) + if Asks(m) then CallOf(m) else multiset{}
  {
    CallsInSnoc(asked, m);
  }

  lemma CallDeclined<T>(asked: seq<Msg<T>>, answers: seq<Answer>, messages: seq<Msg<T>>, stack: seq<Frame<T>>,
                        m: Msg<T>)
    requires AnsweredBy(asked, answers, messages, stack)
    ensures AnsweredBy(Asking(asked, m), answers + Declining(m), messages, stack)
  {
    AskingIs(asked, m);
    DecliningGives(answers, m);
    OneMoreCall(CallsIn(asked), Given(answers), CallsIn(messages), CallsOn(stack), CallOf(m));
  }

  lemma CallQueued<T>(asked: seq<Msg<T>>, answers: seq<Answer>, messages: seq<Msg<T>>, stack: seq<Frame<T>>, m: Msg<T>)
    requires AnsweredBy(asked, answers, messages, stack) && IsRequest(m.opcode) && m.sender != ""
    ensures AnsweredBy(Asking(asked, m), answers, messages + [m], stack)
  {
    AskingIs(asked, m);
    CallsInSnoc(messages, m);
    OneMoreCall(CallsIn(asked), Given(answers), CallsIn(messages), CallsOn(stack), CallOf(m));
  }

  lemma CallEntered<T>(asked: seq<Msg<T>>, answers: seq<Answer>, messages: seq<Msg<T>>, stack: seq<Frame<T>>, m: Msg<T>,
                       saved: CARD32)
    requires AnsweredBy(asked, answers, messages, stack) && IsRequest(m.opcode) && m.sender != ""
    ensures AnsweredBy(Asking(asked, m), answers, messages, stack + [Handling(saved, m)])
  {
    AskingIs(asked, m);
    CallsOnSnoc(stack, Handling(saved, m));
    OneMoreCall(CallsIn(asked), Given(answers), CallsIn(messages), CallsOn(stack), CallOf(m));
  }

  lemma ArriveAnswers<T>(c: Client<T>, m: Msg<T>)
    requires Answered(c)
    ensures Answered(Arrive(c, m))
  {
    if IsRequest(m.opcode) {
      if Refuses(c, m) {
        CallDeclined(c.asked, c.answers, c.messages, c.stack, m);
      } else if Foreign(c, m) {
        CallQueued(c.asked, c.answers, c.messages, c.stack, m);
      } else {
        CallEntered(c.asked, c.answers, c.messages, c.stack, m, c.currentKey);
      }
    }
  }

  lemma CallTaken<T>(asked: seq<Msg<T>>, answers: seq<Answer>, messages: seq<Msg<T>>, stack: seq<Frame<T>>, i: nat,
                     saved: CARD32)
    requires AnsweredBy(asked, answers, messages, stack) && i < |messages|
    requires IsRequest(messages[i].opcode) && messages[i].sender != ""
    ensures AnsweredBy(asked, answers + Declining(messages[i]), Take(messages, i), stack)
    ensures AnsweredBy(asked, answers, Take(messages, i), stack + [Handling(saved, messages[i])])
  {
    var m := messages[i];
    CallsInTake(messages, i);
    CallMoves(CallsIn(asked), Given(answers), CallsIn(Take(messages, i)), CallsOn(stack), CallOf(m));
    DecliningGives(answers, m);
    CallsOnSnoc(stack, Handling(saved, m));
  }

  lemma PostedAnswers<T>(c: Client<T>, i: nat)
    requires Answered(c) && Queueable(c.messages) && i < |c.messages| && c.iterators != []
    ensures Answered(RunPosted(c, i))
  {
    assert c.messages[i] in c.messages;
    CallTaken(c.asked, c.answers, c.messages, c.stack, i, c.currentKey);
  }

  lemma CallReplied<T>(asked: seq<Msg<T>>, answers: seq<Answer>, messages: seq<Msg<T>>, below: seq<Frame<T>>, m: Msg<T>,
                       saved: CARD32, reply: Opcode)
    requires AnsweredBy(asked, answers, messages, below + [Handling(saved, m)])
    ensures AnsweredBy(asked, answers + [Answer(reply, m.key, m.sender)], messages, below) || m.opcode == Send
    ensures m.opcode == Send ==> AnsweredBy(asked, answers, messages, below)
  {
    CallsOnSnoc(below, Handling(saved, m));
    CallMoves(CallsIn(asked), Given(answers), CallsIn(messages), CallsOn(below), CallOf(m));
    GivenSnoc(answers, Answer(reply, m.key, m.sender));
  }

  lemma LeaveAnswers<T>(c: Client<T>, reply: Opcode)
    requires Answered(c) && Possible(c, Handled(reply))
    ensures Answered(Leave(c, reply))
  {
    var n := |c.stack| - 1;
    assert c.stack == c.stack[..n] + [c.stack[n]];
    CallReplied(c.asked, c.answers, c.messages, c.stack[..n], c.stack[n].msg, c.stack[n].saved, reply);
  }

  lemma CallAnswers<T>(c: Client<T>)
    requires Answered(c)
    ensures Answered(BeginCall(c))
  {
    CallsOnSnoc(c.stack, Calling(c.currentKey, CallKey(c)));
  }

  lemma StepAnswers<T>(c: Client<T>, ev: Event<T>)
    requires Answered(c) && Queueable(c.messages) && Possible(c, ev)
    ensures Answered(Step(c, ev))
  {
    match ev {
      case Arrival(m) => ArriveAnswers(c, m);
      case Handled(reply) => LeaveAnswers(c, reply);
      case CallBegins => CallAnswers(c);
      case CallEnds =>
      case LoopBegins =>
      case Posted(i) => PostedAnswers(c, i);
      case Passed =>
      case LoopEnds =>
      case SetAcceptCalls(on) =>
    }
  }

  // iterators

  lemma AdvancedInRange(its: seq<int>, length: nat)
    requires its != [] && InRange(its, length)
    ensures InRange(Advanced(its, length), length)
  {
  }

  lemma {:induction false} ShiftedSnoc(ps: seq<int>, p: int, index: nat, length: nat)
    ensures Shifted(ps + [p], index, length) == Shifted(ps, index, length) + [Shift(p, index, length)]
    decreases |ps|
  {
    if ps != [] {
      assert (ps + [p])[1..] == ps[1..] + [p];
      ShiftedSnoc(ps[1..], p, index, length);
    }
  }

  lemma {:induction false} ShiftedAt(ps: seq<int>, i: nat, index: nat, length: nat)
    requires i < |ps|
    ensures Shifted(ps, index, length)[i] == Shift(ps[i], index, length)
    decreases |ps|
  {
    if i > 0 {
      ShiftedAt(ps[1..], i - 1, index, length);
    }
  }

  lemma ShiftedInRange(its: seq<int>, index: nat, length: nat)
    requires InRange(its, length + 1) && index <= length
    ensures InRange(Shifted(its, index, length), length)
  {
    forall i | 0 <= i < |its| ensures -1 <= Shifted(its, index, length)[i] < length {
      ShiftedAt(its, i, index, length);
    }
  }

  lemma TakeOutInRange<T>(c: Client<T>, i: nat)
    requires i < |c.messages| && c.iterators != [] && InRange(c.iterators, |c.messages|)
    ensures var d := TakeOut(c, i); InRange(d.iterators, |d.messages|)
    ensures At(c) == i ==> At(TakeOut(c, i)) == if i < |c.messages| - 1 then i else -1
  {
    var its := Advanced(c.iterators, |c.messages|);
    AdvancedInRange(c.iterators, |c.messages|);
    ShiftedInRange(its, i, |c.messages| - 1);
    ShiftedAt(its, |its| - 1, i, |c.messages| - 1);
  }

  lemma StepInRange<T>(c: Client<T>, ev: Event<T>)
    requires InRange(c.iterators, |c.messages|) && Possible(c, ev)
    ensures InRange(Step(c, ev).iterators, |Step(c, ev).messages|)
  {
    match ev {
      case Arrival(m) => ArrivalInRange(c, m);
      case LoopBegins => LoopInRange(c);
      case Posted(i) => TakeOutInRange(c, i);
      case Passed => AdvancedInRange(c.iterators, |c.messages|);
      case _ =>
    }
  }

  lemma ArrivalInRange<T>(c: Client<T>, m: Msg<T>)
    requires InRange(c.iterators, |c.messages|)
    ensures InRange(Arrive(c, m).iterators, |Arrive(c, m).messages|)
  {
    assert Arrive(c, m).iterators == c.iterators && |Arrive(c, m).messages| >= |c.messages|;
  }

  lemma LoopInRange<T>(c: Client<T>)
    requires InRange(c.iterators, |c.messages|)
    ensures InRange(BeginLoop(c).iterators, |c.messages|)
  {
  }

  /** What a step leaves to the other parts of the invariant. */
  ghost predicate Keeps<T>(c: Client<T>) {
    && Nested(c.stack) && c.currentKey == Level(c.stack) && Conserved(c) && Queueable(c.messages) && Scheduled(c)
  }

  /** A message that comes in is queued. */
  lemma QueueKeeps<T>(c: Client<T>, m: Msg<T>)
    requires Keeps(c) && IsRequest(m.opcode) && m.sender != ""
    ensures Keeps(c.(accepted := c.accepted + [m], messages := c.messages + [m], timer := true))
  {
    assert Queueable(c.messages + [m]);
  }

  /** A message that comes in is handled. */
  lemma AcceptedKeeps<T>(c: Client<T>, m: Msg<T>)
    requires Keeps(c) && !Foreign(c, m)
    ensures Keeps(Enter(c.(accepted := c.accepted + [m]), m))
  {
    EnterKeeps(c.(accepted := c.accepted + [m]), m);
  }

  lemma ArriveKeeps<T>(c: Client<T>, m: Msg<T>)
    requires Keeps(c)
    ensures Keeps(Arrive(c, m))
  {
    var c1 := c.(key := if c.key == 0 then m.key else c.key, asked := Asking(c.asked, m));
    if IsRequest(m.opcode) && !Refuses(c, m) {
      if Foreign(c1, m) {
        QueueKeeps(c1, m);
      } else {
        AcceptedKeeps(c1, m);
      }
    }
  }

  lemma TakeKeepsQueueable<T>(ms: seq<Msg<T>>, i: nat)
    requires i < |ms| && Queueable(ms)
    ensures Queueable(Take(ms, i))
  {
  }

  lemma PostedKeeps<T>(c: Client<T>, i: nat)
    requires Keeps(c) && c.iterators != [] && i < |c.messages| && !Foreign(c, c.messages[i])
    ensures Keeps(RunPosted(c, i))
  {
    TakeConserves(c.messages, i);
    TakeKeepsQueueable(c.messages, i);
    if !Refuses(c, c.messages[i]) {
      EnterKeeps(TakeOut(c, i), c.messages[i]);
    }
    TakenConserves(c, i);
  }

  lemma TakenConserves<T>(c: Client<T>, i: nat)
    requires Conserved(c) && c.iterators != [] && i < |c.messages|
    ensures Conserved(RunPosted(c, i))
  {
    TakeConserves(c.messages, i);
    SnocCounts(c.handled, c.messages[i]);
    SnocCounts(c.refused, c.messages[i]);
    SnocCounts(c.settled, c.messages[i]);
    OneMoves(multiset(c.accepted), multiset(c.handled), multiset(c.refused), multiset(Take(c.messages, i)),
             multiset{c.messages[i]});
  }

  lemma SnocCounts<T>(s: seq<T>, x: T)
    ensures multiset(s + [x]) == multiset(s) + multiset{x}
  {
  }

  lemma OneMoves<T>(all: multiset<T>, a: multiset<T>, b: multiset<T>, c: multiset<T>, x: multiset<T>)
    requires all == a + b + (c + x)
    ensures all == (a + x) + b + c && all == a + (b + x) + c
    ensures (a + b) + x == (a + x) + b == a + (b + x)
  {
  }

  lemma StepKeeps<T>(c: Client<T>, ev: Event<T>)
    requires Inv(c) && Possible(c, ev)
    ensures Inv(Step(c, ev))
  {
    StepInRange(c, ev);
    StepKeepsRest(c, ev);
  }

  lemma StepKeepsRest<T>(c: Client<T>, ev: Event<T>)
    requires Keeps(c) && Possible(c, ev)
    ensures Keeps(Step(c, ev))
  {
    match ev {
      case Arrival(m) => ArriveKeeps(c, m);
      case Handled(reply) =>
      case CallBegins => Push(c.stack, Calling(c.currentKey, CallKey(c)));
      case CallEnds =>
      case LoopBegins =>
      case Posted(i) => PostedKeeps(c, i);
      case Passed =>
      case LoopEnds =>
      case SetAcceptCalls(on) =>
    }
  }

  lemma {:induction false} RunKeeps<T>(c: Client<T>, evs: seq<Event<T>>)
    requires Inv(c) && GoodRun(c, evs)
    ensures Inv(Run(c, evs))
    decreases |evs|
  {
    if evs != [] {
      StepKeeps(c, evs[0]);
      RunKeeps(Step(c, evs[0]), evs[1..]);
    }
  }

  // -------------------------------------------------------------- properties

  predicate Keyed<T>(f: Frame<T>) {
    FrameKey(f) != 0 && (f.Calling? || f.msg.opcode != Send)
  }

  /** All calls and all handled calls on the stack share one key, the current one. */
  lemma {:induction false} OneKey<T>(stack: seq<Frame<T>>, i: nat)
    requires Nested(stack) && i < |stack| && Keyed(stack[i])
    ensures FrameKey(stack[i]) == Level(stack)
    decreases |stack|
  {
    if i < |stack| - 1 {
      OneKey(stack[..|stack| - 1], i);
    }
  }

  /** Nothing with another key is ever handled inside a call. */
  lemma {:induction false} NothingForeignInside<T>(stack: seq<Frame<T>>, i: nat, j: nat)
    requires Nested(stack) && i < j < |stack| && Keyed(stack[i])
    ensures FrameKey(stack[j]) == FrameKey(stack[i])
    decreases |stack|
  {
    if j < |stack| - 1 {
      NothingForeignInside(stack[..|stack| - 1], i, j);
    } else {
      OneKey(stack[..j], i);
    }
  }

  /** After any run of a client, messages in any order, all frames of calls have
      the current key, and the key depends on the stack alone: it is back at its old
      value when the stack is. Between the loops over the queue, what is queued has the
      timer armed. */
  lemma Discipline<T>(evs: seq<Event<T>>, more: seq<Event<T>>)
    requires GoodRun(NewClient<T>(), evs) && GoodRun(Run(NewClient<T>(), evs), more)
    ensures var c := Run(NewClient<T>(), evs);
            && Conserved(c)
            && (forall i | 0 <= i < |c.stack| && Keyed(c.stack[i]) :: FrameKey(c.stack[i]) == c.currentKey)
            && (c.stack == [] ==> c.currentKey == 0)
            && (c.messages != [] && c.iterators == [] ==> c.timer)
            && (Run(c, more).stack == c.stack ==> Run(c, more).currentKey == c.currentKey)
  {
    RunKeeps(NewClient<T>(), evs);
    var c := Run(NewClient<T>(), evs);
    RunKeeps(c, more);
    forall i | 0 <= i < |c.stack| && Keyed(c.stack[i]) ensures FrameKey(c.stack[i]) == c.currentKey {
      OneKey(c.stack, i);
    }
  }

  /** Every call that came in, from the start and in any run, was answered exactly once with its
      key and to its sender, or it is being handled, or it waits in the queue. */
  lemma CallsAreAnswered<T>(evs: seq<Event<T>>)
    requires GoodRun(NewClient<T>(), evs)
    ensures var c := Run(NewClient<T>(), evs);
            && c.asked == CallsOf(evs)
            && CallsIn(CallsOf(evs)) == Given(c.answers) + CallsIn(c.messages) + CallsOn(c.stack)
            && (c.stack == [] && c.messages == [] ==> CallsIn(CallsOf(evs)) == Given(c.answers))
  {
    RunAnswers(NewClient<T>(), evs);
    AskedAre(NewClient<T>(), evs);
    assert [] + CallsOf(evs) == CallsOf(evs);
  }

  lemma {:induction false} RunAnswers<T>(c: Client<T>, evs: seq<Event<T>>)
    requires Inv(c) && Answered(c) && GoodRun(c, evs)
    ensures Answered(Run(c, evs))
    decreases |evs|
  {
    if evs != [] {
      StepKeeps(c, evs[0]);
      StepAnswers(c, evs[0]);
      RunAnswers(Step(c, evs[0]), evs[1..]);
    }
  }

  /** The calls that come in during a run, but for local ones. */
  function CallsOf<T>(evs: seq<Event<T>>): seq<Msg<T>> {
    if evs == [] then [] else CallIn(evs[0]) + CallsOf(evs[1..])
  }

  function CallIn<T>(ev: Event<T>): seq<Msg<T>> {
    if ev.Arrival? && Asks(ev.msg) then [ev.msg] else []
  }

  lemma AskedOne<T>(c: Client<T>, ev: Event<T>)
    requires Possible(c, ev)
    ensures Step(c, ev).asked == c.asked + CallIn(ev)
  {
    assert c.asked + [] == c.asked;
  }

  lemma {:induction false} AskedAre<T>(c: Client<T>, evs: seq<Event<T>>)
    requires GoodRun(c, evs)
    ensures Run(c, evs).asked == c.asked + CallsOf(evs)
    decreases |evs|
  {
    if evs == [] {
      assert c.asked + [] == c.asked;
    } else {
      AskedOne(c, evs[0]);
      AskedAre(Step(c, evs[0]), evs[1..]);
      assert c.asked + CallIn(evs[0]) + CallsOf(evs[1..]) == c.asked + (CallIn(evs[0]) + CallsOf(evs[1..]));
    }
  }

  /** A message that comes in is handled at once exactly if it is a request with a sender, calls
      are accepted, and the client works under no key or under that of the message; it is queued
      exactly if only the last of these is not so; and otherwise nothing becomes of it, but that
      a call with a sender is told that it failed. */
  lemma TakenUpExactly<T>(c: Client<T>, m: Msg<T>)
    ensures var d := Step(c, Arrival(m));
            var wanted := IsRequest(m.opcode) && m.sender != "" && c.acceptCalls;
            && (d.handled == c.handled + [m] <==> wanted && (c.currentKey == 0 || m.key == c.currentKey))
            && (d.stack == c.stack + [Handling(c.currentKey, m)] <==> d.handled == c.handled + [m])
            && (d.messages == c.messages + [m] <==> wanted && c.currentKey != 0 && m.key != c.currentKey)
            && (d.handled == c.handled + [m] || (d.handled == c.handled && d.stack == c.stack))
            && (d.messages == c.messages + [m] || d.messages == c.messages)
            && d.acceptCalls == c.acceptCalls && (c.key != 0 ==> d.key == c.key) && (c.key == 0 ==> d.key == m.key)
            && d.answers == if Asks(m) && !c.acceptCalls then c.answers + [Answer(ReplyFailed, m.key, m.sender)]
                            else c.answers
  {
    assert c.answers + [] == c.answers;
    assert |c.stack + [Handling(c.currentKey, m)]| > |c.stack|;
  }

  /** A step sends nothing but one answer: what the handler of a call has come to when it ends, or
      that a call failed, when it is refused. */
  lemma AnswersExactly<T>(c: Client<T>, ev: Event<T>)
    requires Possible(c, ev)
    ensures var m := if ev.Arrival? then Some(ev.msg) else if ev.Posted? then Some(c.messages[ev.index])
                     else if ev.Handled? then Some(c.stack[|c.stack| - 1].msg) else None;
            Step(c, ev).answers ==
              if m == None then c.answers
              else if ev.Handled? && m.value.opcode != Send then
                c.answers + [Answer(ev.reply, m.value.key, m.value.sender)]
              else if !ev.Handled? && !c.acceptCalls && Asks(m.value) then
                c.answers + [Answer(ReplyFailed, m.value.key, m.value.sender)]
              else c.answers
  {
    assert c.answers + [] == c.answers;
  }

  /** What was switched stays so until it is switched again. */
  lemma AcceptsAsTold<T>(c: Client<T>, ev: Event<T>)
    requires Possible(c, ev)
    ensures Step(c, ev).acceptCalls == if ev.SetAcceptCalls? then ev.on else c.acceptCalls
  {
  }

  // ------------------------------------------------------------------- order

  /** The messages of one sender. */
  function From<T>(ms: seq<Msg<T>>, sender: string): seq<Msg<T>> {
    if ms == [] then [] else (if ms[0].sender == sender then [ms[0]] else []) + From(ms[1..], sender)
  }

  lemma {:induction false} FromConcat<T>(a: seq<Msg<T>>, b: seq<Msg<T>>, sender: string)
    ensures From(a + b, sender) == From(a, sender) + From(b, sender)
    decreases |a|
  {
    if a == [] {
      assert a + b == b;
    } else {
      var own := if a[0].sender == sender then [a[0]] else [];
      assert (a + b)[0] == a[0] && (a + b)[1..] == a[1..] + b;
      FromConcat(a[1..], b, sender);
      assert own + From(a[1..], sender) + From(b, sender) == own + (From(a[1..], sender) + From(b, sender));
    }
  }

  lemma FromSnoc<T>(a: seq<Msg<T>>, m: Msg<T>, sender: string)
    ensures From(a + [m], sender) == From(a, sender) + (if m.sender == sender then [m] else [])
  {
    FromConcat(a, [m], sender);
    assert [m][1..] == [];
  }

  lemma {:induction false} FromMembers<T>(ms: seq<Msg<T>>, sender: string, m: Msg<T>)
    ensures m in From(ms, sender) <==> m in ms && m.sender == sender
    decreases |ms|
  {
    if ms != [] {
      FromMembers(ms[1..], sender, m);
    }
  }

  /** All of a sender's messages were taken up in the order in which they were accepted,
      and those that were not yet wait in that order. */
  ghost predicate InOrder<T>(c: Client<T>, sender: string) {
    InOrderOf(c.accepted, c.settled, c.messages, sender)
  }

  /** A message of the sender is taken up although another one, which was accepted before
      it, still waits: on arrival, or out of the middle of the queue. */
  ghost predicate Overtakes<T>(c: Client<T>, ev: Event<T>, sender: string) {
    match ev
    case Arrival(m) =>
      && m.sender == sender && IsRequest(m.opcode) && !Refuses(c, m) && !Foreign(c, m)
      && OtherWaits(c.messages, m)
    case Posted(i) =>
      && i < |c.messages| && c.messages[i].sender == sender
      && OtherWaits(c.messages[..i], c.messages[i])
    case _ => false
  }

  predicate AllAre<T(==)>(ms: seq<Msg<T>>, m: Msg<T>) {
    forall q <- ms :: q == m
  }

  lemma {:induction false} Commute<T>(ms: seq<Msg<T>>, m: Msg<T>)
    ensures ms + [m] == [m] + ms <==> AllAre(ms, m)
    decreases |ms|
  {
    if ms != [] {
      Commute(ms[1..], m);
      assert ms == [ms[0]] + ms[1..];
      assert forall q <- ms :: q == ms[0] || q in ms[1..];
      assert forall q <- ms[1..] :: q in ms;
      if ms[0] == m {
        assert ms + [m] == [m] + (ms[1..] + [m]);
        assert [m] + ms == [m] + ([m] + ms[1..]);
        if ms + [m] == [m] + ms {
          assert ms[1..] + [m] == (ms + [m])[1..] == ([m] + ms)[1..] == [m] + ms[1..];
        }
      } else {
        assert (ms + [m])[0] != ([m] + ms)[0];
        assert ms[0] in ms;
      }
    }
  }

  lemma InsertedInOrder<T>(done: seq<Msg<T>>, before: seq<Msg<T>>, m: Msg<T>, after: seq<Msg<T>>)
    ensures done + (before + [m] + after) == (done + [m]) + (before + after) <==> AllAre(before, m)
  {
    Commute(before, m);
    var whole, moved := done + (before + [m] + after), (done + [m]) + (before + after);
    assert whole == done + (before + [m]) + after;
    assert moved == done + ([m] + before) + after;
    if whole == moved {
      assert before + [m] == whole[|done|..|done| + |before| + 1];
      assert [m] + before == moved[|done|..|done| + |before| + 1];
    }
  }

  ghost predicate OtherWaits<T>(ms: seq<Msg<T>>, m: Msg<T>) {
    exists q <- ms :: q.sender == m.sender && q != m
  }

  lemma OtherWaitsIs<T>(ms: seq<Msg<T>>, m: Msg<T>)
    ensures OtherWaits(ms, m) <==> !AllAre(From(ms, m.sender), m)
  {
    if OtherWaits(ms, m) {
      var q :| q in ms && q.sender == m.sender && q != m;
      FromMembers(ms, m.sender, q);
    }
    if !AllAre(From(ms, m.sender), m) {
      var q :| q in From(ms, m.sender) && q != m;
      FromMembers(ms, m.sender, q);
    }
  }

  /** Taking up `m` of the sender while `before` and `after` wait. */
  lemma {:induction false} OwnTakenUp<T>(accepted: seq<Msg<T>>, settled: seq<Msg<T>>, before: seq<Msg<T>>, m: Msg<T>,
                                         after: seq<Msg<T>>)
    requires From(accepted, m.sender) == From(settled, m.sender) + From(before + [m] + after, m.sender)
    ensures From(accepted, m.sender) == From(settled + [m], m.sender) + From(before + after, m.sender)
            <==> AllAre(From(before, m.sender), m)
  {
    var done, earlier, later := From(settled, m.sender), From(before, m.sender), From(after, m.sender);
    var taken, left := From(settled + [m], m.sender), From(before + after, m.sender);
    FromSplit(before, m, after, m.sender);
    FromSnoc(settled, m, m.sender);
    Rearranged(From(accepted, m.sender), done, earlier, m, later, taken, left);
  }

  lemma Rearranged<T>(all: seq<Msg<T>>, done: seq<Msg<T>>, earlier: seq<Msg<T>>, m: Msg<T>, later: seq<Msg<T>>,
                      taken: seq<Msg<T>>, left: seq<Msg<T>>)
    requires all == done + (earlier + [m] + later) && taken == done + [m] && left == earlier + later
    ensures all == taken + left <==> AllAre(earlier, m)
  {
    InsertedInOrder(done, earlier, m, later);
  }

  /** Taking up another sender's message. */
  lemma OtherTakenUp<T>(settled: seq<Msg<T>>, before: seq<Msg<T>>, m: Msg<T>, after: seq<Msg<T>>, sender: string)
    requires m.sender != sender
    ensures From(settled + [m], sender) + From(before + after, sender)
         == From(settled, sender) + From(before + [m] + after, sender)
  {
    FromSplit(before, m, after, sender);
    FromSnoc(settled, m, sender);
    assert From(settled, sender) + [] == From(settled, sender);
  }

  ghost predicate InOrderOf<T>(accepted: seq<Msg<T>>, settled: seq<Msg<T>>, messages: seq<Msg<T>>, sender: string) {
    From(accepted, sender) == From(settled, sender) + From(messages, sender)
  }

  lemma TakenUp<T>(accepted: seq<Msg<T>>, settled: seq<Msg<T>>, before: seq<Msg<T>>, m: Msg<T>, after: seq<Msg<T>>,
                   sender: string)
    requires InOrderOf(accepted, settled, before + [m] + after, sender)
    ensures InOrderOf(accepted, settled + [m], before + after, sender)
            <==> !(m.sender == sender && OtherWaits(before, m))
  {
    if m.sender == sender {
      OtherWaitsIs(before, m);
      OwnTakenUp(accepted, settled, before, m, after);
    } else {
      OtherTakenUp(settled, before, m, after, sender);
    }
  }

  lemma FromSplit<T>(before: seq<Msg<T>>, m: Msg<T>, after: seq<Msg<T>>, sender: string)
    ensures From(before + after, sender) == From(before, sender) + From(after, sender)
    ensures From(before + [m] + after, sender)
         == if m.sender == sender then From(before, sender) + [m] + From(after, sender)
            else From(before + after, sender)
  {
    FromConcat(before + [m], after, sender);
    FromSnoc(before, m, sender);
    FromConcat(before, after, sender);
    assert From(before, sender) + [] == From(before, sender);
  }

  /** A message more at the end of what waits. */
  lemma QueuedInOrder<T>(accepted: seq<Msg<T>>, settled: seq<Msg<T>>, messages: seq<Msg<T>>, m: Msg<T>, sender: string)
    requires InOrderOf(accepted, settled, messages, sender)
    ensures InOrderOf(accepted + [m], settled, messages + [m], sender)
  {
    FromSnoc(accepted, m, sender);
    FromSnoc(messages, m, sender);
    var last := if m.sender == sender then [m] else [];
    assert From(settled, sender) + From(messages, sender) + last
        == From(settled, sender) + (From(messages, sender) + last);
  }

  lemma ArrivalOrder<T>(c: Client<T>, m: Msg<T>, sender: string)
    requires InOrder(c, sender)
    ensures InOrder(Arrive(c, m), sender) <==> !Overtakes(c, Arrival(m), sender)
  {
    if IsRequest(m.opcode) && !Refuses(c, m) {
      QueuedInOrder(c.accepted, c.settled, c.messages, m, sender);
      if !Foreign(c, m) {
        assert c.messages + [m] + [] == c.messages + [m] && c.messages + [] == c.messages;
        TakenUp(c.accepted + [m], c.settled, c.messages, m, [], sender);
      }
    }
  }

  lemma PostedOrder<T>(c: Client<T>, i: nat, sender: string)
    requires InOrder(c, sender) && i < |c.messages| && c.iterators != []
    ensures InOrder(RunPosted(c, i), sender) <==> !Overtakes(c, Posted(i), sender)
  {
    assert c.messages == c.messages[..i] + [c.messages[i]] + c.messages[i + 1..];
    TakenUp(c.accepted, c.settled, c.messages[..i], c.messages[i], c.messages[i + 1..], sender);
  }

  /** A step keeps the order of a sender's messages exactly when it lets none of them overtake. */
  lemma StepKeepsOrderExactly<T>(c: Client<T>, ev: Event<T>, sender: string)
    requires Possible(c, ev) && InOrder(c, sender)
    ensures InOrder(Step(c, ev), sender) <==> !Overtakes(c, ev, sender)
  {
    match ev {
      case Arrival(m) => ArrivalOrder(c, m, sender);
      case Posted(i) => PostedOrder(c, i, sender);
      case Handled(_) =>
      case CallBegins =>
      case CallEnds =>
      case LoopBegins =>
      case Passed =>
      case LoopEnds =>
      case SetAcceptCalls(_) =>
    }
  }

  /** No step of the run lets one of the sender's messages overtake another. */
  ghost predicate NeverOvertakes<T>(c: Client<T>, evs: seq<Event<T>>, sender: string)
    requires GoodRun(c, evs)
    decreases |evs|
  {
    evs == [] || (!Overtakes(c, evs[0], sender) && NeverOvertakes(Step(c, evs[0]), evs[1..], sender))
  }

  ghost predicate AlwaysInOrder<T>(c: Client<T>, evs: seq<Event<T>>, sender: string)
    requires GoodRun(c, evs)
    decreases |evs|
  {
    InOrder(c, sender) && (evs == [] || AlwaysInOrder(Step(c, evs[0]), evs[1..], sender))
  }

  /** Over a run the order holds all the way exactly when no step lets a message overtake. */
  lemma {:induction false} RunKeepsOrderExactly<T>(c: Client<T>, evs: seq<Event<T>>, sender: string)
    requires GoodRun(c, evs) && InOrder(c, sender)
    ensures AlwaysInOrder(c, evs, sender) <==> NeverOvertakes(c, evs, sender)
    decreases |evs|
  {
    if evs != [] {
      StepKeepsOrderExactly(c, evs[0], sender);
      if InOrder(Step(c, evs[0]), sender) {
        RunKeepsOrderExactly(Step(c, evs[0]), evs[1..], sender);
      }
    }
  }

  /** The k-th of the sender's messages that was taken up is not the k-th that was accepted. */
  ghost predicate Misplaced<T>(c: Client<T>, sender: string, k: nat) {
    var taken, accepted := From(c.settled, sender), From(c.accepted, sender);
    k < |taken| && k < |accepted| && taken[k] != accepted[k]
  }

  ghost predicate Grows<T>(c: Client<T>, d: Client<T>, sender: string) {
    From(c.settled, sender) <= From(d.settled, sender) && From(c.accepted, sender) <= From(d.accepted, sender)
  }

  lemma FromPrefix<T>(a: seq<Msg<T>>, b: seq<Msg<T>>, sender: string)
    requires a <= b
    ensures From(a, sender) <= From(b, sender)
  {
    assert b == a + b[|a|..];
    FromConcat(a, b[|a|..], sender);
  }

  lemma StepExtends<T>(c: Client<T>, ev: Event<T>)
    requires Possible(c, ev)
    ensures c.settled <= Step(c, ev).settled && c.accepted <= Step(c, ev).accepted
  {
  }

  lemma StepGrows<T>(c: Client<T>, ev: Event<T>, sender: string)
    requires Possible(c, ev)
    ensures Grows(c, Step(c, ev), sender)
  {
    StepExtends(c, ev);
    FromPrefix(c.settled, Step(c, ev).settled, sender);
    FromPrefix(c.accepted, Step(c, ev).accepted, sender);
  }

  lemma {:induction false} RunGrows<T>(c: Client<T>, evs: seq<Event<T>>, sender: string)
    requires GoodRun(c, evs)
    ensures Grows(c, Run(c, evs), sender)
    decreases |evs|
  {
    if evs != [] {
      StepGrows(c, evs[0], sender);
      RunGrows(Step(c, evs[0]), evs[1..], sender);
    }
  }

  ghost predicate Distinct<T>(ms: seq<Msg<T>>) {
    forall i, j :: 0 <= i < j < |ms| ==> ms[i] != ms[j]
  }

  /** The message that is taken up is not the first of those that wait. */
  lemma TakenTooEarly<T>(accepted: seq<Msg<T>>, settled: seq<Msg<T>>, before: seq<Msg<T>>, m: Msg<T>,
                         after: seq<Msg<T>>)
    requires From(accepted, m.sender)
          == From(settled, m.sender) + (From(before, m.sender) + [m] + From(after, m.sender))
    requires Distinct(From(accepted, m.sender)) && OtherWaits(before, m)
    ensures var taken, k := From(settled + [m], m.sender), |From(settled, m.sender)|;
            k < |taken| && k < |From(accepted, m.sender)| && taken[k] != From(accepted, m.sender)[k]
  {
    FromSnoc(settled, m, m.sender);
    var q :| q in before && q.sender == m.sender && q != m;
    FromMembers(before, m.sender, q);
    var all, k := From(accepted, m.sender), |From(settled, m.sender)|;
    assert all[k] == From(before, m.sender)[0];
    assert all[k + |From(before, m.sender)|] == m;
  }

  lemma ArrivalMisplaces<T>(c: Client<T>, m: Msg<T>)
    requires InOrder(c, m.sender) && Overtakes(c, Arrival(m), m.sender)
    requires Distinct(From(Arrive(c, m).accepted, m.sender))
    ensures Misplaced(Arrive(c, m), m.sender, |From(c.settled, m.sender)|)
  {
    FromSnoc(c.accepted, m, m.sender);
    var waiting := From(c.messages, m.sender);
    assert From(c.settled, m.sender) + waiting + [m] == From(c.settled, m.sender) + (waiting + [m] + []);
    TakenTooEarly(c.accepted + [m], c.settled, c.messages, m, []);
  }

  lemma PostedMisplaces<T>(c: Client<T>, i: nat)
    requires i < |c.messages| && InOrder(c, c.messages[i].sender) && Overtakes(c, Posted(i), c.messages[i].sender)
    requires c.iterators != []
    requires Distinct(From(c.accepted, c.messages[i].sender))
    ensures Misplaced(RunPosted(c, i), c.messages[i].sender, |From(c.settled, c.messages[i].sender)|)
  {
    var m := c.messages[i];
    var before, after := c.messages[..i], c.messages[i + 1..];
    assert c.messages == before + [m] + after;
    FromSplit(before, m, after, m.sender);
    TakenTooEarly(c.accepted, c.settled, before, m, after);
  }

  /** Overtaking leaves a message in another's place for good. */
  lemma OvertakingMisplaces<T>(c: Client<T>, ev: Event<T>, sender: string)
    requires Possible(c, ev) && InOrder(c, sender) && Overtakes(c, ev, sender)
    requires Distinct(From(Step(c, ev).accepted, sender))
    ensures Misplaced(Step(c, ev), sender, |From(c.settled, sender)|)
  {
    match ev {
      case Arrival(m) => ArrivalMisplaces(c, m);
      case Posted(i) => PostedMisplaces(c, i);
    }
  }

  lemma DistinctBefore<T>(c: Client<T>, evs: seq<Event<T>>, sender: string)
    requires GoodRun(c, evs) && Distinct(From(Run(c, evs).accepted, sender))
    ensures Distinct(From(c.accepted, sender))
  {
    RunGrows(c, evs, sender);
  }

  lemma {:induction false} MisplacedOrNot<T>(c: Client<T>, evs: seq<Event<T>>, sender: string)
    requires GoodRun(c, evs) && InOrder(c, sender) && Distinct(From(Run(c, evs).accepted, sender))
    ensures NeverOvertakes(c, evs, sender) ==> InOrder(Run(c, evs), sender)
    ensures !NeverOvertakes(c, evs, sender) ==> exists k: nat :: Misplaced(Run(c, evs), sender, k)
    decreases |evs|
  {
    if evs != [] {
      var d := Step(c, evs[0]);
      StepKeepsOrderExactly(c, evs[0], sender);
      DistinctBefore(d, evs[1..], sender);
      if Overtakes(c, evs[0], sender) {
        OvertakingMisplaces(c, evs[0], sender);
        RunGrows(d, evs[1..], sender);
        assert Misplaced(Run(c, evs), sender, |From(c.settled, sender)|);
      } else {
        MisplacedOrNot(d, evs[1..], sender);
      }
    }
  }

  /** From the start, with messages that can be told apart: the messages of a sender are
      taken up in the order in which they were accepted exactly when no step lets one of them
      overtake another; and as long as none is refused, taking up is handling. */
  lemma OrderKeptExactly<T>(evs: seq<Event<T>>, sender: string)
    requires GoodRun(NewClient<T>(), evs) && Distinct(From(Run(NewClient<T>(), evs).accepted, sender))
    ensures var c := Run(NewClient<T>(), evs);
            && (From(c.settled, sender) <= From(c.accepted, sender) <==> NeverOvertakes(NewClient<T>(), evs, sender))
            && (c.refused == [] ==> c.settled == c.handled)
  {
    MisplacedOrNot(NewClient<T>(), evs, sender);
    RunKeeps(NewClient<T>(), evs);
    var c := Run(NewClient<T>(), evs);
    if k: nat :| Misplaced(c, sender, k) {
      assert From(c.settled, sender)[k] != From(c.accepted, sender)[k];
    }
  }

  /** A run in which a message is overtaken: it came while a call was waiting, and the queue
      is not looked at when the call is over, but only when the timer fires. */
  lemma PostedIsOvertaken<T>(c: Client<T>, first: Msg<T>, second: Msg<T>)
    requires c.stack == [] && c.messages == [] && c.currentKey == 0 && c.acceptCalls
    requires c.key != 0 && c.key != first.key && IsRequest(first.opcode) && IsRequest(second.opcode)
    requires first.sender != "" && second.sender == first.sender && second.key == first.key && second != first
    ensures var waiting := Arrive(BeginCall(c), first);
            && Possible(waiting, CallEnds)
            && Overtakes(EndCall(waiting), Arrival(second), first.sender)
            && Arrive(EndCall(waiting), second).messages == [first]
            && Arrive(EndCall(waiting), second).handled == c.handled + [second]
  {
    assert first in EndCall(Arrive(BeginCall(c), first)).messages;
  }

  // ------------------------------------------------- going through the queue

  /** Handling a message that was taken out of the queue from beginning to end. */
  function CompleteMsg<T>(c: Client<T>, m: Msg<T>): Client<T> {
    if Refuses(c, m) then
      c.(refused := c.refused + [m], settled := c.settled + [m], answers := c.answers + Declining(m))
    else Leave(Enter(c, m), Reply)
  }

  predicate Pointing<T>(c: Client<T>) {
    c.iterators != [] && 0 <= At(c) < |c.messages|
  }

  /** The innermost loop takes up the message it stands on, and handles it from beginning to end. */
  function Complete<T>(c: Client<T>): (c1: Client<T>)
    requires Pointing(c)
    ensures c1.messages == Take(c.messages, At(c)) && c1.timer == c.timer
    ensures c1.iterators == TakeOut(c, At(c)).iterators
  {
    CompleteMsg(TakeOut(c, At(c)), c.messages[At(c)])
  }

  function CompleteEvents<T>(c: Client<T>): seq<Event<T>>
    requires Pointing(c)
  {
    if Refuses(c, c.messages[At(c)]) then [Posted(At(c))] else [Posted(At(c)), Handled(Reply)]
  }

  /** How far the innermost loop has come in the queue. */
  function Place<T>(c: Client<T>): (p: nat)
    ensures p <= |c.messages|
  {
    if Pointing(c) then At(c) else |c.messages|
  }

  /** What the innermost loop has still before it. */
  function Ahead<T>(c: Client<T>): nat {
    |c.messages| - Place(c)
  }

  lemma TurnShortens<T>(c: Client<T>)
    requires Pointing(c)
    ensures Place(Pass(c)) == At(c) + 1 && Place(Complete(c)) == At(c)
    ensures Ahead(Pass(c)) < Ahead(c) && Ahead(Complete(c)) < Ahead(c)
  {
    var its := Advanced(c.iterators, |c.messages|);
    ShiftedAt(its, |its| - 1, At(c), |c.messages| - 1);
  }

  /** The innermost loop to its end, with handlers that bring in nothing further. */
  function Sweep<T>(c: Client<T>): (d: Client<T>)
    ensures d.timer == c.timer && |d.iterators| == |c.iterators|
    decreases Ahead(c)
  {
    if !Pointing(c) then c
    else
      TurnShortens(c);
      if Foreign(c, c.messages[At(c)]) then Sweep(Pass(c)) else Sweep(Complete(c))
  }

  /** The messages that a client working under `key` may handle, and the others. */
  function Due<T>(ms: seq<Msg<T>>, key: CARD32): seq<Msg<T>> {
    if ms == [] then []
    else (if key == 0 || ms[0].key == key then [ms[0]] else []) + Due(ms[1..], key)
  }

  function Kept<T>(ms: seq<Msg<T>>, key: CARD32): seq<Msg<T>> {
    if ms == [] then []
    else (if key == 0 || ms[0].key == key then [] else [ms[0]]) + Kept(ms[1..], key)
  }

  function Replies<T>(ms: seq<Msg<T>>, reply: Opcode): seq<Answer> {
    if ms == [] then []
    else (if ms[0].opcode == Send then [] else [Answer(reply, ms[0].key, ms[0].sender)]) + Replies(ms[1..], reply)
  }

  /** `due` was taken up, and `kept` is left. */
  function Swept<T>(c: Client<T>, kept: seq<Msg<T>>, due: seq<Msg<T>>): Client<T> {
    if c.acceptCalls then
      c.(messages := kept, handled := c.handled + due, settled := c.settled + due,
         answers := c.answers + Replies(due, Reply))
    else
      c.(messages := kept, refused := c.refused + due, settled := c.settled + due,
         answers := c.answers + Replies(due, ReplyFailed))
  }

  /** The same, wherever the iterators are. */
  ghost predicate SameBut<T>(c: Client<T>, d: Client<T>) {
    c == d.(iterators := c.iterators)
  }

  lemma {:induction false} RepliesConcat<T>(a: seq<Msg<T>>, b: seq<Msg<T>>, reply: Opcode)
    ensures Replies(a + b, reply) == Replies(a, reply) + Replies(b, reply)
    decreases |a|
  {
    if a == [] {
      assert a + b == b;
    } else {
      assert (a + b)[1..] == a[1..] + b;
      RepliesConcat(a[1..], b, reply);
    }
  }

  lemma SweptTwice<T>(c: Client<T>, kept1: seq<Msg<T>>, due1: seq<Msg<T>>, kept2: seq<Msg<T>>, due2: seq<Msg<T>>)
    ensures Swept(Swept(c, kept1, due1), kept2, due2) == Swept(c, kept2, due1 + due2)
  {
    assert c.handled + due1 + due2 == c.handled + (due1 + due2);
    assert c.refused + due1 + due2 == c.refused + (due1 + due2);
    assert c.settled + due1 + due2 == c.settled + (due1 + due2);
    var reply := if c.acceptCalls then Reply else ReplyFailed;
    RepliesConcat(due1, due2, reply);
    assert c.answers + Replies(due1, reply) + Replies(due2, reply)
        == c.answers + (Replies(due1, reply) + Replies(due2, reply));
  }

  lemma CompleteIs<T>(c: Client<T>)
    requires Pointing(c) && c.messages[At(c)].sender != "" && IsRequest(c.messages[At(c)].opcode)
    ensures SameBut(Complete(c), Swept(c, Take(c.messages, At(c)), [c.messages[At(c)]]))
  {
    var m := c.messages[At(c)];
    assert (c.stack + [Handling(c.currentKey, m)])[..|c.stack|] == c.stack;
    RepliesOne(m, Reply);
    RepliesOne(m, ReplyFailed);
    assert c.answers + [] == c.answers;
  }

  lemma RepliesOne<T>(m: Msg<T>, reply: Opcode)
    ensures Replies([m], reply) == if m.opcode == Send then [] else [Answer(reply, m.key, m.sender)]
  {
    assert [m][1..] == [];
  }

  /** What the innermost loop comes to from where it stands. */
  ghost predicate SweepsTo<T>(c: Client<T>) {
    var it := Place(c);
    var rest := c.messages[it..];
    SameBut(Sweep(c), Swept(c, c.messages[..it] + Kept(rest, c.currentKey), Due(rest, c.currentKey)))
  }

  lemma SweepEnds<T>(c: Client<T>)
    requires !Pointing(c)
    ensures SweepsTo(c)
  {
    var none := c.messages[Place(c)..];
    assert none == [];
    SweptNothing(c, none);
    assert c.messages[..Place(c)] + none == c.messages;
  }

  lemma SweptNothing<T>(c: Client<T>, none: seq<Msg<T>>)
    requires none == []
    ensures Swept(c, c.messages, none) == c && Kept(none, c.currentKey) == none && Due(none, c.currentKey) == none
  {
    assert c.handled + none == c.handled && c.refused + none == c.refused && c.settled + none == c.settled;
    assert c.answers + [] == c.answers;
  }

  lemma DueNext<T>(ms: seq<Msg<T>>, it: nat, key: CARD32)
    requires it < |ms|
    ensures key == 0 || ms[it].key == key ==>
              Due(ms[it..], key) == [ms[it]] + Due(ms[it + 1..], key) && Kept(ms[it..], key) == Kept(ms[it + 1..], key)
    ensures !(key == 0 || ms[it].key == key) ==>
              Due(ms[it..], key) == Due(ms[it + 1..], key) && Kept(ms[it..], key) == [ms[it]] + Kept(ms[it + 1..], key)
  {
    assert ms[it..][1..] == ms[it + 1..];
  }

  lemma SweepSkips<T>(c: Client<T>)
    requires Pointing(c) && Foreign(c, c.messages[At(c)]) && SweepsTo(Pass(c))
    ensures SweepsTo(c)
  {
    var it := At(c);
    TurnShortens(c);
    DueNext(c.messages, it, c.currentKey);
    KeptNext(c.messages, it, Kept(c.messages[it + 1..], c.currentKey));
  }

  lemma SweepTakes<T>(c: Client<T>)
    requires Pointing(c) && !Foreign(c, c.messages[At(c)]) && SweepsTo(Complete(c))
    requires c.messages[At(c)].sender != "" && IsRequest(c.messages[At(c)].opcode)
    ensures SweepsTo(c)
  {
    var ms, key, it := c.messages, c.currentKey, At(c);
    var kept, due := Kept(ms[it + 1..], key), Due(ms[it + 1..], key);
    TurnShortens(c);
    DueNext(ms, it, key);
    CompleteIs(c);
    TakeSplits(ms, it);
    SweptTwice(c, Take(ms, it), [ms[it]], ms[..it] + kept, due);
    SweptSame(Complete(c), Swept(c, Take(ms, it), [ms[it]]), ms[..it] + kept, due);
  }

  lemma SweptSame<T>(c: Client<T>, d: Client<T>, kept: seq<Msg<T>>, due: seq<Msg<T>>)
    requires SameBut(c, d)
    ensures SameBut(Swept(c, kept, due), Swept(d, kept, due))
  {
  }

  /** Going through the queue handles exactly the messages of the current key, in
      their order, and leaves the others in theirs; no key changes. */
  lemma {:induction false} SweepIs<T>(c: Client<T>)
    requires Queueable(c.messages)
    ensures SweepsTo(c)
    decreases Ahead(c)
  {
    if !Pointing(c) {
      SweepEnds(c);
    } else {
      TurnShortens(c);
      assert c.messages[At(c)] in c.messages;
      if Foreign(c, c.messages[At(c)]) {
        SweepIs(Pass(c));
        SweepSkips(c);
      } else {
        TakeKeepsQueueable(c.messages, At(c));
        SweepIs(Complete(c));
        SweepTakes(c);
      }
    }
  }

  lemma {:induction false} AllDue<T>(ms: seq<Msg<T>>)
    ensures Due(ms, 0) == ms && Kept(ms, 0) == []
  {
    if ms != [] {
      AllDue(ms[1..]);
    }
  }

  /** When the timer fires while the client does nothing, every queued message is taken up, in
      the order of the queue, and answered if it has to be. */
  lemma IdleTimerDrains<T>(c: Client<T>)
    requires Inv(c) && c.stack == [] && c.timer
    ensures var d := EndLoop(Sweep(BeginLoop(c)));
            && d.messages == [] && d.settled == c.settled + c.messages && !d.timer
            && d.answers == c.answers + Replies(c.messages, if c.acceptCalls then Reply else ReplyFailed)
  {
    var begun := BeginLoop(c);
    SweepIs(begun);
    assert Place(begun) == 0 && begun.messages[0..] == c.messages;
    assert begun.messages[..0] + [] == [];
    AllDue(c.messages);
  }

  lemma TakeSplits<T>(ms: seq<Msg<T>>, i: nat)
    requires i < |ms|
    ensures Take(ms, i)[..i] == ms[..i] && Take(ms, i)[i..] == ms[i + 1..]
  {
  }

  lemma KeptNext<T>(ms: seq<Msg<T>>, it: nat, more: seq<Msg<T>>)
    requires it < |ms|
    ensures ms[..it + 1] + more == ms[..it] + ([ms[it]] + more)
  {
  }
}
