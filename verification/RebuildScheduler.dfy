/** kded's scheduler for rebuilding the system configuration cache: requests are
    collected, a timer starts a build, and the build answers the requests that were
    there when it began. */
module RebuildScheduler {
  import opened Options

  /** A transaction of the DCOP client that will be ended with the answer. */
  type Txn = nat

  /** An entry of the queue, without a transaction if nobody waits for an answer;
      `since` is the number of builds that had begun when it came in. */
  datatype Request = Request(txn: Option<Txn>, since: nat)

  /** A transaction that was ended, by the build with the number `build`. */
  datatype Ending = Ending(txn: Txn, since: nat, build: nat)

  /** `running` are the builds under way; `begun`, `arrived` and `ended` record the
      history. `updates` is the setting whether directories are watched at all. */
  datatype State = State(
    requests: seq<Request>,
    count: nat,
    busy: bool,
    armed: bool,
    needDelayedCheck: bool,
    updates: bool,
    watching: bool,
    running: set<nat>,
    begun: nat,
    arrived: seq<Txn>,
    ended: seq<Ending>)

  // ------------------------------------------------------------------ steps

  function TxnOf(txn: Option<Txn>): seq<Txn> {
    if txn.Some? then [txn.value] else []
  }

  /** Somebody asks for a rebuild. */
  function Process(s: State, txn: Option<Txn>): State {
    var first := !s.busy && s.requests == [];
    s.(armed := s.armed || first,
       count := if s.busy then s.count else if first then 1 else s.count + 1,
       requests := s.requests + [Request(txn, s.begun)],
       arrived := s.arrived + TxnOf(txn))
  }

  /** A watched directory changed. */
  function Update(s: State): State {
    if s.busy then s.(requests := s.requests + [Request(None, s.begun)]) else s.(armed := true)
  }

  /** recreate: a build begins, and directories are watched from now on. */
  function Begin(s: State): State {
    s.(busy := true, watching := s.updates, running := s.running + {s.begun + 1}, begun := s.begun + 1)
  }

  /** The timer fires, once. */
  function Timeout(s: State): State {
    Begin(s.(armed := false))
  }

  /** The delayed check, which looks neither at the timer nor at a running build. */
  function DelayedCheck(s: State): State {
    (if s.needDelayedCheck then Begin(s) else s).(needDelayedCheck := false)
  }

  function Endings(rs: seq<Request>, build: nat): seq<Ending> {
    if rs == [] then []
    else (if rs[0].txn.Some? then [Ending(rs[0].txn.value, rs[0].since, build)] else []) + Endings(rs[1..], build)
  }

  /** A build is over. */
  function Done(s: State, build: nat): State
    requires s.count <= |s.requests|
  {
    var rest := s.requests[s.count..];
    s.(requests := rest,
       ended := s.ended + Endings(s.requests[..s.count], build),
       busy := false,
       running := s.running - {build},
       armed := s.armed || rest != [],
       count := |rest|)
  }

  // ---------------------------------------------------------------- runs

  datatype Event = Asked(txn: Option<Txn>) | Changed | TimerFired | DelayedCheckDue | BuildDone(build: nat)

  /** The first build runs when kded starts, before anything can come in; with the
      delayed check it leaves the directories to a later build. */
  function Start(delayed: bool, updates: bool): State {
    State([], 0, false, false, delayed, updates, updates && !delayed, {}, 1, [], [])
  }

  /** The delayed check is due once, if it was asked for. */
  predicate Possible(s: State, ev: Event) {
    match ev
    case Asked(_) => true
    case Changed => s.watching
    case TimerFired => s.armed
    case DelayedCheckDue => s.needDelayedCheck
    case BuildDone(build) => build in s.running && s.count <= |s.requests|
  }

  function Step(s: State, ev: Event): State
    requires Possible(s, ev)
  {
    match ev
    case Asked(txn) => Process(s, txn)
    case Changed => Update(s)
    case TimerFired => Timeout(s)
    case DelayedCheckDue => DelayedCheck(s)
    case BuildDone(build) => Done(s, build)
  }

  predicate GoodRun(s: State, evs: seq<Event>)
    decreases |evs|
  {
    evs == [] || (Possible(s, evs[0]) && GoodRun(Step(s, evs[0]), evs[1..]))
  }

  function Run(s: State, evs: seq<Event>): State
    requires GoodRun(s, evs)
    decreases |evs|
  {
    if evs == [] then s else Run(Step(s, evs[0]), evs[1..])
  }

  // ------------------------------------------------- what every run keeps

  function Txns(rs: seq<Request>): seq<Txn> {
    if rs == [] then [] else TxnOf(rs[0].txn) + Txns(rs[1..])
  }

  function EndedTxns(es: seq<Ending>): seq<Txn> {
    if es == [] then [] else [es[0].txn] + EndedTxns(es[1..])
  }

  /** What came in was ended, in its order, or is still in the queue. */
  predicate InOrder(s: State) {
    s.arrived == EndedTxns(s.ended) + Txns(s.requests)
  }

  /** The counter never runs past the queue, and who waits is not forgotten. */
  predicate Counted(s: State) {
    && s.count <= |s.requests|
    && (s.busy ==> s.running != {})
    && (!s.busy ==> s.count == |s.requests| && (s.requests != [] ==> s.armed))
    && (forall b <- s.running :: b <= s.begun)
  }

  predicate Sound(s: State) {
    Counted(s) && InOrder(s)
  }

  lemma {:induction false} TxnsConcat(a: seq<Request>, b: seq<Request>)
    ensures Txns(a + b) == Txns(a) + Txns(b)
    decreases |a|
  {
    if a == [] {
      assert a + b == b;
    } else {
      assert (a + b)[1..] == a[1..] + b;
      TxnsConcat(a[1..], b);
    }
  }

  lemma {:induction false} EndedConcat(a: seq<Ending>, b: seq<Ending>)
    ensures EndedTxns(a + b) == EndedTxns(a) + EndedTxns(b)
    decreases |a|
  {
    if a == [] {
      assert a + b == b;
    } else {
      assert (a + b)[1..] == a[1..] + b;
      EndedConcat(a[1..], b);
    }
  }

  lemma EndingsFirst(rs: seq<Request>, build: nat)
    requires rs != []
    ensures Endings(rs, build) == Endings([rs[0]], build) + Endings(rs[1..], build)
    ensures EndedTxns(Endings([rs[0]], build)) == TxnOf(rs[0].txn)
  {
    assert [rs[0]][1..] == [];
  }

  lemma {:induction false} EndingsAre(rs: seq<Request>, build: nat)
    ensures EndedTxns(Endings(rs, build)) == Txns(rs)
    ensures forall e <- Endings(rs, build) :: e.build == build && exists r <- rs :: r.since == e.since
    decreases |rs|
  {
    if rs != [] {
      EndingsAre(rs[1..], build);
      EndingsFirst(rs, build);
      EndedConcat(Endings([rs[0]], build), Endings(rs[1..], build));
      forall e <- Endings(rs, build) ensures e.build == build && exists r <- rs :: r.since == e.since {
        if e in Endings(rs[1..], build) {
          var r :| r in rs[1..] && r.since == e.since;
          assert r in rs;
        } else {
          assert rs[0] in rs && rs[0].since == e.since;
        }
      }
    }
  }

  lemma AppendKeepsOrder(s: State, r: Request)
    requires InOrder(s)
    ensures s.arrived + TxnOf(r.txn) == EndedTxns(s.ended) + Txns(s.requests + [r])
  {
    TxnsConcat(s.requests, [r]);
    assert Txns([r]) == TxnOf(r.txn);
  }

  lemma DoneKeepsOrder(s: State, build: nat)
    requires InOrder(s) && s.count <= |s.requests|
    ensures InOrder(Done(s, build))
  {
    var answered, rest := s.requests[..s.count], s.requests[s.count..];
    assert answered + rest == s.requests;
    TxnsConcat(answered, rest);
    EndingsAre(answered, build);
    EndedConcat(s.ended, Endings(answered, build));
  }

  lemma StepKeeps(s: State, ev: Event)
    requires Sound(s) && Possible(s, ev)
    ensures Sound(Step(s, ev))
  {
    match ev {
      case Asked(txn) => AppendKeepsOrder(s, Request(txn, s.begun));
      case Changed => AppendKeepsOrder(s, Request(None, s.begun));
      case TimerFired => assert s.begun + 1 in Step(s, ev).running;
      case DelayedCheckDue => assert s.begun + 1 in Step(s, ev).running;
      case BuildDone(build) => DoneKeepsOrder(s, build);
    }
  }

  lemma {:induction false} RunKeeps(s: State, evs: seq<Event>)
    requires Sound(s) && GoodRun(s, evs)
    ensures Sound(Run(s, evs))
    decreases |evs|
  {
    if evs != [] {
      StepKeeps(s, evs[0]);
      RunKeeps(Step(s, evs[0]), evs[1..]);
    }
  }

  /** However requests, changes, timers, builds and a delayed check follow each other:
      transactions are ended once each and in the order they came in, and no request is
      forgotten, since a queue that is not empty always has a build running or a timer
      armed. */
  lemma AnsweredInOrder(delayed: bool, updates: bool, evs: seq<Event>)
    requires GoodRun(Start(delayed, updates), evs)
    ensures var s := Run(Start(delayed, updates), evs);
            && s.arrived == EndedTxns(s.ended) + Txns(s.requests)
            && (s.requests != [] ==> s.running != {} || s.armed)
            && Counted(s)
  {
    RunKeeps(Start(delayed, updates), evs);
  }

  // ---------------------------------------------------- one build at a time

  /** Every transaction was ended by a build that began after it came in. */
  predicate InTime(s: State) {
    forall e <- s.ended :: e.since < e.build
  }

  /** One build at a time; what it will answer came in before it began and after the
      one before it began. */
  predicate Single(s: State) {
    && s.begun >= 1
    && s.running == (if s.busy then {s.begun} else {})
    && (s.busy ==> !s.armed)
    && (forall i :: 0 <= i < |s.requests| ==>
          s.requests[i].since == if s.busy && i < s.count then s.begun - 1 else s.begun)
    && (forall e <- s.ended :: e.build == e.since + 1)
  }

  predicate Inv(s: State) {
    Sound(s) && Single(s)
  }

  predicate Idle(s: State) {
    !s.busy && !s.armed
  }

  lemma DoneKeepsSingle(s: State, build: nat)
    requires Inv(s) && build in s.running
    ensures Single(Done(s, build))
  {
    var answered := s.requests[..s.count];
    EndingsAre(answered, build);
    assert s.running - {build} == {};
    forall e <- Done(s, build).ended ensures e.build == e.since + 1 {
      if e !in s.ended {
        var r :| r in answered && r.since == e.since;
      }
    }
  }

  lemma StepKeepsSingle(s: State, ev: Event)
    requires Inv(s) && Possible(s, ev) && (ev.DelayedCheckDue? ==> Idle(s))
    ensures Inv(Step(s, ev))
  {
    StepKeeps(s, ev);
    if ev.BuildDone? {
      DoneKeepsSingle(s, ev.build);
    }
  }

  /** The delayed check comes, if at all, when neither a build runs nor the timer is armed. */
  predicate CheckedIdle(s: State, evs: seq<Event>)
    requires GoodRun(s, evs)
    decreases |evs|
  {
    evs == [] || ((evs[0].DelayedCheckDue? ==> Idle(s)) && CheckedIdle(Step(s, evs[0]), evs[1..]))
  }

  lemma {:induction false} RunKeepsSingle(s: State, evs: seq<Event>)
    requires Inv(s) && GoodRun(s, evs) && CheckedIdle(s, evs)
    ensures Inv(Run(s, evs))
    decreases |evs|
  {
    if evs != [] {
      StepKeepsSingle(s, evs[0]);
      RunKeepsSingle(Step(s, evs[0]), evs[1..]);
    }
  }

  /** With one build at a time each transaction is ended by the first build that began
      after it came in. */
  lemma AnsweredInTime(delayed: bool, updates: bool, evs: seq<Event>)
    requires GoodRun(Start(delayed, updates), evs) && CheckedIdle(Start(delayed, updates), evs)
    ensures var s := Run(Start(delayed, updates), evs);
            InTime(s) && forall e <- s.ended :: e.build == e.since + 1
  {
    RunKeepsSingle(Start(delayed, updates), evs);
  }

  // ------------------------------------------------- changes and builds

  /** A build has begun since there were `n` of them, or will: the timer is armed, or the build
      that runs will arm it when it is over, since there is more in the queue than it answers. */
  predicate Seen(s: State, n: nat) {
    s.begun > n || s.armed || (s.busy && |s.requests| > s.count)
  }

  lemma StepSees(s: State, ev: Event, n: nat)
    requires Sound(s) && Possible(s, ev) && Seen(s, n) && s.begun >= n
    ensures Seen(Step(s, ev), n) && Step(s, ev).begun >= n
  {
    match ev
    case Asked(_) =>
    case Changed =>
    case TimerFired =>
    case DelayedCheckDue =>
    case BuildDone(build) =>
      if s.busy && |s.requests| > s.count {
        assert |s.requests[s.count..]| > 0;
      }
  }

  lemma {:induction false} SeenStays(s: State, evs: seq<Event>, n: nat)
    requires Sound(s) && GoodRun(s, evs) && Seen(s, n) && s.begun >= n
    ensures Seen(Run(s, evs), n) && Sound(Run(s, evs))
    decreases |evs|
  {
    if evs != [] {
      StepKeeps(s, evs[0]);
      StepSees(s, evs[0], n);
      SeenStays(Step(s, evs[0]), evs[1..], n);
    }
  }

  /** No change of a directory is forgotten: however things go on after it, a build has begun
      since, or the timer is armed, or a build runs that leaves something in the queue. In
      particular, when nothing runs and no timer is armed, a build has begun since. */
  lemma NoChangeIsForgotten(delayed: bool, updates: bool, evs: seq<Event>, more: seq<Event>)
    requires GoodRun(Start(delayed, updates), evs)
    requires var s := Run(Start(delayed, updates), evs); Possible(s, Changed) && GoodRun(Step(s, Changed), more)
    ensures var s := Run(Start(delayed, updates), evs);
            var t := Run(Step(s, Changed), more);
            && (t.begun > s.begun || t.armed || (t.running != {} && |t.requests| > t.count))
            && (t.running == {} && !t.armed ==> t.begun > s.begun)
  {
    RunKeeps(Start(delayed, updates), evs);
    var s := Run(Start(delayed, updates), evs);
    StepKeeps(s, Changed);
    SeenStays(Step(s, Changed), more, s.begun);
  }

  predicate Begins(ev: Event) {
    ev == TimerFired || ev == DelayedCheckDue
  }

  function Beginnings(evs: seq<Event>): nat {
    if evs == [] then 0 else (if Begins(evs[0]) then 1 else 0) + Beginnings(evs[1..])
  }

  lemma {:induction false} BuildsFrom(s: State, evs: seq<Event>, delayed: bool)
    requires GoodRun(s, evs) && s.begun >= 1 && (s.watching <==> s.updates && (s.begun > 1 || !delayed))
    ensures var t := Run(s, evs);
            && t.begun == s.begun + Beginnings(evs) && t.updates == s.updates
            && (t.watching <==> t.updates && (t.begun > 1 || !delayed))
    decreases |evs|
  {
    if evs != [] {
      BuildsFrom(Step(s, evs[0]), evs[1..], delayed);
    }
  }

  /** Builds begin when the timer fires or the delayed check is due, and at no other time; and
      directories are watched, if at all, from the first build on that does not leave it to a
      later one. */
  lemma BuildsAreCounted(delayed: bool, updates: bool, evs: seq<Event>)
    requires GoodRun(Start(delayed, updates), evs)
    ensures var s := Run(Start(delayed, updates), evs);
            && s.begun == 1 + Beginnings(evs)
            && (s.watching <==> updates && (!delayed || Beginnings(evs) > 0))
  {
    BuildsFrom(Start(delayed, updates), evs, delayed);
  }

  // ------------------------------------------------------ the delayed check

  predicate NoCheck(evs: seq<Event>) {
    DelayedCheckDue !in evs
  }

  lemma {:induction false} CheckedOnce(s: State, evs: seq<Event>)
    requires GoodRun(s, evs) && !s.needDelayedCheck
    ensures CheckedIdle(s, evs)
    decreases |evs|
  {
    if evs != [] {
      CheckedOnce(Step(s, evs[0]), evs[1..]);
    }
  }

  /** A state that no continuation answers a request too early from. */
  ghost predicate Safe(s: State) {
    forall evs: seq<Event> :: GoodRun(s, evs) ==> InTime(Run(s, evs))
  }

  /** Two builds run, and the older one was there first: a request that comes in now is
      ended by the newer one, although that began before. */
  lemma TwoBuildsAnswerTooEarly(s: State, older: nat, txn: Txn)
    requires Sound(s) && s.busy && older != s.begun && older in s.running && s.begun in s.running
    ensures var evs := [Asked(Some(txn)), BuildDone(older), BuildDone(s.begun)];
            GoodRun(s, evs) && !InTime(Run(s, evs))
  {
    SecondBuildAnswers(s, older, txn);
    RunThree(s, [Asked(Some(txn)), BuildDone(older), BuildDone(s.begun)]);
  }

  lemma SecondBuildAnswers(s: State, older: nat, txn: Txn)
    requires Sound(s) && s.busy && older != s.begun && older in s.running && s.begun in s.running
    ensures var s1 := Process(s, Some(txn));
            Possible(s1, BuildDone(older)) &&
            var s2 := Done(s1, older);
            Possible(s2, BuildDone(s.begun)) && Ending(txn, s.begun, s.begun) in Done(s2, s.begun).ended
  {
    var s1 := Process(s, Some(txn));
    StepKeeps(s, Asked(Some(txn)));
    StepKeeps(s1, BuildDone(older));
    var s2 := Done(s1, older);
    assert s2.requests[|s2.requests| - 1] == Request(Some(txn), s.begun);
    EndedLast(s2.requests, s.begun);
    assert s2.requests[..s2.count] == s2.requests;
  }

  lemma RunThree(s: State, evs: seq<Event>)
    requires |evs| == 3 && Possible(s, evs[0])
    requires Possible(Step(s, evs[0]), evs[1]) && Possible(Step(Step(s, evs[0]), evs[1]), evs[2])
    ensures GoodRun(s, evs) && Run(s, evs) == Step(Step(Step(s, evs[0]), evs[1]), evs[2])
  {
    var s1 := Step(s, evs[0]);
    var s2 := Step(s1, evs[1]);
    var s3 := Step(s2, evs[2]);
    var evs1, evs2, evs3 := evs[1..], evs[1..][1..], evs[1..][1..][1..];
    assert GoodRun(s3, evs3) && Run(s3, evs3) == s3;
    assert GoodRun(s2, evs2) && Run(s2, evs2) == s3;
    assert GoodRun(s1, evs1) && Run(s1, evs1) == s3;
  }

  lemma {:induction false} EndedLast(rs: seq<Request>, build: nat)
    requires rs != [] && rs[|rs| - 1].txn.Some?
    ensures Ending(rs[|rs| - 1].txn.value, rs[|rs| - 1].since, build) in Endings(rs, build)
    decreases |rs|
  {
    if |rs| > 1 {
      EndedLast(rs[1..], build);
    }
  }

  lemma CheckSafeExactly(s: State)
    requires Inv(s) && s.needDelayedCheck
    ensures Safe(DelayedCheck(s)) <==> Idle(s)
  {
    var t := DelayedCheck(s);
    StepKeeps(s, DelayedCheckDue);
    if Idle(s) {
      StepKeepsSingle(s, DelayedCheckDue);
      forall evs: seq<Event> | GoodRun(t, evs) ensures InTime(Run(t, evs)) {
        CheckedOnce(t, evs);
        RunKeepsSingle(t, evs);
      }
    } else if s.busy {
      TwoBuildsAnswerTooEarly(t, s.begun, 0);
    } else {
      var u := Timeout(t);
      StepKeeps(t, TimerFired);
      TwoBuildsAnswerTooEarly(u, t.begun, 0);
      var evs := [Asked(Some(0)), BuildDone(t.begun), BuildDone(u.begun)];
      var all := [TimerFired] + evs;
      assert all[1..] == evs;
      assert GoodRun(t, all) && Run(t, all) == Run(u, evs);
    }
  }

  lemma {:induction false} StillDue(s: State, evs: seq<Event>)
    requires GoodRun(s, evs) && NoCheck(evs)
    ensures CheckedIdle(s, evs) && Run(s, evs).needDelayedCheck == s.needDelayedCheck
    decreases |evs|
  {
    if evs != [] {
      assert evs[0] in evs;
      StillDue(Step(s, evs[0]), evs[1..]);
    }
  }

  /** Whatever happened before, the delayed check is safe, however things go on, exactly
      when it comes while no build runs and the timer is not armed. */
  lemma DelayedCheckSafeExactly(updates: bool, evs: seq<Event>)
    requires GoodRun(Start(true, updates), evs) && NoCheck(evs)
    ensures var s := Run(Start(true, updates), evs); Safe(DelayedCheck(s)) <==> Idle(s)
  {
    StillDue(Start(true, updates), evs);
    RunKeepsSingle(Start(true, updates), evs);
    CheckSafeExactly(Run(Start(true, updates), evs));
  }

  /** One such run: a request starts the timer, the delayed check comes before it fires,
      and the second request is ended by the build that began before it came in. */
  lemma DelayedCheckAnswersTooEarly(updates: bool, first: Txn, second: Txn)
    ensures var evs := [Asked(Some(first)), DelayedCheckDue, TimerFired];
            GoodRun(Start(true, updates), evs) &&
            var s := Run(Start(true, updates), evs);
            var more := [Asked(Some(second)), BuildDone(2), BuildDone(3)];
            GoodRun(s, more) && Ending(second, 3, 3) in Run(s, more).ended
  {
    var start := Start(true, updates);
    var evs := [Asked(Some(first)), DelayedCheckDue, TimerFired];
    RunThree(start, evs);
    var s := Run(start, evs);
    var more := [Asked(Some(second)), BuildDone(2), BuildDone(3)];
    RunThree(s, more);
    var s1 := Process(s, Some(second));
    assert s1.requests == [Request(Some(first), 1), Request(Some(second), 3)] && s1.count == 1;
    var s2 := Done(s1, 2);
    assert s2.requests == [Request(Some(second), 3)] && s2.count == 1;
    EndedLast(s2.requests, 3);
    assert s2.requests[..1] == s2.requests;
  }

  // ---------------------------------------------------------------- the object

  ghost function Zip(txns: seq<Option<Txn>>, since: seq<nat>): (rs: seq<Request>)
    requires |txns| == |since|
    ensures |rs| == |txns|
  {
    if txns == [] then [] else [Request(txns[0], since[0])] + Zip(txns[1..], since[1..])
  }

  lemma {:induction false} ZipSnoc(txns: seq<Option<Txn>>, since: seq<nat>, txn: Option<Txn>, n: nat)
    requires |txns| == |since|
    ensures Zip(txns + [txn], since + [n]) == Zip(txns, since) + [Request(txn, n)]
    decreases |txns|
  {
    if txns != [] {
      assert (txns + [txn])[1..] == txns[1..] + [txn] && (since + [n])[1..] == since[1..] + [n];
      ZipSnoc(txns[1..], since[1..], txn, n);
    }
  }

  class Kded {
    var recreateRequests: seq<Option<Txn>>
    var recreateCount: nat
    var recreateBusy: bool
    var timerActive: bool
    var needDelayedCheck: bool
    const checkUpdates: bool
    var watching: bool
    ghost var since: seq<nat>
    ghost var running: set<nat>
    ghost var begun: nat
    ghost var arrived: seq<Txn>
    ghost var ended: seq<Ending>

    ghost predicate Valid()
      reads this
    {
      |since| == |recreateRequests| && Sound(View())
    }

    ghost function View(): State
      reads this
      requires |since| == |recreateRequests|
    {
      State(Zip(recreateRequests, since), recreateCount, recreateBusy, timerActive, needDelayedCheck,
            checkUpdates, watching, running, begun, arrived, ended)
    }

    /** After the first build. */
    constructor (delayed: bool, updates: bool)
      ensures Valid() && View() == Start(delayed, updates)
    {
      recreateRequests, recreateCount, recreateBusy, timerActive := [], 0, false, false;
      needDelayedCheck, checkUpdates, watching := delayed, updates, updates && !delayed;
      since, running, begun, arrived, ended := [], {}, 1, [], [];
    }

    method RequestRecreate(txn: Option<Txn>)
      requires Valid()
      modifies this
      ensures Valid() && View() == Process(old(View()), txn)
    {
      StepKeeps(View(), Asked(txn));
      if !recreateBusy {
        if recreateRequests == [] {
          timerActive := true;
          recreateCount := 0;
        }
        recreateCount := recreateCount + 1;
      }
      ZipSnoc(recreateRequests, since, txn, begun);
      recreateRequests := recreateRequests + [txn];
      since := since + [begun];
      arrived := arrived + TxnOf(txn);
    }

    method DirChanged()
      requires Valid() && watching
      modifies this
      ensures Valid() && View() == Update(old(View()))
    {
      StepKeeps(View(), Changed);
      if !recreateBusy {
        timerActive := true;
      } else {
        ZipSnoc(recreateRequests, since, None, begun);
        recreateRequests := recreateRequests + [None];
        since := since + [begun];
      }
    }

    /** recreate(false). */
    method Recreate()
      requires |since| == |recreateRequests|
      modifies `recreateBusy, `watching, `running, `begun
      ensures View() == Begin(old(View()))
    {
      recreateBusy := true;
      watching := checkUpdates;
      begun := begun + 1;
      running := running + {begun};
    }

    method SlotTimeout()
      requires Valid() && timerActive
      modifies this
      ensures Valid() && View() == Timeout(old(View()))
    {
      StepKeeps(View(), TimerFired);
      timerActive := false;
      Recreate();
    }

    method RunDelayedCheck()
      requires Valid()
      modifies this
      ensures Valid() && View() == DelayedCheck(old(View()))
    {
      if needDelayedCheck {
        StepKeeps(View(), DelayedCheckDue);
        Recreate();
      }
      needDelayedCheck := false;
    }

    /** The first request of the queue is answered. */
    method EndFirst(ghost build: nat)
      requires recreateRequests != [] && |since| == |recreateRequests|
      modifies `recreateRequests, `since, `ended
      ensures |since| == |recreateRequests|
      ensures Zip(recreateRequests, since) == Zip(old(recreateRequests), old(since))[1..]
      ensures ended == old(ended) + Endings([Zip(old(recreateRequests), old(since))[0]], build)
    {
      var transaction := recreateRequests[0];
      if transaction.Some? {
        ended := ended + [Ending(transaction.value, since[0], build)];
      }
      recreateRequests := recreateRequests[1..];
      since := since[1..];
    }

    method RecreateDone(ghost build: nat)
      requires Valid() && build in running
      modifies this
      ensures Valid() && View() == Done(old(View()), build)
    {
      StepKeeps(View(), BuildDone(build));
      AnswerAndRearm(build);
    }

    method AnswerAndRearm(ghost build: nat)
      requires |since| == |recreateRequests| && recreateCount <= |recreateRequests|
      modifies this
      ensures |since| == |recreateRequests| && View() == Done(old(View()), build)
    {
      DrainRequests(build);
      Rearm(build);
    }

    /** Requests that are left were not counted when the build began, and are due for the next one. */
    method Rearm(ghost build: nat)
      requires |since| == |recreateRequests| && recreateCount == 0
      modifies `recreateBusy, `running, `timerActive, `recreateCount
      ensures var was := old(View());
              View() == was.(busy := false, running := was.running - {build}, armed := was.armed || was.requests != [],
                             count := |was.requests|)
    {
      recreateBusy := false;
      running := running - {build};
      if recreateRequests != [] {
        timerActive := true;
        recreateCount := |recreateRequests|;
      }
    }

    /** The loop that answers the counted requests. */
    method DrainRequests(ghost build: nat)
      requires |since| == |recreateRequests| && recreateCount <= |recreateRequests|
      modifies `recreateRequests, `recreateCount, `since, `ended
      ensures |since| == |recreateRequests| && recreateCount == 0
      ensures Zip(recreateRequests, since) == Done(old(View()), build).requests
              && ended == Done(old(View()), build).ended
    {
      ghost var was := View();
      ghost var n := 0;
      while recreateCount != 0
        invariant |since| == |recreateRequests| && n + recreateCount == was.count
        invariant Answering(was, build, n, Zip(recreateRequests, since), ended)
        decreases recreateCount
      {
        AnswerNext(was, build, n, Zip(recreateRequests, since), ended);
        EndFirst(build);
        n := n + 1;
        recreateCount := recreateCount - 1;
      }
      AllAnswered(was, build, Zip(recreateRequests, since), ended);
    }
  }

  /** The first n requests that are due have been answered. */
  ghost predicate Answering(was: State, build: nat, n: nat, requests: seq<Request>, ended: seq<Ending>) {
    && n <= was.count <= |was.requests|
    && requests == was.requests[n..]
    && ended + Endings(was.requests[n..was.count], build) == was.ended + Endings(was.requests[..was.count], build)
  }

  lemma AnswerNext(was: State, build: nat, n: nat, requests: seq<Request>, ended: seq<Ending>)
    requires Answering(was, build, n, requests, ended) && n < was.count
    ensures requests != []
    ensures Answering(was, build, n + 1, requests[1..], ended + Endings([requests[0]], build))
  {
    var due := was.requests[n..was.count];
    EndingsFirst(due, build);
    assert due[1..] == was.requests[n + 1..was.count];
    assert ended + (Endings([due[0]], build) + Endings(due[1..], build))
        == (ended + Endings([due[0]], build)) + Endings(due[1..], build);
  }

  lemma AllAnswered(was: State, build: nat, requests: seq<Request>, ended: seq<Ending>)
    requires Answering(was, build, was.count, requests, ended)
    ensures requests == Done(was, build).requests && ended == Done(was, build).ended
  {
    assert ended + [] == ended;
  }
}
