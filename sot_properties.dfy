/** What the perspective-taking test's sequencer promises about its log, its
    countdown and its key handling, and the consequences of the races between the
    countdown, the 2 s dwell and a handler left attached after a timeout. */
module SotProperties {
  import opened JsMath
  import opened Geometry
  import opened SotCatalog
  import opened SotSession
  import opened SotInvariant

  /** The seconds between the test's start and the latest event. */
  function Elapsed(s: State): real
  {
    ((s.clock - s.startTime) as real) / 1000.0
  }

  // ---------------------------------------------------------------------------
  // The log

  /** Record k of the log is trial k + 1 of the catalog, with that trial's
      objects, a correct angle in [0, 360) and its shortest-arc error, which lies
      in [0, 180]. */
  ghost predicate RecordsFollowCatalog(rs: seq<TrialResponse>)
  {
    forall k :: 0 <= k < |rs| ==>
      && k < |testTrials|
      && rs[k].trialId == Numbered(k + 1)
      && rs[k].standing == testTrials[k].standing
      && rs[k].facing == testTrials[k].facing
      && rs[k].pointing == testTrials[k].pointing
      && 0.0 <= rs[k].correctAngle < 360.0
      && rs[k].angularError == AngularError(rs[k].responseAngle, rs[k].correctAngle)
      && 0.0 <= rs[k].angularError <= 180.0
  }

  /** No trial is logged twice and the times never go down. */
  ghost predicate DistinctAndTimeOrdered(rs: seq<TrialResponse>)
  {
    forall i, j :: 0 <= i < j < |rs| ==>
      rs[i].trialId != rs[j].trialId && rs[i].responseTime <= rs[j].responseTime
  }

  /** Both averages of a non-empty log are numbers: the error in [0, 180], the
      time in [0, maxSeconds]. */
  ghost predicate AveragesInRange(rs: seq<TrialResponse>, maxSeconds: int)
  {
    rs != [] ==>
      && 0.0 <= Summarize(rs).averageAngularError.v <= 180.0
      && 0.0 <= Summarize(rs).averageResponseTime.v <= maxSeconds as real
  }

  /** A log that `Inv` accepts (`LogOk` of the responses and the milliseconds
      since the start) follows the catalog, with distinct ids and times that never
      go down, and the averages `finishTest` would compute are in range, the time
      bounded by the whole seconds elapsed plus one. */
  lemma LogFollowsCatalog(rs: seq<TrialResponse>, elapsedMs: int, env: Env)
    requires LogOk(rs, elapsedMs, env) && elapsedMs >= 0
    ensures |rs| <= |testTrials|
    ensures RecordsFollowCatalog(rs)
    ensures DistinctAndTimeOrdered(rs)
    ensures AveragesInRange(rs, elapsedMs / 1000 + 1)
  {
    LogRecordsFollowCatalog(rs, elapsedMs, env);
    LogOrdered(rs, elapsedMs, env);
    if rs != [] {
      LogAveragesBounded(rs, elapsedMs, env);
    }
  }

  lemma LogRecordsFollowCatalog(rs: seq<TrialResponse>, e: int, env: Env)
    requires LogOk(rs, e, env)
    ensures RecordsFollowCatalog(rs)
  {
    forall k | 0 <= k < |rs|
      ensures k < |testTrials|
      ensures rs[k].trialId == Numbered(k + 1)
      ensures rs[k].standing == testTrials[k].standing && rs[k].facing == testTrials[k].facing
      ensures rs[k].pointing == testTrials[k].pointing
      ensures 0.0 <= rs[k].correctAngle < 360.0
      ensures rs[k].angularError == AngularError(rs[k].responseAngle, rs[k].correctAngle)
      ensures 0.0 <= rs[k].angularError <= 180.0
    {
      RecordFacts(rs[k], k, env);
    }
  }

  lemma LogOrdered(rs: seq<TrialResponse>, e: int, env: Env)
    requires LogOk(rs, e, env)
    ensures DistinctAndTimeOrdered(rs)
  {
    forall i, j | 0 <= i < j < |rs| ensures rs[i].trialId != rs[j].trialId {
      RecordFacts(rs[i], i, env);
      RecordFacts(rs[j], j, env);
    }
  }

  lemma LogAveragesBounded(rs: seq<TrialResponse>, e: int, env: Env)
    requires LogOk(rs, e, env) && e >= 0 && rs != []
    ensures AveragesInRange(rs, e / 1000 + 1)
  {
    LogRecordsFollowCatalog(rs, e, env);
    WholeSecondsBound(rs, e);
    SummaryBounds(rs, e / 1000 + 1);
  }

  /** What a record that fits trial k says about itself. */
  lemma RecordFacts(r: TrialResponse, k: nat, env: Env)
    requires RecordFits(r, k, env)
    ensures r.trialId == Numbered(k + 1)
    ensures r.standing == testTrials[k].standing && r.facing == testTrials[k].facing
    ensures r.pointing == testTrials[k].pointing
    ensures 0.0 <= r.correctAngle < 360.0
    ensures r.angularError == AngularError(r.responseAngle, r.correctAngle)
    ensures 0.0 <= r.angularError <= 180.0
  {
    TestTrialsWellFormed();
  }

  /** Times within `e` milliseconds are within the whole seconds of `e` plus one. */
  lemma WholeSecondsBound(rs: seq<TrialResponse>, e: int)
    requires e >= 0
    requires forall k :: 0 <= k < |rs| ==> 0.0 <= rs[k].responseTime <= (e as real) / 1000.0
    ensures forall k :: 0 <= k < |rs| ==> 0.0 <= rs[k].responseTime <= (e / 1000 + 1) as real
  {
    assert e as real / 1000.0 <= (e / 1000 + 1) as real;
  }

  /** Once the trial index has passed the last test trial, all twelve trials are
      logged, in catalog order. */
  lemma CompletedTestLogsEveryTrial(s: State, env: Env)
    requires Inv(s, env) && s.timerStarted && s.currentTrial >= |testTrials|
    ensures |s.responses| == |testTrials|
    ensures forall k :: 0 <= k < |testTrials| ==> s.responses[k].trialId == Numbered(k + 1)
  {
    LogRecordsFollowCatalog(s.responses, s.clock - s.startTime, env);
  }

  // ---------------------------------------------------------------------------
  // The countdown

  /** `n` runs of `updateTimer` with nothing in between. */
  function Ticks(s: State, n: nat): State
    decreases n
  {
    if n == 0 then s else Ticks(TickStep(s), n - 1)
  }

  /** An active countdown goes down by one per tick, stays active while seconds
      remain, and finishes the test exactly once, on the tick that reaches 0. */
  lemma {:induction false} CountdownReachesZero(s: State, n: nat, env: Env)
    requires Inv(s, env) && s.timerActive && n <= s.timeRemaining
    ensures var t := Ticks(s, n);
      && t.timeRemaining == s.timeRemaining - n
      && (t.timerActive <==> n < s.timeRemaining)
      && t.responses == s.responses
      && |t.finishes| == |s.finishes| + (if n == s.timeRemaining then 1 else 0)
    decreases n
  {
    if n > 0 {
      TickPreservesInv(s, env);
      var s1 := TickStep(s);
      if s.timeRemaining > 1 {
        CountdownReachesZero(s1, n - 1, env);
      }
    }
  }

  /** A countdown that is not active stays where it is. */
  lemma {:induction false} StoppedCountdownStays(s: State, n: nat)
    requires !s.timerActive
    ensures Ticks(s, n) == s
    decreases n
  {
    if n > 0 {
      StoppedCountdownStays(TickStep(s), n - 1);
    }
  }

  // ---------------------------------------------------------------------------
  // Key handling

  /** No attached listener of the snapshot logs a response for this key. */
  ghost predicate Quiet(s: State, pending: seq<Listener>, key: Key)
  {
    key == Space || forall m :: m in pending && m in s.listeners ==> !m.handler.TestEnter?
  }

  /** A handler that does not submit a test trial leaves the log and the trial
      index alone, attaches only fresh listeners, and once the test has started
      leaves the finishes, the dwell, the dial and the start time alone and puts no
      canvas on a page that has none. */
  lemma HandlerKeepsLog(s: State, l: Listener, key: Key, env: Env)
    requires Inv(s, env) && l in s.listeners
    requires !(key == Enter && l.handler.TestEnter?)
    ensures HandlerArgsOk(l.handler)
    ensures var t := RunHandler(s, l, key, env);
      && t.responses == s.responses && t.currentTrial == s.currentTrial && t.clock == s.clock
      && (forall m :: m in t.listeners ==> m in s.listeners || m.id >= s.nextListenerId)
      && (s.timerStarted ==>
            && t.finishes == s.finishes && t.dwell == s.dwell && t.currentAngle == s.currentAngle
            && t.startTime == s.startTime && (!HasCanvas(s.screen) ==> !HasCanvas(t.screen)))
  {
    assert HandlerFits(l.handler, s.timerStarted, s.currentTrial, |s.responses|, s.dwell);
    WithoutMembers(s.listeners, l.id);
    match l.handler
    case SpaceToPractice =>
    case PracticeEnter(_) =>
    case TestIntroEnter =>
      if key == Enter {
        RemoveOnlyListener(s, l, env);
      }
    case TestEnter(_) =>
    case FinishKey =>
  }

  /** Dispatching a key no attached handler submits with leaves the log alone. */
  lemma {:induction false} DispatchKeepsLog(s: State, pending: seq<Listener>, key: Key, env: Env)
    requires Inv(s, env)
    requires forall m :: m in pending ==> HandlerArgsOk(m.handler) && m.id < s.nextListenerId
    requires Quiet(s, pending, key)
    ensures var t := Dispatch(s, pending, key, env);
      && t.responses == s.responses && t.currentTrial == s.currentTrial
      && (s.timerStarted ==> t.finishes == s.finishes && t.dwell == s.dwell)
    decreases |pending|
  {
    if pending != [] {
      var p := pending[0];
      if p in s.listeners {
        HandlerKeepsLog(s, p, key, env);
        RunHandlerPreservesInv(s, p, key, env);
        var s1 := RunHandler(s, p, key, env);
        assert Quiet(s1, pending[1..], key);
        DispatchKeepsLog(s1, pending[1..], key, env);
      } else {
        DispatchKeepsLog(s, pending[1..], key, env);
      }
    }
  }

  /** Enter with trial t's handler attached logs exactly t's record, taken with the
      dial angle and the elapsed time of the moment; it finishes nothing, and on a
      page without a canvas it schedules no dwell. */
  lemma {:induction false} DispatchLogsSubmission(s: State, pending: seq<Listener>, l: Listener, env: Env)
    requires Inv(s, env) && s.timerStarted
    requires forall m :: m in pending ==> HandlerArgsOk(m.handler) && m.id < s.nextListenerId
    requires l in pending && l in s.listeners && l.handler.TestEnter?
    ensures var t := Dispatch(s, pending, Enter, env);
      && t.responses == s.responses + [RecordFor(l.handler.trial, s.currentAngle, Elapsed(s), env.atan2)]
      && t.finishes == s.finishes
      && (!HasCanvas(s.screen) ==> t.dwell == s.dwell)
    decreases |pending|
  {
    var p := pending[0];
    if p == l {
      SubmissionFirst(s, pending, l, env);
    } else {
      assert l in pending[1..];
      var s1 := if p in s.listeners then RunHandler(s, p, Enter, env) else s;
      if p in s.listeners {
        OtherHandlerKeepsSubmission(s, p, l, env);
      }
      assert Elapsed(s1) == Elapsed(s);
      DispatchLogsSubmission(s1, pending[1..], l, env);
      assert Dispatch(s, pending, Enter, env) == Dispatch(s1, pending[1..], Enter, env);
    }
  }

  /** The submitting handler's turn comes first; nothing after it logs. */
  lemma SubmissionFirst(s: State, pending: seq<Listener>, l: Listener, env: Env)
    requires Inv(s, env) && s.timerStarted
    requires forall m :: m in pending ==> HandlerArgsOk(m.handler) && m.id < s.nextListenerId
    requires pending != [] && pending[0] == l && l in s.listeners && l.handler.TestEnter?
    ensures var t := Dispatch(s, pending, Enter, env);
      && t.responses == s.responses + [RecordFor(l.handler.trial, s.currentAngle, Elapsed(s), env.atan2)]
      && t.finishes == s.finishes
      && (!HasCanvas(s.screen) ==> t.dwell == s.dwell)
  {
    assert HandlerFits(l.handler, true, s.currentTrial, |s.responses|, s.dwell);
    WithoutMembers(s.listeners, l.id);
    RunHandlerPreservesInv(s, l, Enter, env);
    SubmitEffect(s, l, env);
    var s1 := RunHandler(s, l, Enter, env);
    assert Quiet(s1, pending[1..], Enter);
    DispatchKeepsLog(s1, pending[1..], Enter, env);
    assert Dispatch(s, pending, Enter, env) == Dispatch(s1, pending[1..], Enter, env);
  }

  /** What a test trial's Enter handler changes besides its own listener. */
  lemma SubmitEffect(s: State, l: Listener, env: Env)
    requires Atan2Range(env.atan2) && l.handler.TestEnter? && TrialWellFormed(l.handler.trial)
    ensures var t := RunHandler(s, l, Enter, env);
      && t.responses == s.responses + [RecordFor(l.handler.trial, s.currentAngle, Elapsed(s), env.atan2)]
      && t.finishes == s.finishes
      && t.dwell == (if HasCanvas(s.screen) then TestDwell else s.dwell)
  {
    SubmitFields(RemoveListener(s, l.id), l.handler.trial, env.atan2);
  }

  /** Before a test trial's handler has its turn, only completion handlers can run,
      and they change nothing its record depends on. */
  lemma OtherHandlerKeepsSubmission(s: State, p: Listener, l: Listener, env: Env)
    requires Inv(s, env) && s.timerStarted
    requires p in s.listeners && l in s.listeners && p != l && l.handler.TestEnter?
    ensures HandlerArgsOk(p.handler)
    ensures var s1 := RunHandler(s, p, Enter, env);
      && Inv(s1, env) && s1.timerStarted && l in s1.listeners && s.nextListenerId <= s1.nextListenerId
      && s1.responses == s.responses && s1.currentAngle == s.currentAngle
      && s1.clock == s.clock && s1.startTime == s.startTime
      && s1.finishes == s.finishes && s1.dwell == s.dwell
      && (!HasCanvas(s.screen) ==> !HasCanvas(s1.screen))
  {
    StartedHandlers(s.listeners, s.nextListenerId, s.currentTrial, |s.responses|, s.dwell);
    assert p.handler == FinishKey;
    WithoutMembers(s.listeners, p.id);
    RunHandlerPreservesInv(s, p, Enter, env);
  }

  /** Enter on a test trial logs that trial's record with the dial angle and the
      seconds since the start at the moment of the key. */
  lemma EnterLogsAttachedTrial(s: State, l: Listener, now: int, env: Env)
    requires Inv(s, env) && s.clock <= now && l in s.listeners && l.handler.TestEnter?
    ensures forall m :: m in s.listeners ==> HandlerArgsOk(m.handler)
    ensures var t := KeyDownStep(s, Enter, now, env);
      && t.responses == s.responses
                        + [RecordFor(l.handler.trial, s.currentAngle, ((now - s.startTime) as real) / 1000.0, env.atan2)]
      && t.finishes == s.finishes
      && (!HasCanvas(s.screen) ==> t.dwell == s.dwell)
  {
    LaterClockInv(s, now, env);
    assert HandlerFits(l.handler, s.timerStarted, s.currentTrial, |s.responses|, s.dwell);
    var s0 := s.(clock := now);
    DispatchLogsSubmission(s0, s.listeners, l, env);
    assert Elapsed(s0) == ((now - s.startTime) as real) / 1000.0;
    assert KeyDownStep(s, Enter, now, env) == Dispatch(s0, s.listeners, Enter, env);
  }

  /** A keydown logs at most one record: none for Space, and one for Enter exactly
      when a test trial's handler is attached. */
  lemma KeyDownLogsAtMostOne(s: State, key: Key, now: int, env: Env)
    requires Inv(s, env) && s.clock <= now
    ensures forall m :: m in s.listeners ==> HandlerArgsOk(m.handler)
    ensures var t := KeyDownStep(s, key, now, env);
      && s.responses <= t.responses
      && |t.responses| <= |s.responses| + 1
      && (key == Space ==> t.responses == s.responses)
      && (|t.responses| == |s.responses| + 1 <==>
            key == Enter && exists m :: m in s.listeners && m.handler.TestEnter?)
  {
    LaterClockInv(s, now, env);
    if l :| l in s.listeners && l.handler.TestEnter? && key == Enter {
      EnterLogsAttachedTrial(s, l, now, env);
    } else {
      DispatchKeepsLog(s.(clock := now), s.listeners, key, env);
    }
  }

  // ---------------------------------------------------------------------------
  // Timeouts and the races around them

  /** A timeout in the middle of trial k ends the test with k records and leaves
      trial k's Enter handler attached. */
  lemma TimeoutMidTrial(s: State, l: Listener, env: Env)
    requires Inv(s, env) && s.timerActive && s.timeRemaining == 1
    requires l in s.listeners && l.handler.TestEnter?
    ensures var t := TickStep(s);
      && Inv(t, env)
      && t.screen == Completed && !t.timerActive && t.timeRemaining == 0
      && t.responses == s.responses && |t.responses| == s.currentTrial
      && t.finishes == s.finishes + [Summarize(s.responses)]
      && l in t.listeners
  {
    assert HandlerFits(l.handler, s.timerStarted, s.currentTrial, |s.responses|, s.dwell);
    TickPreservesInv(s, env);
  }

  /** Enter on a page whose canvas is gone (the test was completed by the
      countdown) still logs the attached trial's record, adds no averages to those
      shown, and schedules no next trial. */
  lemma StaleSubmitAfterTimeout(s: State, l: Listener, now: int, env: Env)
    requires Inv(s, env) && !HasCanvas(s.screen) && s.clock <= now
    requires l in s.listeners && l.handler.TestEnter?
    ensures forall m :: m in s.listeners ==> HandlerArgsOk(m.handler)
    ensures var u := KeyDownStep(s, Enter, now, env);
      && u.responses == s.responses
                        + [RecordFor(l.handler.trial, s.currentAngle, ((now - s.startTime) as real) / 1000.0, env.atan2)]
      && u.finishes == s.finishes
      && u.dwell == NoDwell
  {
    assert HandlerFits(l.handler, s.timerStarted, s.currentTrial, |s.responses|, s.dwell);
    EnterLogsAttachedTrial(s, l, now, env);
  }

  /** The last trial's dwell ending first finishes the test once; the countdown is
      then cleared and later ticks do nothing. */
  lemma LastDwellFinishesOnce(s: State, env: Env)
    requires Inv(s, env) && s.dwell == TestDwell && s.currentTrial + 1 == |testTrials| && s.timerActive
    ensures |s.responses| == |testTrials|
    ensures var t := TickStep(DwellDoneStep(s));
      && t.screen == Completed && !t.timerActive && t.timeRemaining == s.timeRemaining
      && t.finishes == s.finishes + [Summarize(s.responses)]
  {
  }

  /** A timeout during the last trial's dwell finishes the test, and the dwell then
      finishes it a second time with the same twelve records. */
  lemma TimeoutDuringLastDwellFinishesTwice(s: State, env: Env)
    requires Inv(s, env) && s.dwell == TestDwell && s.currentTrial + 1 == |testTrials|
    requires s.timerActive && s.timeRemaining == 1
    ensures |s.responses| == |testTrials|
    ensures var t := DwellDoneStep(TickStep(s));
      && t.screen == Completed && !t.timerActive
      && t.finishes == s.finishes + [Summarize(s.responses), Summarize(s.responses)]
  {
    TimeoutThenLastDwell(s);
  }

  /** The two steps of that race, on any state with the same countdown and dwell. */
  lemma TimeoutThenLastDwell(s: State)
    requires s.dwell == TestDwell && s.currentTrial + 1 == |testTrials|
    requires s.timerActive && s.timeRemaining == 1
    ensures var t := DwellDoneStep(TickStep(s));
      && t.screen == Completed && !t.timerActive
      && t.finishes == s.finishes + [Summarize(s.responses), Summarize(s.responses)]
  {
    var t1 := FinishTest(s.(timeRemaining := 0, timerActive := false));
    assert TickStep(s) == t1;
    var t2 := t1.(dwell := NoDwell, currentTrial := s.currentTrial + 1);
    assert DwellDoneStep(t1) == ShowTestTrial(t2) == FinishTest(t2);
  }

  /** A timeout during an earlier trial's dwell finishes the test, and the dwell
      then still shows the next trial, with its Enter handler, under the completed
      countdown. */
  lemma TimeoutDuringDwellShowsNextTrial(s: State, env: Env)
    requires Inv(s, env) && s.dwell == TestDwell && s.currentTrial + 1 < |testTrials|
    requires s.timerActive && s.timeRemaining == 1
    ensures var t := DwellDoneStep(TickStep(s));
      && t.screen == TestTrial(s.currentTrial + 1) && !t.timerActive
      && t.finishes == s.finishes + [Summarize(s.responses)]
      && Listener(t.nextListenerId - 1, TestEnter(testTrials[s.currentTrial + 1])) in t.listeners
  {
    TimeoutThenDwell(s);
  }

  /** The two steps of that race, on any state with the same countdown and dwell. */
  lemma TimeoutThenDwell(s: State)
    requires s.dwell == TestDwell && s.currentTrial + 1 < |testTrials|
    requires s.timerActive && s.timeRemaining == 1
    ensures var t := DwellDoneStep(TickStep(s));
      && t.screen == TestTrial(s.currentTrial + 1) && !t.timerActive
      && t.finishes == s.finishes + [Summarize(s.responses)]
      && Listener(t.nextListenerId - 1, TestEnter(testTrials[s.currentTrial + 1])) in t.listeners
  {
    var t1 := FinishTest(s.(timeRemaining := 0, timerActive := false));
    assert TickStep(s) == t1;
    var t2 := t1.(dwell := NoDwell, currentTrial := s.currentTrial + 1);
    assert DwellDoneStep(t1) == ShowTestTrial(t2);
    var t3 := SetupResponseCanvas(t2.(screen := TestTrial(t2.currentTrial)));
    assert ShowTestTrial(t2) == AddListener(t3, TestEnter(testTrials[s.currentTrial + 1]));
  }

  // ---------------------------------------------------------------------------
  // Practice and the start of the test

  /** The dwell after a practice trial starts the next one (`next`), with the dial
      at 0 and only its Enter handler attached, or after the third the test
      instructions. */
  lemma PracticeDwellAdvances(s: State, env: Env)
    requires Inv(s, env) && s.dwell.PracticeDwell?
    ensures var t := DwellDoneStep(s); var n := s.dwell.next;
      && (n < |practiceTrials| ==>
            && t.screen == PracticeTrial(n) && t.currentAngle == 0.0 && !t.isDragging
            && t.listeners == [Listener(s.nextListenerId, PracticeEnter(n))])
      && (n >= |practiceTrials| ==>
            t.screen == TestInstructions && t.listeners == [Listener(s.nextListenerId, TestIntroEnter)])
      && t.responses == [] && !t.timerStarted && t.dwell == NoDwell
  {
  }

  /** The dwell after test trial k shows trial k + 1 with the dial at 0 and that
      trial's Enter handler as the only test handler attached, the k + 1 records
      kept; after the last trial it finishes the test instead. */
  lemma TestDwellAdvances(s: State, env: Env)
    requires Inv(s, env) && s.dwell == TestDwell
    ensures var t := DwellDoneStep(s); var k := s.currentTrial + 1;
      && t.currentTrial == k && t.responses == s.responses && |t.responses| == k
      && (k < |testTrials| ==>
            var h := Listener(s.nextListenerId, TestEnter(testTrials[k]));
            && t.screen == TestTrial(k) && t.currentAngle == 0.0 && !t.isDragging
            && t.dwell == NoDwell && h in t.listeners
            && (forall m :: m in t.listeners && m.handler.TestEnter? ==> m == h))
      && (k >= |testTrials| ==>
            t.screen == Completed && t.finishes == s.finishes + [Summarize(s.responses)])
  {
    TestDwellFacts(s, env);
    TestDwellStep(s);
  }

  /** During a test dwell trial k's record is logged and no test handler is
      attached. */
  lemma TestDwellFacts(s: State, env: Env)
    requires Inv(s, env) && s.dwell == TestDwell
    ensures |s.responses| == s.currentTrial + 1
    ensures forall m :: m in s.listeners ==> !m.handler.TestEnter?
  {
    forall m | m in s.listeners ensures !m.handler.TestEnter? {
      assert HandlerFits(m.handler, s.timerStarted, s.currentTrial, |s.responses|, s.dwell);
    }
  }

  /** What the dwell after a test trial computes, whatever the state. */
  lemma TestDwellStep(s: State)
    requires s.dwell == TestDwell
    ensures var t := DwellDoneStep(s); var k := s.currentTrial + 1;
      && t.currentTrial == k && t.responses == s.responses
      && (k < |testTrials| ==>
            && t.screen == TestTrial(k) && t.currentAngle == 0.0 && !t.isDragging
            && t.dwell == NoDwell
            && t.listeners == s.listeners + [Listener(s.nextListenerId, TestEnter(testTrials[k]))])
      && (k >= |testTrials| ==>
            t.screen == Completed && t.finishes == s.finishes + [Summarize(s.responses)])
  {
  }

  /** Listeners that are no longer attached are skipped. */
  lemma {:induction false} DispatchSkipsDetached(s: State, pending: seq<Listener>, key: Key, env: Env)
    requires Atan2Range(env.atan2)
    requires forall m :: m in pending ==> HandlerArgsOk(m.handler) && m !in s.listeners
    ensures Dispatch(s, pending, key, env) == s
    decreases |pending|
  {
    if pending != [] {
      DispatchSkipsDetached(s, pending[1..], key, env);
    }
  }

  /** Enter on the test instructions starts the test at that moment: trial 0 on
      screen with the dial at 0 and only its Enter handler attached, an empty log,
      and an active 300 s countdown. */
  lemma EnterStartsTest(s: State, l: Listener, now: int, env: Env)
    requires Inv(s, env) && s.clock <= now && l in s.listeners && l.handler == TestIntroEnter
    ensures forall m :: m in s.listeners ==> HandlerArgsOk(m.handler)
    ensures var t := KeyDownStep(s, Enter, now, env);
      && t.screen == TestTrial(0) && t.currentTrial == 0 && t.responses == []
      && t.startTime == now && t.timeRemaining == TestSeconds && t.timerActive
      && t.currentAngle == 0.0 && !t.isDragging
      && t.listeners == [Listener(s.nextListenerId, TestEnter(testTrials[0]))]
  {
    LaterClockInv(s, now, env);
    var s0 := s.(clock := now);
    IntroListenerAlone(s, l, env);
    StartTestEffect(s0, l, env);
    var s1 := RunHandler(s0, l, Enter, env);
    forall m | m in s.listeners[1..] ensures HandlerArgsOk(m.handler) && m !in s1.listeners {
      assert m in s.listeners;
    }
    DispatchSkipsDetached(s1, s.listeners[1..], Enter, env);
    assert KeyDownStep(s, Enter, now, env) == Dispatch(s1, s.listeners[1..], Enter, env);
  }

  /** Before the test starts every attached listener is the same one. */
  lemma IntroListenerAlone(s: State, l: Listener, env: Env)
    requires Inv(s, env) && l in s.listeners && l.handler == TestIntroEnter
    ensures !s.timerStarted && s.listeners[0] == l
    ensures forall m :: m in s.listeners ==> m == l
  {
    assert HandlerFits(l.handler, s.timerStarted, s.currentTrial, |s.responses|, s.dwell);
    assert s.listeners[0] in s.listeners;
  }

  /** The test instructions' Enter handler, the only listener then attached. */
  lemma StartTestEffect(s: State, l: Listener, env: Env)
    requires Inv(s, env) && l in s.listeners && l.handler == TestIntroEnter
    ensures var t := RunHandler(s, l, Enter, env);
      && t.screen == TestTrial(0) && t.currentTrial == 0 && t.responses == []
      && t.startTime == s.clock && t.timeRemaining == TestSeconds && t.timerActive
      && t.currentAngle == 0.0 && !t.isDragging
      && t.listeners == [Listener(s.nextListenerId, TestEnter(testTrials[0]))]
  {
    assert HandlerFits(l.handler, s.timerStarted, s.currentTrial, |s.responses|, s.dwell);
    RemoveOnlyListener(s, l, env);
  }

  /** On a trial's canvas, mousedown grabs the line and points it at the
      pointer's screen bearing plus 90 degrees; mousemove moves it only while it is
      held; mouseup and mouseleave let go, after which moves leave it alone. No
      pointer event touches anything but the line and the grab. */
  lemma PointerCapture(s: State, raw: real)
    requires -180.0 <= raw <= 180.0
    ensures var t := MouseDownStep(s, raw);
            && (HasCanvas(s.screen) ==> t.isDragging && t.currentAngle == Normalize360(raw + 90.0))
            && (!HasCanvas(s.screen) ==> t == s)
    ensures var t := MouseMoveStep(s, raw);
            && t.isDragging == s.isDragging
            && (t.currentAngle != s.currentAngle ==>
                  HasCanvas(s.screen) && s.isDragging && t.currentAngle == Normalize360(raw + 90.0))
    ensures HasCanvas(s.screen) ==> !MouseReleaseStep(s).isDragging
    ensures MouseMoveStep(MouseReleaseStep(s), raw).currentAngle == s.currentAngle
    ensures forall t :: t in {MouseDownStep(s, raw), MouseMoveStep(s, raw), MouseReleaseStep(s)} ==>
              t.(currentAngle := s.currentAngle, isDragging := s.isDragging) == s
  {
    PointerAngleIsBearing(raw);
  }
}
