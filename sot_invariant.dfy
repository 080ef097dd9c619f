/** The invariant of the perspective-taking test's sequencer and its
    preservation by every event. */
module SotInvariant {
  import opened JsMath
  import opened Geometry
  import opened SotCatalog
  import opened SotSession

  // ---------------------------------------------------------------------------
  // The invariant, as predicates over the fields each part depends on

  /** A logged record is the one test trial k's handler pushes. */
  ghost predicate RecordFits(r: TrialResponse, k: nat, env: Env)
  {
    && k < |testTrials| && Atan2Range(env.atan2) && TrialWellFormed(testTrials[k])
    && 0.0 <= r.responseAngle < 360.0
    && r == RecordFor(testTrials[k], r.responseAngle, r.responseTime, env.atan2)
  }

  /** The log holds the records of the first test trials, in catalog order, with
      non-decreasing times, none later than `elapsedMs` after the start. */
  ghost predicate LogOk(rs: seq<TrialResponse>, elapsedMs: int, env: Env)
  {
    && |rs| <= |testTrials|
    && (forall k :: 0 <= k < |rs| ==> RecordFits(rs[k], k, env))
    && (forall i, j :: 0 <= i < j < |rs| ==> rs[i].responseTime <= rs[j].responseTime)
    && (forall k :: 0 <= k < |rs| ==> 0.0 <= rs[k].responseTime <= (elapsedMs as real) / 1000.0)
  }

  /** What an attached handler's closure relies on, given whether the test has
      started, the trial index, the number of records and the pending dwell. */
  ghost predicate HandlerFits(h: Handler, started: bool, trial: nat, logged: nat, dwell: Dwell)
  {
    match h
    case SpaceToPractice => !started
    case PracticeEnter(_) => !started
    case TestIntroEnter => !started
    case TestEnter(t) =>
      && started && trial == logged && trial < |testTrials| && dwell == NoDwell
      && t == testTrials[trial] && TrialWellFormed(t)
    case FinishKey => started
  }

  /** Attached listeners have distinct ids below the next one, each fits, and at
      most one is a test trial's Enter handler. */
  ghost predicate ListenersOk(ls: seq<Listener>, nextId: nat, started: bool, trial: nat,
                              logged: nat, dwell: Dwell)
  {
    && (forall l :: l in ls ==> l.id < nextId && HandlerFits(l.handler, started, trial, logged, dwell))
    && (forall a, b :: a in ls && b in ls && a.id == b.id ==> a == b)
    && (forall a, b :: a in ls && b in ls && a.handler.TestEnter? && b.handler.TestEnter? ==> a == b)
  }

  ghost predicate TimerOk(remaining: int, started: bool, active: bool)
  {
    && 0 <= remaining <= TestSeconds
    && (active ==> started && remaining > 0)
  }

  /** Before the test starts nothing is logged and at most one handler is
      attached; after, the trial index trails the log by at most one. */
  ghost predicate PhaseOk(started: bool, rs: seq<TrialResponse>, trial: nat, finishes: seq<Summary>,
                          remaining: int, dwell: Dwell, ls: seq<Listener>, screen: Screen)
  {
    if !started then
      && rs == [] && trial == 0 && finishes == [] && remaining == TestSeconds && !dwell.TestDwell?
      && (forall a, b :: a in ls && b in ls ==> a == b)
      && (dwell != NoDwell ==> ls == [])
      && (screen == Welcome ==> ls == [] && dwell == NoDwell)
    else
      && !dwell.PracticeDwell?
      && trial <= |rs| <= trial + 1
      && (dwell == TestDwell ==> |rs| == trial + 1)
      && screen != Welcome
  }

  ghost predicate Inv(s: State, env: Env)
  {
    && Atan2Range(env.atan2)
    && ListenersOk(s.listeners, s.nextListenerId, s.timerStarted, s.currentTrial, |s.responses|, s.dwell)
    && TimerOk(s.timeRemaining, s.timerStarted, s.timerActive)
    && LogOk(s.responses, s.clock - s.startTime, env)
    && PhaseOk(s.timerStarted, s.responses, s.currentTrial, s.finishes, s.timeRemaining, s.dwell,
               s.listeners, s.screen)
    && 0.0 <= s.currentAngle < 360.0
    && s.startTime <= s.clock
  }

  /** What no event undoes: time moves forward, the log and the list of finishes
      only grow, the countdown never goes up, the trial index never goes down. */
  ghost predicate Advances(s: State, t: State)
  {
    && s.clock <= t.clock
    && s.responses <= t.responses
    && s.finishes <= t.finishes
    && s.nextListenerId <= t.nextListenerId
    && t.timeRemaining <= s.timeRemaining
    && s.currentTrial <= t.currentTrial
    && (s.timerStarted ==> t.timerStarted && t.startTime == s.startTime)
  }

  /** Events other than pointer events leave the dial alone or reset it for a
      new trial. */
  ghost predicate DialKeptOrReset(s: State, t: State)
  {
    || (t.currentAngle == s.currentAngle && t.isDragging == s.isDragging)
    || (t.currentAngle == 0.0 && !t.isDragging)
  }

  // ---------------------------------------------------------------------------
  // Building blocks of the preservation proofs

  lemma AddKeepsListenersOk(ls: seq<Listener>, n: nat, st: bool, tr: nat, lg: nat, d: Dwell, h: Handler)
    requires ListenersOk(ls, n, st, tr, lg, d) && HandlerFits(h, st, tr, lg, d)
    requires h.TestEnter? ==> forall m :: m in ls ==> !m.handler.TestEnter?
    ensures ListenersOk(ls + [Listener(n, h)], n + 1, st, tr, lg, d)
    ensures forall m :: m in ls + [Listener(n, h)] <==> m in ls || m == Listener(n, h)
  {
  }

  lemma RemoveKeepsListenersOk(ls: seq<Listener>, id: nat, n: nat, st: bool, tr: nat, lg: nat, d: Dwell)
    requires ListenersOk(ls, n, st, tr, lg, d)
    ensures ListenersOk(Without(ls, id), n, st, tr, lg, d)
    ensures forall m :: m in Without(ls, id) <==> m in ls && m.id != id
  {
    WithoutMembers(ls, id);
  }

  /** The same listeners fit a new context if each of them does. */
  lemma RefitListeners(ls: seq<Listener>, n: nat, st: bool, tr: nat, lg: nat, d: Dwell,
                       st': bool, tr': nat, lg': nat, d': Dwell)
    requires ListenersOk(ls, n, st, tr, lg, d)
    requires forall m :: m in ls ==> HandlerFits(m.handler, st', tr', lg', d')
    ensures ListenersOk(ls, n, st', tr', lg', d')
  {
  }

  /** Once the test has started, the only handlers attached besides a trial's
      Enter handler are completion handlers. */
  lemma StartedHandlers(ls: seq<Listener>, n: nat, tr: nat, lg: nat, d: Dwell)
    requires ListenersOk(ls, n, true, tr, lg, d)
    ensures forall m :: m in ls && !m.handler.TestEnter? ==> m.handler == FinishKey
  {
    forall m | m in ls && !m.handler.TestEnter? ensures m.handler == FinishKey {
      assert HandlerFits(m.handler, true, tr, lg, d);
    }
  }

  lemma LogLater(rs: seq<TrialResponse>, e1: int, e2: int, env: Env)
    requires LogOk(rs, e1, env) && e1 <= e2
    ensures LogOk(rs, e2, env)
  {
    forall k | 0 <= k < |rs| ensures rs[k].responseTime <= (e2 as real) / 1000.0 {
      assert (e1 as real) / 1000.0 <= (e2 as real) / 1000.0;
    }
  }

  /** Appending the record of the next trial keeps the log well formed. */
  lemma LogAppendOk(rs: seq<TrialResponse>, elapsedMs: int, rec: TrialResponse, env: Env)
    requires LogOk(rs, elapsedMs, env) && |rs| < |testTrials| && elapsedMs >= 0
    requires RecordFits(rec, |rs|, env)
    requires rec.responseTime == (elapsedMs as real) / 1000.0
    ensures LogOk(rs + [rec], elapsedMs, env)
  {
    AppendRecordsFit(rs, rec, env);
    AppendTimesOrdered(rs, rec, elapsedMs, env);
  }

  /** A property of each element at its index survives appending one more
      element that has it at the new index. */
  lemma AppendKeepsIndexed<T>(xs: seq<T>, x: T, p: (T, int) -> bool)
    requires forall k :: 0 <= k < |xs| ==> p(xs[k], k)
    requires p(x, |xs|)
    ensures forall k :: 0 <= k < |xs + [x]| ==> p((xs + [x])[k], k)
  {
    forall k | 0 <= k < |xs + [x]| ensures p((xs + [x])[k], k) {
      if k < |xs| {
        assert (xs + [x])[k] == xs[k];
      }
    }
  }

  lemma AppendRecordsFit(rs: seq<TrialResponse>, rec: TrialResponse, env: Env)
    requires forall k :: 0 <= k < |rs| ==> RecordFits(rs[k], k, env)
    requires RecordFits(rec, |rs|, env)
    ensures forall k :: 0 <= k < |rs + [rec]| ==> RecordFits((rs + [rec])[k], k, env)
  {
    var fits := (r: TrialResponse, k: int) => k >= 0 && RecordFits(r, k, env);
    assert forall k :: 0 <= k < |rs| ==> fits(rs[k], k);
    AppendKeepsIndexed(rs, rec, fits);
    assert forall k :: 0 <= k < |rs + [rec]| ==> fits((rs + [rec])[k], k);
  }

  lemma AppendTimesOrdered(rs: seq<TrialResponse>, rec: TrialResponse, elapsedMs: int, env: Env)
    requires LogOk(rs, elapsedMs, env) && elapsedMs >= 0
    requires rec.responseTime == (elapsedMs as real) / 1000.0
    ensures forall i, j :: 0 <= i < j < |rs + [rec]| ==>
              (rs + [rec])[i].responseTime <= (rs + [rec])[j].responseTime
    ensures forall k :: 0 <= k < |rs + [rec]| ==>
              0.0 <= (rs + [rec])[k].responseTime <= (elapsedMs as real) / 1000.0
  {
    var rs' := rs + [rec];
    forall i, j | 0 <= i < j < |rs'| ensures rs'[i].responseTime <= rs'[j].responseTime {
      assert rs'[i] == rs[i];
      if j < |rs| {
        assert rs'[j] == rs[j];
      }
    }
    forall i | 0 <= i < |rs'| ensures 0.0 <= rs'[i].responseTime <= rec.responseTime {
      if i < |rs| {
        assert rs'[i] == rs[i];
      }
    }
  }

  /** A state before the test with at most one practice-side handler attached. */
  lemma PretestInv(s: State, env: Env)
    requires Atan2Range(env.atan2)
    requires !s.timerStarted && !s.timerActive
    requires s.responses == [] && s.currentTrial == 0 && s.finishes == [] && s.timeRemaining == TestSeconds
    requires !s.dwell.TestDwell?
    requires |s.listeners| <= 1
    requires forall l :: l in s.listeners ==>
               l.id < s.nextListenerId && !l.handler.TestEnter? && l.handler != FinishKey
    requires s.dwell != NoDwell ==> s.listeners == []
    requires s.screen == Welcome ==> s.listeners == [] && s.dwell == NoDwell
    requires 0.0 <= s.currentAngle < 360.0 && s.startTime <= s.clock
    ensures Inv(s, env)
  {
    forall l | l in s.listeners
      ensures HandlerFits(l.handler, false, 0, 0, s.dwell)
    {
    }
  }

  /** Before the test, the one attached listener is the only one, so removing it
      leaves none; and no dwell is pending while it is attached. */
  lemma RemoveOnlyListener(s: State, l: Listener, env: Env)
    requires Inv(s, env) && l in s.listeners && !s.timerStarted
    ensures RemoveListener(s, l.id).listeners == []
    ensures s.dwell == NoDwell
  {
    WithoutAll(s.listeners, l.id);
  }

  /** Removing a listener keeps the invariant. */
  lemma RemoveKeepsInv(s: State, id: nat, env: Env)
    requires Inv(s, env)
    ensures Inv(RemoveListener(s, id), env)
  {
    RemoveKeepsListenersOk(s.listeners, id, s.nextListenerId, s.timerStarted, s.currentTrial,
                           |s.responses|, s.dwell);
    if s.listeners == [] {
      assert Without(s.listeners, id) == [];
    }
  }

  lemma InitialInv(now: int, env: Env)
    requires Atan2Range(env.atan2) && now >= 0
    ensures Inv(Initial(now), env)
  {
  }

  // ---------------------------------------------------------------------------
  // Every event keeps the invariant

  lemma SpaceToPracticeOk(s: State, l: Listener, env: Env)
    requires Inv(s, env) && l in s.listeners && l.handler == SpaceToPractice
    ensures var t := RunHandler(s, l, Space, env);
      Inv(t, env) && Advances(s, t) && DialKeptOrReset(s, t)
  {
    assert HandlerFits(l.handler, s.timerStarted, s.currentTrial, |s.responses|, s.dwell);
    RemoveOnlyListener(s, l, env);
    var s1 := RemoveListener(s, l.id);
    var t := AddListener(SetupResponseCanvas(s1.(screen := PracticeTrial(0))), PracticeEnter(0));
    assert t.listeners == [Listener(s.nextListenerId, PracticeEnter(0))];
    PretestInv(t, env);
    assert RunHandler(s, l, Space, env) == t;
  }

  lemma PracticeEnterOk(s: State, l: Listener, env: Env)
    requires Inv(s, env) && l in s.listeners && l.handler.PracticeEnter?
    ensures var t := RunHandler(s, l, Enter, env);
      Inv(t, env) && Advances(s, t) && DialKeptOrReset(s, t)
  {
    assert HandlerFits(l.handler, s.timerStarted, s.currentTrial, |s.responses|, s.dwell);
    RemoveOnlyListener(s, l, env);
    var s1 := RemoveListener(s, l.id);
    var s2 := s1.(dwell := PracticeDwell(l.handler.index + 1));
    PretestInv(s1, env);
    PretestInv(s2, env);
    assert RunHandler(s, l, Enter, env) == if HasCanvas(s1.screen) then s2 else s1;
  }

  lemma TestIntroEnterOk(s: State, l: Listener, env: Env)
    requires Inv(s, env) && l in s.listeners && l.handler == TestIntroEnter
    ensures var t := RunHandler(s, l, Enter, env);
      Inv(t, env) && Advances(s, t) && DialKeptOrReset(s, t)
  {
    assert HandlerFits(l.handler, s.timerStarted, s.currentTrial, |s.responses|, s.dwell);
    RemoveOnlyListener(s, l, env);
    var s1 := RemoveListener(s, l.id);
    var s2 := s1.(currentTrial := 0, responses := [], startTime := s.clock,
                  timeRemaining := TestSeconds, timerStarted := true, timerActive := true);
    assert LogOk([], 0, env);
    assert Inv(s2, env);
    ShowTestTrialOk(s2, env);
    assert RunHandler(s, l, Enter, env) == ShowTestTrial(s2);
  }

  /** Logging trial k with no handler of it left attached keeps the invariant. */
  lemma SubmitKeepsInv(s: State, k: nat, env: Env)
    requires Inv(s, env) && s.timerStarted && s.dwell == NoDwell
    requires k == s.currentTrial == |s.responses| && k < |testTrials|
    requires forall m :: m in s.listeners ==> !m.handler.TestEnter?
    requires TrialWellFormed(testTrials[k])
    ensures var t := SubmitTestTrial(s, testTrials[k], env.atan2);
      Inv(t, env) && Advances(s, t) && DialKeptOrReset(s, t)
  {
    var rec := RecordFor(testTrials[k], s.currentAngle, ((s.clock - s.startTime) as real) / 1000.0, env.atan2);
    assert RecordFits(rec, k, env);
    LogAppendOk(s.responses, s.clock - s.startTime, rec, env);
    var d := if HasCanvas(s.screen) then TestDwell else NoDwell;
    StartedHandlers(s.listeners, s.nextListenerId, k, k, NoDwell);
    RefitListeners(s.listeners, s.nextListenerId, true, k, k, NoDwell, true, k, k + 1, d);
    SubmitFields(s, testTrials[k], env.atan2);
  }

  /** The fields the Enter handler of trial t changes. */
  lemma SubmitFields(s: State, t: TrialSpec, atan2: (int, int) -> real)
    requires TrialWellFormed(t) && Atan2Range(atan2)
    ensures SubmitTestTrial(s, t, atan2).responses
              == s.responses + [RecordFor(t, s.currentAngle, ((s.clock - s.startTime) as real) / 1000.0, atan2)]
    ensures SubmitTestTrial(s, t, atan2).dwell == if HasCanvas(s.screen) then TestDwell else s.dwell
  {
  }

  lemma TestEnterOk(s: State, l: Listener, env: Env)
    requires Inv(s, env) && l in s.listeners && l.handler.TestEnter?
    ensures var t := RunHandler(s, l, Enter, env);
      Inv(t, env) && Advances(s, t) && DialKeptOrReset(s, t)
  {
    assert HandlerFits(l.handler, s.timerStarted, s.currentTrial, |s.responses|, s.dwell);
    var k := s.currentTrial;
    var s1 := RemoveListener(s, l.id);
    RemoveKeepsInv(s, l.id, env);
    RemoveKeepsListenersOk(s.listeners, l.id, s.nextListenerId, s.timerStarted, s.currentTrial,
                           |s.responses|, s.dwell);
    assert forall m :: m in s1.listeners ==> !m.handler.TestEnter?;
    SubmitKeepsInv(s1, k, env);
    assert RunHandler(s, l, Enter, env) == SubmitTestTrial(s1, l.handler.trial, env.atan2);
  }

  lemma FinishKeyOk(s: State, l: Listener, key: Key, env: Env)
    requires Inv(s, env) && l in s.listeners && l.handler == FinishKey
    ensures var t := RunHandler(s, l, key, env);
      Inv(t, env) && Advances(s, t) && DialKeptOrReset(s, t)
  {
    assert HandlerFits(l.handler, s.timerStarted, s.currentTrial, |s.responses|, s.dwell);
    RemoveKeepsInv(s, l.id, env);
  }

  /** Every keydown handler keeps the invariant. */
  lemma RunHandlerPreservesInv(s: State, l: Listener, key: Key, env: Env)
    requires Inv(s, env) && l in s.listeners
    ensures HandlerArgsOk(l.handler)
    ensures var t := RunHandler(s, l, key, env);
      Inv(t, env) && Advances(s, t) && DialKeptOrReset(s, t)
  {
    assert HandlerFits(l.handler, s.timerStarted, s.currentTrial, |s.responses|, s.dwell);
    match l.handler
    case SpaceToPractice =>
      if key == Space { SpaceToPracticeOk(s, l, env); }
    case PracticeEnter(i) =>
      if key == Enter { PracticeEnterOk(s, l, env); }
    case TestIntroEnter =>
      if key == Enter { TestIntroEnterOk(s, l, env); }
    case TestEnter(_) =>
      if key == Enter { TestEnterOk(s, l, env); }
    case FinishKey =>
      if key == Space || key == Enter { FinishKeyOk(s, l, key, env); }
  }

  /** Dispatching a keydown through any snapshot keeps the invariant. */
  lemma {:induction false} DispatchPreservesInv(s: State, pending: seq<Listener>, key: Key, env: Env)
    requires Inv(s, env)
    requires forall l :: l in pending ==> HandlerArgsOk(l.handler)
    ensures var t := Dispatch(s, pending, key, env);
      Inv(t, env) && Advances(s, t) && DialKeptOrReset(s, t)
    decreases |pending|
  {
    if pending != [] {
      var s1 := if pending[0] in s.listeners then RunHandler(s, pending[0], key, env) else s;
      if pending[0] in s.listeners {
        RunHandlerPreservesInv(s, pending[0], key, env);
      }
      DispatchPreservesInv(s1, pending[1..], key, env);
      var t := Dispatch(s1, pending[1..], key, env);
      assert Dispatch(s, pending, key, env) == t;
      AdvancesTwice(s, s1, t);
    }
  }

  /** Two steps forward are a step forward. */
  lemma AdvancesTwice(s: State, s1: State, t: State)
    requires Advances(s, s1) && DialKeptOrReset(s, s1)
    requires Advances(s1, t) && DialKeptOrReset(s1, t)
    ensures Advances(s, t) && DialKeptOrReset(s, t)
  {
  }

  /** The invariant survives the clock moving forward. */
  lemma LaterClockInv(s: State, now: int, env: Env)
    requires Inv(s, env) && s.clock <= now
    ensures Inv(s.(clock := now), env)
    ensures forall l :: l in s.listeners ==> HandlerArgsOk(l.handler) && l.id < s.nextListenerId
  {
    LogLater(s.responses, s.clock - s.startTime, now - s.startTime, env);
    forall l | l in s.listeners ensures HandlerArgsOk(l.handler) {
      assert HandlerFits(l.handler, s.timerStarted, s.currentTrial, |s.responses|, s.dwell);
    }
  }

  lemma KeyDownPreservesInv(s: State, key: Key, now: int, env: Env)
    requires Inv(s, env) && s.clock <= now
    ensures forall l :: l in s.listeners ==> HandlerArgsOk(l.handler)
    ensures var t := KeyDownStep(s, key, now, env);
      Inv(t, env) && Advances(s, t) && DialKeptOrReset(s, t)
  {
    LaterClockInv(s, now, env);
    DispatchPreservesInv(s.(clock := now), s.listeners, key, env);
  }

  lemma BeginPreservesInv(s: State, env: Env)
    requires Inv(s, env)
    ensures var t := BeginStep(s); Inv(t, env) && Advances(s, t) && DialKeptOrReset(s, t)
  {
    if s.screen == Welcome {
      var t := ShowPracticeInstructions(s);
      assert t.listeners == [Listener(s.nextListenerId, SpaceToPractice)];
      PretestInv(t, env);
    }
  }

  /** `finishTest` keeps the invariant once the test has started. */
  lemma FinishTestOk(s: State, env: Env)
    requires Inv(s, env) && s.timerStarted
    ensures var t := FinishTest(s); Inv(t, env) && Advances(s, t) && DialKeptOrReset(s, t)
  {
    AddKeepsListenersOk(s.listeners, s.nextListenerId, true, s.currentTrial, |s.responses|,
                        s.dwell, FinishKey);
  }

  lemma PracticeDwellOk(s: State, env: Env)
    requires Inv(s, env) && s.dwell.PracticeDwell?
    ensures var t := DwellDoneStep(s); Inv(t, env) && Advances(s, t) && DialKeptOrReset(s, t)
  {
    var n := s.dwell.next;
    var s1 := s.(dwell := NoDwell);
    assert s.listeners == [];
    var t := StartPracticeTrial(s1, n);
    assert |t.listeners| == 1 && t.listeners[0].id == s.nextListenerId;
    PretestInv(t, env);
  }

  lemma TestDwellOk(s: State, env: Env)
    requires Inv(s, env) && s.dwell == TestDwell
    ensures var t := DwellDoneStep(s); Inv(t, env) && Advances(s, t) && DialKeptOrReset(s, t)
  {
    var s1 := s.(dwell := NoDwell, currentTrial := s.currentTrial + 1);
    NextTrialKeepsInv(s, env);
    ShowTestTrialOk(s1, env);
  }

  /** Moving on to the next trial once the dwell of the current one is over. */
  lemma NextTrialKeepsInv(s: State, env: Env)
    requires Inv(s, env) && s.dwell == TestDwell
    ensures var s1 := s.(dwell := NoDwell, currentTrial := s.currentTrial + 1);
      && Inv(s1, env) && s1.timerStarted && s1.currentTrial == |s1.responses|
      && forall m :: m in s1.listeners ==> m.handler == FinishKey
  {
    var k := s.currentTrial + 1;
    var n, logged := s.nextListenerId, |s.responses|;
    forall m | m in s.listeners ensures m.handler == FinishKey {
      assert HandlerFits(m.handler, true, s.currentTrial, logged, TestDwell);
    }
    RefitListeners(s.listeners, n, true, s.currentTrial, logged, TestDwell, true, k, logged, NoDwell);
  }

  /** `showTestTrial` keeps the invariant when only completion handlers are attached. */
  lemma ShowTestTrialOk(s: State, env: Env)
    requires Inv(s, env) && s.timerStarted && s.currentTrial == |s.responses| && s.dwell == NoDwell
    requires forall m :: m in s.listeners ==> m.handler == FinishKey
    ensures var t := ShowTestTrial(s); Inv(t, env) && Advances(s, t) && DialKeptOrReset(s, t)
  {
    var k := s.currentTrial;
    if k >= |testTrials| {
      FinishTestOk(s, env);
    } else {
      assert TrialWellFormed(testTrials[k]) by { TestTrialsWellFormed(); }
      AddKeepsListenersOk(s.listeners, s.nextListenerId, true, k, k, NoDwell, TestEnter(testTrials[k]));
    }
  }

  lemma DwellDonePreservesInv(s: State, env: Env)
    requires Inv(s, env)
    ensures var t := DwellDoneStep(s); Inv(t, env) && Advances(s, t) && DialKeptOrReset(s, t)
  {
    match s.dwell
    case NoDwell =>
    case PracticeDwell(n) => PracticeDwellOk(s, env);
    case TestDwell => TestDwellOk(s, env);
  }

  lemma TickPreservesInv(s: State, env: Env)
    requires Inv(s, env)
    ensures var t := TickStep(s); Inv(t, env) && Advances(s, t) && DialKeptOrReset(s, t)
  {
    if s.timerActive {
      var s1 := s.(timeRemaining := s.timeRemaining - 1);
      if s1.timeRemaining <= 0 {
        var s2 := s1.(timerActive := false);
        assert Inv(s2, env);
        FinishTestOk(s2, env);
      }
    }
  }

  /** The dial's angle stays in [0, 360) and nothing else the invariant speaks of
      changes under pointer events. */
  lemma DialKeepsInv(s: State, angle: real, dragging: bool, env: Env)
    requires Inv(s, env) && 0.0 <= angle < 360.0
    ensures var t := s.(currentAngle := angle, isDragging := dragging); Inv(t, env) && Advances(s, t)
  {
  }

  lemma PointerEventsPreserveInv(s: State, raw: real, env: Env)
    requires Inv(s, env) && -180.0 <= raw <= 180.0
    ensures Inv(MouseDownStep(s, raw), env) && Advances(s, MouseDownStep(s, raw))
    ensures Inv(MouseMoveStep(s, raw), env) && Advances(s, MouseMoveStep(s, raw))
    ensures Inv(MouseReleaseStep(s), env) && Advances(s, MouseReleaseStep(s))
  {
    DialKeepsInv(s, PointerAngle(raw), true, env);
    DialKeepsInv(s, PointerAngle(raw), s.isDragging, env);
    DialKeepsInv(s, s.currentAngle, false, env);
  }
}
