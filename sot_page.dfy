/** The perspective-taking test's page as an object: the module globals and the
    event plumbing are fields that each event handler updates in place, and every
    handler is proved to perform the step of SotSession on the state the fields
    hold, so the invariant and the properties proved about the steps carry over. */
module SotPage {
  import opened JsMath
  import opened Geometry
  import opened SotCatalog
  import opened SotSession
  import opened SotInvariant

  /** One turn of a dispatch: the listener at `i` runs if it is still attached. */
  lemma DispatchUnfold(s: State, pending: seq<Listener>, i: nat, key: Key, env: Env)
    requires Atan2Range(env.atan2) && i < |pending|
    requires forall m :: m in pending ==> HandlerArgsOk(m.handler)
    ensures Dispatch(s, pending[i..], key, env)
            == Dispatch(if pending[i] in s.listeners then RunHandler(s, pending[i], key, env) else s,
                        pending[i + 1..], key, env)
  {
    assert pending[i..][0] == pending[i];
    assert pending[i..][1..] == pending[i + 1..];
  }

  class Session {
    var screen: Screen
    var currentTrial: nat
    var responses: seq<TrialResponse>
    var startTime: int
    var clock: int
    var timeRemaining: int
    var timerStarted: bool
    var timerActive: bool
    var currentAngle: real
    var isDragging: bool
    var listeners: seq<Listener>
    var nextListenerId: nat
    var dwell: Dwell
    var finishes: seq<Summary>
    var deliveries: nat
    const inQualtrics: bool
    const atan2: (int, int) -> real

    /** The state the fields hold. */
    ghost function Snapshot(): State
      reads this
    {
      State(screen, currentTrial, responses, startTime, clock, timeRemaining, timerStarted,
            timerActive, currentAngle, isDragging, listeners, nextListenerId, dwell, finishes,
            deliveries)
    }

    function Host(): Env
    {
      Env(inQualtrics, atan2)
    }

    ghost predicate Valid()
      reads this
    {
      Inv(Snapshot(), Host())
    }

    /** The page once its images have loaded and the welcome screen is shown. */
    constructor(inQualtrics: bool, atan2: (int, int) -> real, now: int)
      requires Atan2Range(atan2) && now >= 0
      ensures Snapshot() == Initial(now) && Valid()
      ensures this.inQualtrics == inQualtrics && this.atan2 == atan2
    {
      this.inQualtrics := inQualtrics;
      this.atan2 := atan2;
      screen, currentTrial, responses, startTime, clock := Welcome, 0, [], 0, now;
      timeRemaining, timerStarted, timerActive := TestSeconds, false, false;
      currentAngle, isDragging := 0.0, false;
      listeners, nextListenerId, dwell, finishes, deliveries := [], 0, NoDwell, [], 0;
      new;
      InitialInv(now, Host());
    }

    // -------------------------------------------------------------------------
    // The page's functions

    method AddKeyListener(h: Handler)
      modifies this
      ensures Snapshot() == AddListener(old(Snapshot()), h)
    {
      listeners := listeners + [Listener(nextListenerId, h)];
      nextListenerId := nextListenerId + 1;
    }

    method RemoveKeyListener(id: nat)
      modifies this
      ensures Snapshot() == RemoveListener(old(Snapshot()), id)
    {
      listeners := Without(listeners, id);
    }

    method SetupCanvas()
      modifies this
      ensures Snapshot() == SetupResponseCanvas(old(Snapshot()))
    {
      currentAngle, isDragging := 0.0, false;
    }

    method ShowTestIntro()
      modifies this
      ensures Snapshot() == ShowTestInstructions(old(Snapshot()))
    {
      screen := TestInstructions;
      AddKeyListener(TestIntroEnter);
    }

    method StartPractice(index: nat)
      modifies this
      ensures Snapshot() == StartPracticeTrial(old(Snapshot()), index)
    {
      if index >= |practiceTrials| {
        ShowTestIntro();
      } else {
        screen := PracticeTrial(index);
        SetupCanvas();
        AddKeyListener(PracticeEnter(index));
      }
    }

    method Finish()
      modifies this
      ensures Snapshot() == FinishTest(old(Snapshot()))
    {
      timerActive := false;
      screen := Completed;
      finishes := finishes + [Summarize(responses)];
      AddKeyListener(FinishKey);
    }

    method ShowTrial()
      modifies this
      ensures Snapshot() == ShowTestTrial(old(Snapshot()))
    {
      if currentTrial >= |testTrials| {
        Finish();
      } else {
        screen := TestTrial(currentTrial);
        SetupCanvas();
        AddKeyListener(TestEnter(testTrials[currentTrial]));
      }
    }

    method Start(now: int)
      modifies this
      ensures Snapshot() == StartTest(old(Snapshot()), now)
    {
      ghost var s0 := Snapshot();
      currentTrial, responses, startTime := 0, [], now;
      timeRemaining, timerStarted, timerActive := TestSeconds, true, true;
      assert Snapshot() == s0.(currentTrial := 0, responses := [], startTime := now,
                               timeRemaining := TestSeconds, timerStarted := true, timerActive := true);
      ShowTrial();
    }

    method Submit(t: TrialSpec)
      requires TrialWellFormed(t) && Atan2Range(atan2)
      modifies this
      ensures Snapshot() == SubmitTestTrial(old(Snapshot()), t, atan2)
    {
      var time := ((clock - startTime) as real) / 1000.0;
      responses := responses + [RecordFor(t, currentAngle, time, atan2)];
      if HasCanvas(screen) {
        dwell := TestDwell;
      }
    }

    /** Run one keydown handler on this page. */
    method Handle(l: Listener, key: Key)
      requires Atan2Range(atan2) && HandlerArgsOk(l.handler)
      modifies this
      ensures Snapshot() == RunHandler(old(Snapshot()), l, key, Host())
    {
      if l.handler.SpaceToPractice? || l.handler.PracticeEnter? {
        HandlePractice(l, key);
      } else if l.handler.TestIntroEnter? || l.handler.TestEnter? {
        HandleTest(l, key);
      } else {
        HandleFinish(l, key);
      }
    }

    method HandlePractice(l: Listener, key: Key)
      requires Atan2Range(atan2) && (l.handler.SpaceToPractice? || l.handler.PracticeEnter?)
      modifies this
      ensures Snapshot() == RunHandler(old(Snapshot()), l, key, Host())
    {
      match l.handler
      case SpaceToPractice =>
        if key == Space {
          RemoveKeyListener(l.id);
          StartPractice(0);
        }
      case PracticeEnter(i) =>
        if key == Enter {
          RemoveKeyListener(l.id);
          if HasCanvas(screen) {
            dwell := PracticeDwell(i + 1);
          }
        }
    }

    method HandleTest(l: Listener, key: Key)
      requires Atan2Range(atan2) && HandlerArgsOk(l.handler)
      requires l.handler.TestIntroEnter? || l.handler.TestEnter?
      modifies this
      ensures Snapshot() == RunHandler(old(Snapshot()), l, key, Host())
    {
      match l.handler
      case TestIntroEnter =>
        if key == Enter {
          var now := clock;
          RemoveKeyListener(l.id);
          Start(now);
        }
      case TestEnter(t) =>
        if key == Enter {
          RemoveKeyListener(l.id);
          Submit(t);
        }
    }

    method HandleFinish(l: Listener, key: Key)
      requires Atan2Range(atan2) && l.handler == FinishKey
      modifies this
      ensures Snapshot() == RunHandler(old(Snapshot()), l, key, Host())
    {
      if key == Space || key == Enter {
        RemoveKeyListener(l.id);
        if inQualtrics {
          deliveries := deliveries + 1;
        } else {
          screen := ThankYou;
        }
      }
    }

    // -------------------------------------------------------------------------
    // Events

    /** A keydown at time `now`, offered to the listeners attached when it arrives. */
    method KeyDown(key: Key, now: int)
      requires Valid() && clock <= now
      modifies this
      ensures Valid()
      ensures Snapshot() == KeyDownStep(old(Snapshot()), key, now, Host())
    {
      ghost var s0 := Snapshot();
      LaterClockInv(s0, now, Host());
      clock := now;
      assert Snapshot() == s0.(clock := now);
      DispatchKey(listeners, key);
    }

    /** Offer a keydown to each listener of `pending` that is still attached when
        its turn comes. */
    method DispatchKey(pending: seq<Listener>, key: Key)
      requires Valid() && forall m :: m in pending ==> HandlerArgsOk(m.handler)
      modifies this
      ensures Valid()
      ensures Snapshot() == Dispatch(old(Snapshot()), pending, key, Host())
    {
      ghost var s0 := Snapshot();
      var i := 0;
      while i < |pending|
        invariant 0 <= i <= |pending|
        invariant Valid()
        invariant Dispatch(Snapshot(), pending[i..], key, Host()) == Dispatch(s0, pending, key, Host())
      {
        ghost var before := Snapshot();
        var l := pending[i];
        DispatchUnfold(before, pending, i, key, Host());
        if l in listeners {
          RunHandlerPreservesInv(before, l, key, Host());
          Handle(l, key);
        }
        i := i + 1;
      }
    }

    /** A click on the start button. */
    method Begin()
      requires Valid()
      modifies this
      ensures Valid()
      ensures Snapshot() == BeginStep(old(Snapshot()))
    {
      BeginPreservesInv(Snapshot(), Host());
      if screen == Welcome {
        screen := PracticeInstructions;
        AddKeyListener(SpaceToPractice);
      }
    }

    /** The pending 2 s dwell fires. */
    method DwellDone()
      requires Valid()
      modifies this
      ensures Valid()
      ensures Snapshot() == DwellDoneStep(old(Snapshot()))
    {
      ghost var s0 := Snapshot();
      match dwell
      case NoDwell =>
      case PracticeDwell(n) => NextPracticeTrial(n);
      case TestDwell => NextTestTrial();
      DwellDonePreservesInv(s0, Host());
    }

    method NextPracticeTrial(n: nat)
      requires dwell == PracticeDwell(n)
      modifies this
      ensures Snapshot() == DwellDoneStep(old(Snapshot()))
    {
      ghost var s0 := Snapshot();
      dwell := NoDwell;
      assert Snapshot() == s0.(dwell := NoDwell);
      StartPractice(n);
    }

    method NextTestTrial()
      requires dwell == TestDwell
      modifies this
      ensures Snapshot() == DwellDoneStep(old(Snapshot()))
    {
      ghost var s0 := Snapshot();
      dwell := NoDwell;
      currentTrial := currentTrial + 1;
      assert Snapshot() == s0.(dwell := NoDwell, currentTrial := s0.currentTrial + 1);
      ShowTrial();
    }

    /** One run of `updateTimer`. */
    method Tick()
      requires Valid()
      modifies this
      ensures Valid()
      ensures Snapshot() == TickStep(old(Snapshot()))
    {
      ghost var s0 := Snapshot();
      UpdateTimer();
      TickPreservesInv(s0, Host());
    }

    method UpdateTimer()
      modifies this
      ensures Snapshot() == TickStep(old(Snapshot()))
    {
      ghost var s0 := Snapshot();
      if timerActive {
        timeRemaining := timeRemaining - 1;
        ghost var s1 := Snapshot();
        assert s1 == s0.(timeRemaining := s0.timeRemaining - 1);
        if timeRemaining <= 0 {
          timerActive := false;
          assert Snapshot() == s1.(timerActive := false);
          Finish();
        }
      }
    }

    method MouseDown(raw: real)
      requires Valid() && -180.0 <= raw <= 180.0
      modifies this
      ensures Valid()
      ensures Snapshot() == MouseDownStep(old(Snapshot()), raw)
    {
      if HasCanvas(screen) {
        DialKeepsInv(Snapshot(), PointerAngle(raw), true, Host());
        isDragging := true;
        currentAngle := PointerAngle(raw);
      }
    }

    method MouseMove(raw: real)
      requires Valid() && -180.0 <= raw <= 180.0
      modifies this
      ensures Valid()
      ensures Snapshot() == MouseMoveStep(old(Snapshot()), raw)
    {
      if HasCanvas(screen) && isDragging {
        DialKeepsInv(Snapshot(), PointerAngle(raw), true, Host());
        currentAngle := PointerAngle(raw);
      }
    }

    method MouseRelease()
      requires Valid()
      modifies this
      ensures Valid()
      ensures Snapshot() == MouseReleaseStep(old(Snapshot()))
    {
      if HasCanvas(screen) {
        DialKeepsInv(Snapshot(), currentAngle, false, Host());
        isDragging := false;
      }
    }
  }
}
