/** The trial sequencer of the perspective-taking test: welcome screen, practice
    instructions, three practice trials each followed by a 2 s feedback dwell, test
    instructions, up to twelve timed test trials each followed by a 2 s dwell, and
    the completion screen, under a 300-tick countdown.

    The module globals of the page (current trial, response log, start time,
    remaining seconds, current dial angle) and the page's event plumbing (the
    keydown listeners attached to the document, the pending dwell callback, the
    countdown interval, the dragging flag of the current canvas) form one State.
    Each event is a pure step function on State; class Session (module SotPage) keeps
    the same state in fields and is proved to implement the step functions.

    Listeners are kept in registration order with fresh ids. A keydown is
    dispatched to a snapshot of the listeners taken when it arrives: a listener
    added while the event is dispatched is not run for it, one removed before its
    turn is skipped, as the DOM does. */
module SotSession {
  import opened JsMath
  import opened Geometry
  import opened SotCatalog

  /** The test phase's budget: `timeRemaining = 300`. */
  const TestSeconds: int := 300

  /** What the page container shows. */
  datatype Screen =
    | Welcome
    | PracticeInstructions
    | PracticeTrial(index: nat)
    | TestInstructions
    | TestTrial(index: nat)
    | Completed
    | ThankYou

  /** Only trial screens hold the response canvas. */
  predicate HasCanvas(sc: Screen)
  {
    sc.PracticeTrial? || sc.TestTrial?
  }

  /** The key codes the handlers react to; any other key reaches no handler. */
  datatype Key = Space | Enter

  /** The keydown handlers of the page, with the values their closures capture. */
  datatype Handler =
    | SpaceToPractice            // practice instructions: Space starts practice trial 0
    | PracticeEnter(index: nat)  // practice trial `index`: Enter shows the answer
    | TestIntroEnter             // test instructions: Enter starts the test
    | TestEnter(trial: TrialSpec) // a test trial: Enter logs a response to `trial`
    | FinishKey                  // completion screen: Space or Enter continues

  datatype Listener = Listener(id: nat, handler: Handler)

  /** The 2 s `setTimeout` that follows a submitted trial, if one is pending. */
  datatype Dwell = NoDwell | PracticeDwell(next: nat) | TestDwell

  /** One entry of `responses`. */
  datatype TrialResponse = TrialResponse(
    trialId: TrialId,
    standing: string,
    facing: string,
    pointing: string,
    responseAngle: real,
    correctAngle: real,
    angularError: real,
    responseTime: real)

  /** The two averages `finishTest` shows. */
  datatype Summary = Summary(averageAngularError: JsNum, averageResponseTime: JsNum)

  /** What the page is given from outside: whether it runs inside the survey host,
      and the trigonometry of `Math.atan2` in degrees. */
  datatype Env = Env(inQualtrics: bool, atan2: (int, int) -> real)

  datatype State = State(
    screen: Screen,
    currentTrial: nat,
    responses: seq<TrialResponse>,
    startTime: int,
    clock: int,              // the latest `Date.now()` value seen
    timeRemaining: int,
    timerStarted: bool,      // `testTimer` has been set by `setInterval`
    timerActive: bool,       // and not yet cleared
    currentAngle: real,
    isDragging: bool,        // the flag of the current canvas's closure
    listeners: seq<Listener>,
    nextListenerId: nat,
    dwell: Dwell,
    finishes: seq<Summary>,  // one entry per run of `finishTest`
    deliveries: nat)         // results handed to the survey host

  /** The page after its images are loaded and the welcome screen is shown. */
  function Initial(now: int): State
  {
    State(Welcome, 0, [], 0, now, TestSeconds, false, false, 0.0, false, [], 0, NoDwell, [], 0)
  }

  // ---------------------------------------------------------------------------
  // Averages of finishTest

  function AngularErrors(rs: seq<TrialResponse>): seq<real>
  {
    seq(|rs|, i requires 0 <= i < |rs| => rs[i].angularError)
  }

  function ResponseTimes(rs: seq<TrialResponse>): seq<real>
  {
    seq(|rs|, i requires 0 <= i < |rs| => rs[i].responseTime)
  }

  /** `Math.round(sum / n * 10) / 10` with no guard: an empty list divides 0 by 0. */
  function MeanToTenth(xs: seq<real>): (r: JsNum)
    ensures r.NaN? <==> xs == []
    ensures xs != [] ==>
              var m := Sum(xs) / |xs| as real;
              m - 0.05 < r.v <= m + 0.05 && WholeTenths(r.v)
  {
    if xs == [] then NaN else Num(RoundTenth(Sum(xs) / (|xs| as real)))
  }

  /** The averages `finishTest` computes, NaN both when nothing was logged, and
      otherwise the mean error and the mean time, each rounded to a tenth. */
  function Summarize(rs: seq<TrialResponse>): (s: Summary)
    ensures s.averageAngularError.NaN? <==> rs == []
    ensures s.averageResponseTime.NaN? <==> rs == []
    ensures rs != [] ==>
              var n := |rs| as real;
              var e, t := Sum(AngularErrors(rs)) / n, Sum(ResponseTimes(rs)) / n;
              && e - 0.05 < s.averageAngularError.v <= e + 0.05 && WholeTenths(s.averageAngularError.v)
              && t - 0.05 < s.averageResponseTime.v <= t + 0.05 && WholeTenths(s.averageResponseTime.v)
  {
    Summary(MeanToTenth(AngularErrors(rs)), MeanToTenth(ResponseTimes(rs)))
  }

  /** With errors in [0, 180] and times in [0, maxTime], the averages are numbers
      in [0, 180] and [0, maxTime] respectively. */
  lemma SummaryBounds(rs: seq<TrialResponse>, maxTime: int)
    requires rs != []
    requires forall i :: 0 <= i < |rs| ==> 0.0 <= rs[i].angularError <= 180.0
    requires forall i :: 0 <= i < |rs| ==> 0.0 <= rs[i].responseTime <= maxTime as real
    ensures 0.0 <= Summarize(rs).averageAngularError.v <= 180.0
    ensures 0.0 <= Summarize(rs).averageResponseTime.v <= maxTime as real
  {
    var errors, times := AngularErrors(rs), ResponseTimes(rs);
    SumWithin(errors, 0.0, 180.0);
    MeanWithin(Sum(errors), |errors|, 0.0, 180.0);
    RoundTenthWithin(Sum(errors) / (|errors| as real), 0, 180);
    SumWithin(times, 0.0, maxTime as real);
    MeanWithin(Sum(times), |times|, 0.0, maxTime as real);
    RoundTenthWithin(Sum(times) / (|times| as real), 0, maxTime);
  }

  /** Two trials with errors 10 and 20 and times 2 and 4 average to 15.0 and 3.0. */
  lemma SummaryExample(r1: TrialResponse, r2: TrialResponse)
    requires r1.angularError == 10.0 && r1.responseTime == 2.0
    requires r2.angularError == 20.0 && r2.responseTime == 4.0
    ensures Summarize([r1, r2]) == Summary(Num(15.0), Num(3.0))
  {
    assert AngularErrors([r1, r2]) == [10.0, 20.0];
    assert ResponseTimes([r1, r2]) == [2.0, 4.0];
    assert Sum([10.0, 20.0]) == 30.0 by { assert [10.0, 20.0][..1] == [10.0]; }
    assert Sum([2.0, 4.0]) == 6.0 by { assert [2.0, 4.0][..1] == [2.0]; }
  }

  // ---------------------------------------------------------------------------
  // Listener bookkeeping

  function AddListener(s: State, h: Handler): State
  {
    s.(listeners := s.listeners + [Listener(s.nextListenerId, h)],
       nextListenerId := s.nextListenerId + 1)
  }

  /** `removeEventListener`: drop the listener with this id. */
  function Without(ls: seq<Listener>, id: nat): seq<Listener>
  {
    if ls == [] then []
    else (if ls[0].id == id then [] else [ls[0]]) + Without(ls[1..], id)
  }

  function RemoveListener(s: State, id: nat): State
  {
    s.(listeners := Without(s.listeners, id))
  }

  lemma {:induction false} WithoutMembers(ls: seq<Listener>, id: nat)
    ensures forall l :: l in Without(ls, id) <==> l in ls && l.id != id
  {
    if ls != [] {
      WithoutMembers(ls[1..], id);
    }
  }

  /** Removing every listener of a list whose only id is `id` leaves nothing. */
  lemma {:induction false} WithoutAll(ls: seq<Listener>, id: nat)
    requires forall m :: m in ls ==> m.id == id
    ensures Without(ls, id) == []
  {
    if ls != [] {
      assert ls[0] in ls;
      WithoutAll(ls[1..], id);
    }
  }

  // ---------------------------------------------------------------------------
  // The page's functions, as steps on State

  /** `setupResponseCanvas`: a fresh canvas with the line at 0 and no drag. */
  function SetupResponseCanvas(s: State): State
  {
    s.(currentAngle := 0.0, isDragging := false)
  }

  function ShowPracticeInstructions(s: State): State
  {
    AddListener(s.(screen := PracticeInstructions), SpaceToPractice)
  }

  function ShowTestInstructions(s: State): State
  {
    AddListener(s.(screen := TestInstructions), TestIntroEnter)
  }

  /** `startPracticeTrial(index)`: past the last practice trial, the test
      instructions; otherwise trial `index` with its Enter handler. */
  function StartPracticeTrial(s: State, index: nat): State
  {
    if index >= |practiceTrials| then ShowTestInstructions(s)
    else AddListener(SetupResponseCanvas(s.(screen := PracticeTrial(index))), PracticeEnter(index))
  }

  /** `finishTest`: clear the countdown, compute the averages of the log as it is
      now, show them, and wait for Space or Enter. */
  function FinishTest(s: State): State
  {
    AddListener(s.(timerActive := false, screen := Completed,
                   finishes := s.finishes + [Summarize(s.responses)]), FinishKey)
  }

  /** `showTestTrial`: past the last test trial, finish; otherwise show trial
      `currentTrial` with its Enter handler. */
  function ShowTestTrial(s: State): State
  {
    if s.currentTrial >= |testTrials| then FinishTest(s)
    else AddListener(SetupResponseCanvas(s.(screen := TestTrial(s.currentTrial))),
                     TestEnter(testTrials[s.currentTrial]))
  }

  /** `startTest`: reset the trial index and the log, take the start time, start
      the 300 s countdown, show the first trial. */
  function StartTest(s: State, now: int): State
  {
    ShowTestTrial(s.(currentTrial := 0, responses := [], startTime := now,
                     timeRemaining := TestSeconds, timerStarted := true, timerActive := true))
  }

  /** The record the Enter handler of trial `t` pushes for dial angle `angle`. */
  function RecordFor(t: TrialSpec, angle: real, responseTime: real, atan2: (int, int) -> real): TrialResponse
    requires TrialWellFormed(t) && Atan2Range(atan2)
  {
    var correct := CalculateCorrectAngle(t.standing, t.facing, t.pointing, atan2).v;
    TrialResponse(t.id, t.standing, t.facing, t.pointing, angle, correct,
                  AngularError(angle, correct), responseTime)
  }

  /** The body of trial t's Enter handler once it has removed itself: log the
      dial angle against the trial's correct angle, then schedule the dwell. */
  function SubmitTestTrial(s: State, t: TrialSpec, atan2: (int, int) -> real): State
    requires TrialWellFormed(t) && Atan2Range(atan2)
  {
    var time := ((s.clock - s.startTime) as real) / 1000.0;
    s.(responses := s.responses + [RecordFor(t, s.currentAngle, time, atan2)],
       dwell := if HasCanvas(s.screen) then TestDwell else s.dwell)
  }

  /** The trial a test trial's handler captured is one it can score. */
  ghost predicate HandlerArgsOk(h: Handler)
  {
    h.TestEnter? ==> TrialWellFormed(h.trial)
  }

  /** Run one keydown handler. Drawing the red answer line (`showCorrectAnswer`)
      throws when no canvas is on the page, which ends the handler before it
      schedules its dwell. */
  function RunHandler(s: State, l: Listener, key: Key, env: Env): State
    requires Atan2Range(env.atan2) && HandlerArgsOk(l.handler)
  {
    match l.handler
    case SpaceToPractice =>
      if key == Space then StartPracticeTrial(RemoveListener(s, l.id), 0) else s
    case PracticeEnter(i) =>
      if key == Enter then
        var s1 := RemoveListener(s, l.id);
        if HasCanvas(s1.screen) then s1.(dwell := PracticeDwell(i + 1)) else s1
      else s
    case TestIntroEnter =>
      if key == Enter then StartTest(RemoveListener(s, l.id), s.clock) else s
    case TestEnter(t) =>
      if key == Enter then SubmitTestTrial(RemoveListener(s, l.id), t, env.atan2) else s
    case FinishKey =>
      if key == Space || key == Enter then
        var s1 := RemoveListener(s, l.id);
        if env.inQualtrics then s1.(deliveries := s1.deliveries + 1) else s1.(screen := ThankYou)
      else s
  }

  /** Offer a keydown to each listener of the snapshot that is still attached. */
  function Dispatch(s: State, pending: seq<Listener>, key: Key, env: Env): State
    requires Atan2Range(env.atan2)
    requires forall l :: l in pending ==> HandlerArgsOk(l.handler)
    decreases |pending|
  {
    if pending == [] then s
    else
      var s1 := if pending[0] in s.listeners then RunHandler(s, pending[0], key, env) else s;
      Dispatch(s1, pending[1..], key, env)
  }

  // ---------------------------------------------------------------------------
  // Events

  /** A keydown at time `now`. */
  function KeyDownStep(s: State, key: Key, now: int, env: Env): State
    requires Atan2Range(env.atan2)
    requires forall l :: l in s.listeners ==> HandlerArgsOk(l.handler)
  {
    Dispatch(s.(clock := now), s.listeners, key, env)
  }

  /** A click on the start button, which exists only on the welcome screen. */
  function BeginStep(s: State): State
  {
    if s.screen == Welcome then ShowPracticeInstructions(s) else s
  }

  /** The pending 2 s dwell fires. */
  function DwellDoneStep(s: State): State
  {
    match s.dwell
    case NoDwell => s
    case PracticeDwell(n) => StartPracticeTrial(s.(dwell := NoDwell), n)
    case TestDwell => ShowTestTrial(s.(dwell := NoDwell, currentTrial := s.currentTrial + 1))
  }

  /** One run of `updateTimer`, if the countdown interval is active. */
  function TickStep(s: State): State
  {
    if !s.timerActive then s
    else
      var s1 := s.(timeRemaining := s.timeRemaining - 1);
      if s1.timeRemaining <= 0 then FinishTest(s1.(timerActive := false)) else s1
  }

  /** Mousedown on the canvas at a pointer whose raw atan2 is `raw`. */
  function MouseDownStep(s: State, raw: real): State
    requires -180.0 <= raw <= 180.0
  {
    if HasCanvas(s.screen) then s.(isDragging := true, currentAngle := PointerAngle(raw)) else s
  }

  /** Mousemove on the canvas: the line follows only while dragging. */
  function MouseMoveStep(s: State, raw: real): State
    requires -180.0 <= raw <= 180.0
  {
    if HasCanvas(s.screen) && s.isDragging then s.(currentAngle := PointerAngle(raw)) else s
  }

  /** Mouseup or mouseleave on the canvas. */
  function MouseReleaseStep(s: State): State
  {
    if HasCanvas(s.screen) then s.(isDragging := false) else s
  }
}
