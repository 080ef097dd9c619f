/** The dial-based orientation test: five scenes, each answered by stepping a dial
    in 5-degree increments with the arrow keys, scored by the shortest arc to the
    scene's correct angle, assembled into a fixed timeline, and summarised on a
    completion page. */
module OrientationTest {
  import opened JsMath
  import opened Geometry

  /** A scene: its id, the image shown, the two objects named in the prompt and
      the angle that scores 0. */
  datatype Stimulus = Stimulus(id: nat, imagePath: string, targets: (string, string), correctAngle: int)

  const stimuli: seq<Stimulus> := [
    Stimulus(1, "assets/test-stimuli/stimulus1.svg", ("tree", "car"), 45),
    Stimulus(2, "assets/test-stimuli/stimulus2.svg", ("house", "bicycle"), 120),
    Stimulus(3, "assets/test-stimuli/stimulus3.svg", ("bench", "fountain"), 90),
    Stimulus(4, "assets/test-stimuli/stimulus4.svg", ("tree", "flag"), 150),
    Stimulus(5, "assets/test-stimuli/stimulus5.svg", ("house", "park"), 75)
  ]

  /** An angle the dial can show: in [0, 360) and a multiple of 5. */
  predicate OnGrid(a: int)
  {
    0 <= a < 360 && a % 5 == 0
  }

  /** The ids run 1..5 in order and every correct angle is on the dial's grid. */
  lemma StimuliCatalog()
    ensures |stimuli| == 5
    ensures forall k :: 0 <= k < |stimuli| ==> stimuli[k].id == k + 1 && OnGrid(stimuli[k].correctAngle)
  {
  }

  // ---------------------------------------------------------------------------
  // The arrow-key stepper

  /** ArrowLeft: `(a - 5) % 360`, plus 360 when the remainder is negative. */
  function StepLeft(a: int): (r: int)
    ensures 0 <= a < 360 ==> r == (a + 355) % 360
  {
    var x := RemInt360(a - 5);
    if x < 0 then x + 360 else x
  }

  /** ArrowRight: `(a + 5) % 360`. */
  function StepRight(a: int): (r: int)
    ensures 0 <= a ==> r == (a + 5) % 360
  {
    RemInt360(a + 5)
  }

  /** The keys the response trial accepts. */
  datatype DialKey = ArrowLeft | ArrowRight | EnterKey

  function Stepped(a: int, key: DialKey): int
  {
    match key
    case ArrowLeft => StepLeft(a)
    case ArrowRight => StepRight(a)
    case EnterKey => a
  }

  /** Both steps keep the dial on its grid, and each undoes the other. */
  lemma StepsStayOnGrid(a: int)
    requires OnGrid(a)
    ensures OnGrid(StepLeft(a)) && OnGrid(StepRight(a))
    ensures StepRight(StepLeft(a)) == a && StepLeft(StepRight(a)) == a
  {
  }

  /** `n` presses of ArrowRight from angle `a`. */
  function RightPresses(a: int, n: nat): int
  {
    if n == 0 then a else StepRight(RightPresses(a, n - 1))
  }

  /** From 0, n presses of ArrowRight show 5n modulo 360. */
  lemma {:induction false} RightPressesFromZero(n: nat)
    ensures RightPresses(0, n) == (5 * n) % 360
  {
    if n > 0 {
      RightPressesFromZero(n - 1);
      var b, q := (5 * (n - 1)) % 360, (5 * (n - 1)) / 360;
      assert RightPresses(0, n) == (b + 5) % 360;
      assert 5 * n == 360 * q + (b + 5);
      ShiftByTurns(b + 5, q);
    }
  }

  /** Adding whole turns does not change an angle's remainder. */
  lemma ShiftByTurns(x: int, q: int)
    requires x >= 0 && q >= 0
    ensures (360 * q + x) % 360 == x % 360
  {
    var y := 360 * q + x;
    assert y == 360 * (q + x / 360) + x % 360;
  }

  /** Every grid angle, and so every scene's correct angle, is reached exactly
      from 0 by pressing ArrowRight a fifth of it times. */
  lemma GridReachableFromZero(a: int)
    requires OnGrid(a)
    ensures RightPresses(0, a / 5) == a
  {
    RightPressesFromZero(a / 5);
  }

  /** Five presses of ArrowRight from 0 show 25; one ArrowLeft from 0 shows 355. */
  lemma StepExamples()
    ensures RightPresses(0, 5) == 25
    ensures StepLeft(0) == 355
  {
    RightPressesFromZero(5);
  }

  // ---------------------------------------------------------------------------
  // A response trial

  /** The fields `on_finish` writes into the trial's data record. */
  datatype TrialData = TrialData(
    responseAngle: int,
    correctAngle: int,
    angleError: real,
    stimulusId: nat,
    rtSeconds: real,
    targetObject1: string,
    targetObject2: string)

  /** The global dial angle that the response trials share. */
  class ResponseDial {
    var currentAngle: int

    ghost predicate Valid()
      reads this
    {
      OnGrid(currentAngle)
    }

    /** `let currentAngle = 0`. */
    constructor()
      ensures currentAngle == 0 && Valid()
    {
      currentAngle := 0;
    }

    /** Drawing a trial's stimulus and loading the trial both put the dial at 0. */
    method Reset()
      modifies this
      ensures currentAngle == 0 && Valid()
    {
      currentAngle := 0;
    }

    /** `on_key_press`: the arrows step the dial; any other key leaves it. */
    method KeyPress(key: DialKey)
      modifies this
      ensures currentAngle == Stepped(old(currentAngle), key)
      ensures old(Valid()) ==> Valid()
    {
      if key == ArrowLeft {
        currentAngle := RemInt360(currentAngle - 5);
        if currentAngle < 0 {
          currentAngle := currentAngle + 360;
        }
      } else if key == ArrowRight {
        currentAngle := RemInt360(currentAngle + 5);
      }
      if old(Valid()) {
        StepsStayOnGrid(old(currentAngle));
      }
    }

    /** `on_finish`: score the dial against the scene after `rt` milliseconds. The
        error is the shortest arc between the two angles, 0 exactly on a hit. */
    method Finish(stimulus: Stimulus, rt: real) returns (data: TrialData)
      ensures data.responseAngle == currentAngle && data.correctAngle == stimulus.correctAngle
      ensures data.stimulusId == stimulus.id && data.rtSeconds == rt / 1000.0
      ensures data.targetObject1 == stimulus.targets.0 && data.targetObject2 == stimulus.targets.1
      ensures Valid() && 0 <= stimulus.correctAngle < 360 ==>
                && data.angleError == ArcDistance(currentAngle as real, stimulus.correctAngle as real)
                && 0.0 <= data.angleError <= 180.0
                && (data.angleError == 0.0 <==> currentAngle == stimulus.correctAngle)
    {
      var responseAngle := currentAngle;
      var correctAngle := stimulus.correctAngle;
      var angleDiff := Abs((responseAngle - correctAngle) as real);
      if angleDiff > 180.0 {
        angleDiff := 360.0 - angleDiff;
      }
      data := TrialData(responseAngle, correctAngle, angleDiff, stimulus.id, rt / 1000.0,
                        stimulus.targets.0, stimulus.targets.1);
      assert angleDiff == AngularError(responseAngle as real, correctAngle as real);
      if Valid() && 0 <= correctAngle < 360 {
        AngularErrorIsShortestArc(responseAngle as real, correctAngle as real);
      }
    }
  }

  /** A record as `on_finish` leaves it for an on-grid dial and a catalog scene. */
  ghost predicate Scored(d: TrialData)
  {
    && 0 <= d.responseAngle < 360 && 0 <= d.correctAngle < 360
    && d.angleError == AngularError(d.responseAngle as real, d.correctAngle as real)
    && d.rtSeconds >= 0.0
  }

  // ---------------------------------------------------------------------------
  // The timeline

  datatype TimelineNode =
    | Preload(images: seq<string>)
    | Instructions(pages: nat)
    | AngleTrial(stimulus: Stimulus)
    | CompletionPage

  /** The images the preload step fetches: the two instruction images, then each
      scene's image in catalog order. */
  function PreloadImages(stims: seq<Stimulus>): (images: seq<string>)
    ensures |images| == |stims| + 2
    ensures images[0] == "assets/instructions.svg" && images[1] == "assets/example.svg"
    ensures forall k :: 0 <= k < |stims| ==> images[k + 2] == stims[k].imagePath
  {
    ["assets/instructions.svg", "assets/example.svg"]
      + seq(|stims|, i requires 0 <= i < |stims| => stims[i].imagePath)
  }

  /** The timeline `initSpatialOrientationTest` runs: preload, the three pages of
      instructions, one response trial per scene in order, the completion page. */
  method BuildTimeline(stims: seq<Stimulus>) returns (timeline: seq<TimelineNode>)
    ensures |timeline| == |stims| + 3
    ensures timeline[0] == Preload(PreloadImages(stims)) && timeline[1] == Instructions(3)
    ensures forall k :: 0 <= k < |stims| ==> timeline[k + 2] == AngleTrial(stims[k])
    ensures timeline[|stims| + 2] == CompletionPage
  {
    timeline := [];
    timeline := timeline + [Preload(PreloadImages(stims))];
    timeline := timeline + [Instructions(3)];
    var i := 0;
    while i < |stims|
      invariant 0 <= i <= |stims|
      invariant |timeline| == i + 2
      invariant timeline[0] == Preload(PreloadImages(stims)) && timeline[1] == Instructions(3)
      invariant forall k :: 0 <= k < i ==> timeline[k + 2] == AngleTrial(stims[k])
    {
      timeline := timeline + [AngleTrial(stims[i])];
      i := i + 1;
    }
    timeline := timeline + [CompletionPage];
  }

  // ---------------------------------------------------------------------------
  // The completion page

  function AngleErrors(trials: seq<TrialData>): seq<real>
  {
    seq(|trials|, i requires 0 <= i < |trials| => trials[i].angleError)
  }

  function RtSeconds(trials: seq<TrialData>): seq<real>
  {
    seq(|trials|, i requires 0 <= i < |trials| => trials[i].rtSeconds)
  }

  /** What the completion page shows: thanks only, or the two averages. */
  datatype Completion = ThanksOnly | Results(averageError: int, averageTime: real)

  /** No averages without trials; otherwise the rounded mean error and the mean
      time rounded to a tenth: each the one whole unit (integer or tenth) within
      half a unit of the exact mean. */
  function CompletionSummary(trials: seq<TrialData>): (c: Completion)
    ensures c.ThanksOnly? <==> trials == []
    ensures trials != [] ==>
              var n := |trials| as real;
              && Sum(AngleErrors(trials)) / n - 0.5 < c.averageError as real <= Sum(AngleErrors(trials)) / n + 0.5
              && Sum(RtSeconds(trials)) / n - 0.05 < c.averageTime <= Sum(RtSeconds(trials)) / n + 0.05
              && WholeTenths(c.averageTime)
  {
    if |trials| == 0 then ThanksOnly
    else
      var n := |trials| as real;
      Results(Round(Sum(AngleErrors(trials)) / n), RoundTenth(Sum(RtSeconds(trials)) / n))
  }

  /** For scored trials the average error shown is in [0, 180] and the average
      time is at least 0 and at most the longest time, rounded up. */
  lemma CompletionBounds(trials: seq<TrialData>, maxSeconds: int)
    requires trials != []
    requires forall k :: 0 <= k < |trials| ==> Scored(trials[k]) && trials[k].rtSeconds <= maxSeconds as real
    ensures 0 <= CompletionSummary(trials).averageError <= 180
    ensures 0.0 <= CompletionSummary(trials).averageTime <= maxSeconds as real
  {
    var errors, times := AngleErrors(trials), RtSeconds(trials);
    var n := |trials|;
    forall k | 0 <= k < n ensures 0.0 <= errors[k] <= 180.0 {
      assert Scored(trials[k]);
    }
    SumWithin(errors, 0.0, 180.0);
    MeanWithin(Sum(errors), n, 0.0, 180.0);
    RoundWithin(Sum(errors) / (n as real), 0, 180);
    SumWithin(times, 0.0, maxSeconds as real);
    MeanWithin(Sum(times), n, 0.0, maxSeconds as real);
    RoundTenthWithin(Sum(times) / (n as real), 0, maxSeconds);
  }
}
