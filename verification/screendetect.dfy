/**
  The detector loop of `Screendetect`: a closed five-state machine that polls three
  fixed pixels and, between matches, clicks "play again" or "exit".

  One iteration of the source's `while not self.stopped` loop is `Step`; the colour
  tests are abstract observations and the explicit sleeps become a duration attached to each
  step. `Run` and `RunLoop` chain iterations, one per observation.
*/
module ScreenDetect {
  import opened Points

  /** The detector's states, in the order of their declaration. */
  datatype State = Idle | Detect | Exit | Play | Load

  /** What one pixel test reported: the colour matched within tolerance, it did not,
      or sampling the pixel raised. */
  datatype Probe = Match | NoMatch | Raised

  /** The three pixel tests of one Detect iteration, as they would report if run.
      The loop runs them lazily, play first, then load, then defeated. */
  datatype Observation = Observation(play: Probe, load: Probe, defeated: Probe)

  /** The four screen points fixed at construction. */
  datatype SamplePoints = SamplePoints(defeated: Point, playButton: Point, exitButton: Point, loadButton: Point)

  /** The detector object: its current state and the values fixed at construction. */
  datatype Detector = Detector(state: State, w: int, h: int, points: SamplePoints)

  /** An input action sent to the pointer: a left click at a point, or releasing the
      right button. */
  datatype Action = LeftClick(at: Point) | RightButtonUp

  /** One iteration: the detector afterwards, the actions emitted in order, and the
      total time the loop body explicitly sleeps, in milliseconds. */
  datatype StepResult = StepResult(next: Detector, actions: seq<Action>, delayMs: nat)

  /** Several iterations: the final detector, every action emitted, and the total
      explicit sleep. */
  datatype Trace = Trace(final: Detector, actions: seq<Action>, elapsedMs: nat)

  // Sleep durations of the loop body, in milliseconds.
  const IdleSettleMs: nat := 3000
  const DetectPollMs: nat := 10
  const LoadHoldMs: nat := 3000     // slept while the lock is held, before entering Load
  const PlaySettleMs: nat := 50     // slept once before and once after the click
  const LoadSettleMs: nat := 100
  const ExitWaitMs: nat := 5000
  const ExitSettleMs: nat := 50

  /** The longest time the loop body itself sleeps in one iteration; time spent inside the
      pointer and sampling calls is not counted. */
  const MaxStepDelayMs: nat := ExitWaitMs + ExitSettleMs

  /** A freshly constructed detector. */
  function Init(w: int, h: int, points: SamplePoints): (d: Detector)
    ensures d.state == Detect
    ensures d.w == w && d.h == h && d.points == points
  {
    Detector(Detect, w, h, points)
  }

  /** `e` keeps everything of `d` that is fixed at construction. */
  predicate SameConfig(d: Detector, e: Detector)
  {
    e.w == d.w && e.h == d.h && e.points == d.points
  }

  /** Every click in `acts` lands on the play button or the exit button. */
  predicate ClicksOnlyButtons(p: SamplePoints, acts: seq<Action>)
  {
    forall i :: 0 <= i < |acts| && acts[i].LeftClick? ==>
      acts[i].at == p.playButton || acts[i].at == p.exitButton
  }

  /** Every release of the right button is immediately followed by a click on the
      exit button. */
  predicate ReleaseThenExitClick(p: SamplePoints, acts: seq<Action>)
  {
    forall i :: 0 <= i < |acts| && acts[i] == RightButtonUp ==>
      i + 1 < |acts| && acts[i + 1] == LeftClick(p.exitButton)
  }

  /** True when some test of `obs` matched. */
  predicate AnyMatch(obs: Observation)
  {
    obs.play == Match || obs.load == Match || obs.defeated == Match
  }

  /** One iteration of the detector loop. */
  function Step(d: Detector, obs: Observation): (r: StepResult)
    ensures SameConfig(d, r.next)
    ensures ClicksOnlyButtons(d.points, r.actions)
    ensures ReleaseThenExitClick(d.points, r.actions)
    ensures r.delayMs <= MaxStepDelayMs
    ensures r.delayMs == MaxStepDelayMs <==> d.state == Exit
    // Idle: a pure delay, then back to polling.
    ensures d.state == Idle ==> r.next.state == Detect && r.actions == []
    // Detect: the tests decide the next state but never emit an action.
    ensures d.state == Detect ==> r.actions == []
    ensures d.state == Detect ==> (r.next.state == Play <==> obs.play == Match)
    ensures d.state == Detect ==> (r.next.state == Load <==> obs.play == NoMatch && obs.load == Match)
    ensures d.state == Detect ==>
      (r.next.state == Exit <==> obs.play == NoMatch && obs.load == NoMatch && obs.defeated == Match)
    ensures d.state == Detect && !AnyMatch(obs) ==> r.next.state == Detect
    ensures d.state == Detect && (obs.play == Raised || (obs.play == NoMatch && obs.load == Raised)) ==>
      r.next.state == Detect
    ensures d.state == Detect ==> r.next.state != Idle
    // Action states: a fixed action sequence, then Idle.
    ensures d.state == Play ==> r.next.state == Idle && r.actions == [LeftClick(d.points.playButton)]
    ensures d.state == Load ==> r.next.state == Idle && r.actions == []
    ensures d.state == Exit ==>
      r.next.state == Idle && r.actions == [RightButtonUp, LeftClick(d.points.exitButton)]
  {
    match d.state
    case Idle =>
      StepResult(d.(state := Detect), [], IdleSettleMs)
    case Detect =>
      // A test that raises abandons the rest of the chain; the state is left as it was.
      (match obs.play
       case Raised => StepResult(d, [], DetectPollMs)
       case Match => StepResult(d.(state := Play), [], DetectPollMs)
       case NoMatch =>
         (match obs.load
          case Raised => StepResult(d, [], DetectPollMs)
          case Match => StepResult(d.(state := Load), [], DetectPollMs + LoadHoldMs)
          case NoMatch =>
            if obs.defeated == Match then StepResult(d.(state := Exit), [], DetectPollMs)
            else StepResult(d, [], DetectPollMs)))
    case Play =>
      StepResult(d.(state := Idle), [LeftClick(d.points.playButton)], PlaySettleMs + PlaySettleMs)
    case Load =>
      StepResult(d.(state := Idle), [], LoadSettleMs)
    case Exit =>
      StepResult(d.(state := Idle), [RightButtonUp, LeftClick(d.points.exitButton)], ExitWaitMs + ExitSettleMs)
  }

  /** Reference reading of a priority-ordered chain of tests, independent of `Step`:
      the tests run in order, the first one that raises abandons the chain (the result
      is `fallback`), the first one that matches selects its target. */
  function Scan(tests: seq<(Probe, State)>, fallback: State): State
  {
    if |tests| == 0 then fallback
    else
      match tests[0].0
      case Raised => fallback
      case Match => tests[0].1
      case NoMatch => Scan(tests[1..], fallback)
  }

  /** The Detect tests in the order the loop runs them, each with the state it selects. */
  function DetectChain(obs: Observation): seq<(Probe, State)>
  {
    [(obs.play, Play), (obs.load, Load), (obs.defeated, Exit)]
  }

  /** From Detect, the next state is exactly what the priority chain play, load,
      defeated selects, staying in Detect when nothing is selected. */
  lemma DetectIsPriorityScan(d: Detector, obs: Observation)
    requires d.state == Detect
    ensures Step(d, obs).next.state == Scan(DetectChain(obs), Detect)
  {
  }

  /** The loop run for one iteration per observation, in order. */
  function Run(d: Detector, obs: seq<Observation>): (t: Trace)
    ensures SameConfig(d, t.final)
    ensures ClicksOnlyButtons(d.points, t.actions)
    ensures ReleaseThenExitClick(d.points, t.actions)
    ensures t.elapsedMs <= MaxStepDelayMs * |obs|
    decreases |obs|
  {
    if |obs| == 0 then
      Trace(d, [], 0)
    else
      var prev := Run(d, obs[..|obs| - 1]);
      var r := Step(prev.final, obs[|obs| - 1]);
      Trace(r.next, prev.actions + r.actions, prev.elapsedMs + r.delayMs)
  }

  /** The source's loop body executed iteration by iteration, one per observation. */
  method RunLoop(d: Detector, obs: seq<Observation>) returns (final: Detector, actions: seq<Action>, elapsedMs: nat)
    ensures Trace(final, actions, elapsedMs) == Run(d, obs)
    ensures SameConfig(d, final)
    ensures ClicksOnlyButtons(d.points, actions)
  {
    final, actions, elapsedMs := d, [], 0;
    var i := 0;
    while i < |obs|
      invariant 0 <= i <= |obs|
      invariant Trace(final, actions, elapsedMs) == Run(d, obs[..i])
    {
      var r := Step(final, obs[i]);
      assert obs[..i + 1][..i] == obs[..i];
      final, actions, elapsedMs := r.next, actions + r.actions, elapsedMs + r.delayMs;
      i := i + 1;
    }
    assert obs[..i] == obs;
  }

  /** Whatever the observations, the loop is back in Detect after at most two iterations. */
  lemma BackToDetectWithinTwoSteps(d: Detector, obs: seq<Observation>)
    requires |obs| >= 2
    ensures d.state == Detect
         || Run(d, obs[..1]).final.state == Detect
         || Run(d, obs[..2]).final.state == Detect
  {
  }

  /** Every state is reached from a freshly constructed detector by some observations. */
  lemma EveryStateReachable(w: int, h: int, points: SamplePoints, s: State)
    ensures exists obs :: |obs| <= 2 && Run(Init(w, h, points), obs).final.state == s
  {
    var d := Init(w, h, points);
    var none := Observation(NoMatch, NoMatch, NoMatch);
    var obs: seq<Observation>;
    match s
    case Detect =>
      obs := [];
    case Play =>
      obs := [Observation(Match, NoMatch, NoMatch)];
      assert obs[..0] == [];
    case Load =>
      obs := [Observation(NoMatch, Match, NoMatch)];
      assert obs[..0] == [];
    case Exit =>
      obs := [Observation(NoMatch, NoMatch, Match)];
      assert obs[..0] == [];
    case Idle =>
      obs := [Observation(Match, NoMatch, NoMatch), none];
      assert obs[..1] == [Observation(Match, NoMatch, NoMatch)];
      assert obs[..1][..0] == [];
    assert Run(d, obs).final.state == s;
  }
}
