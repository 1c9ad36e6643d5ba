/**
 * The loading screen of `src/components/LoadingScreen.jsx`: a 200 ms interval adds a random
 * amount below 20 to the progress, stops at exactly 100, and switches the caption to the step
 * the progress has reached. `Math.random()` is the `draw` argument of each tick.
 */
module LoadingScreen {

  /** The captions, one per tenth of the progress. */
  const Steps: seq<string> := [
    "Initializing Universe...",
    "Loading Solar System...",
    "Positioning Planets...",
    "Calculating Orbits...",
    "Rendering Stars...",
    "Creating Particle Systems...",
    "Generating Comets...",
    "Activating Solar Wind...",
    "Calibrating Nebulae...",
    "Finalizing Scene..."
  ]

  /** The interval's period, in milliseconds. */
  const TickMs: nat := 200

  /** The progress after one tick: the previous value plus `draw * 20`, or exactly 100 once that reaches 100. */
  function NextProgress(prev: real, draw: real): real {
    if prev + draw * 20.0 >= 100.0 then 100.0 else prev + draw * 20.0
  }

  /** Progress never falls, never passes 100, grows by less than 20 a tick, and is 100 exactly when the sum reaches it. */
  lemma NextProgressBounds(prev: real, draw: real)
    requires 0.0 <= prev <= 100.0 && 0.0 <= draw < 1.0
    ensures var p := NextProgress(prev, draw);
      && prev <= p <= 100.0
      && p - prev < 20.0
      && (p == 100.0 <==> prev + draw * 20.0 >= 100.0)
  {}

  /** `Math.floor((progress / 100) * steps.length)`. */
  function StepIndex(p: real): int {
    ((p / 100.0) * (|Steps| as real)).Floor
  }

  /** Below 100 the step index is a valid caption index, so the length guard never rejects one. */
  lemma StepIndexInRange(p: real)
    requires 0.0 <= p < 100.0
    ensures 0 <= StepIndex(p) < |Steps|
  {
    assert (p / 100.0) * 10.0 < 10.0;
  }

  /** More progress never shows an earlier caption. */
  lemma StepIndexMonotone(p: real, q: real)
    requires p <= q
    ensures StepIndex(p) <= StepIndex(q)
  {
    assert (p / 100.0) * 10.0 <= (q / 100.0) * 10.0;
  }

  /** `Math.round(progress)`: the nearest integer, halves rounded up. */
  function Percent(p: real): int {
    (p + 0.5).Floor
  }

  lemma PercentRange(p: real)
    requires 0.0 <= p <= 100.0
    ensures 0 <= Percent(p) <= 100
    ensures Percent(0.0) == 0 && Percent(100.0) == 100
    ensures -0.5 < Percent(p) as real - p <= 0.5
  {}

  /** The component's state and the interval's closure variable. */
  class Loader {
    var progress: real
    var text: string
    var currentStep: nat
    /** Whether the interval is still registered. */
    var running: bool

    /**
     * Progress stays in [0, 100]; the interval runs exactly while it is below 100; the caption is
     * the current step's, and while loading the current step is the one the progress has reached.
     */
    ghost predicate Valid()
      reads this
    {
      && 0.0 <= progress <= 100.0
      && currentStep < |Steps|
      && text == Steps[currentStep]
      && (running <==> progress < 100.0)
      && (running ==> currentStep == StepIndex(progress))
    }

    constructor ()
      ensures Valid() && running
      ensures progress == 0.0 && text == Steps[0] && currentStep == 0
    {
      progress := 0.0;
      text := Steps[0];
      currentStep := 0;
      running := true;
      assert StepIndex(0.0) == 0;
    }

    /** One firing of the interval; once it is cleared, nothing fires and nothing changes. */
    method Tick(draw: real)
      requires Valid() && 0.0 <= draw < 1.0
      modifies this
      ensures Valid()
      ensures !old(running) ==> progress == old(progress) && text == old(text) && currentStep == old(currentStep) && !running
      ensures old(running) ==> progress == NextProgress(old(progress), draw)
      ensures old(running) && progress < 100.0 && StepIndex(progress) != old(currentStep) ==> text == Steps[StepIndex(progress)]
      ensures old(running) && (progress == 100.0 || StepIndex(progress) == old(currentStep)) ==> text == old(text) && currentStep == old(currentStep)
    {
      if !running {
        return;
      }
      var newProgress := progress + draw * 20.0;
      if newProgress >= 100.0 {
        running := false;
        progress := 100.0;
        return;
      }
      var stepIndex := ((newProgress / 100.0) * (|Steps| as real)).Floor;
      StepIndexInRange(newProgress);
      if stepIndex != currentStep && stepIndex < |Steps| {
        currentStep := stepIndex;
        text := Steps[stepIndex];
      }
      progress := newProgress;
    }
  }
}
