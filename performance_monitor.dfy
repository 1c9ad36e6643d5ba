/**
 * The adaptive quality monitor of `src/hooks/usePerformanceMonitor.js`.
 *
 * Every rendered frame bumps a frame counter; once a second has passed since the last sample,
 * the count is pushed onto a five-entry history (oldest dropped first) and, when at least three
 * samples are present, their average may move the store's quality tier. Frames per second are
 * whole numbers, so "average < 30" is stated exactly as `Sum(history) < 30 * |history|`.
 */
module PerformanceMonitor {
  import opened Wrappers
  import opened Constants
  import opened UniverseStore

  const WindowSize: nat := 5
  const SampleIntervalMs: real := 1000.0

  /** `history.reduce((a, b) => a + b, 0)`. */
  function Sum(s: seq<nat>): nat {
    if s == [] then 0 else Sum(s[..|s| - 1]) + s[|s| - 1]
  }

  /** `fpsHistory.push(fps)`, then `shift()` once if the history has grown past five entries. */
  function PushSample(history: seq<nat>, fps: nat): seq<nat> {
    var pushed := history + [fps];
    if |pushed| > WindowSize then pushed[1..] else pushed
  }

  /**
   * The window keeps at most five samples, the newest last, and is always the most recent
   * stretch of everything pushed so far, in the order it arrived.
   */
  lemma PushSampleKeepsNewest(history: seq<nat>, fps: nat)
    requires |history| <= WindowSize
    ensures var h := PushSample(history, fps);
      && |h| == (if |history| == WindowSize then WindowSize else |history| + 1)
      && h[|h| - 1] == fps
      && h == (history + [fps])[|history| + 1 - |h|..]
  {}

  /** Pushing seven samples into an empty window keeps the last five, oldest first. */
  lemma SevenSamplesKeepLastFive()
    ensures PushSample(PushSample(PushSample(PushSample(PushSample(PushSample(PushSample(
      [], 1), 2), 3), 4), 5), 6), 7) == [3, 4, 5, 6, 7]
  {}

  /** The bundle written when switching to low quality. */
  const LowSettings := PerformancePatch(Some(Low), None, Some(100), Some(false), Some(false), None)

  /** The bundle written when switching to medium quality (from high or from low). */
  const MediumSettings := PerformancePatch(Some(Medium), None, Some(300), Some(false), Some(true), None)

  /** `avgFPS < bound`, for a non-empty history of whole frame counts. */
  predicate AverageBelow(history: seq<nat>, bound: nat) {
    Sum(history) < bound * |history|
  }

  /** `avgFPS > bound`. */
  predicate AverageAbove(history: seq<nat>, bound: nat) {
    Sum(history) > bound * |history|
  }

  /**
   * The `setPerformance` call the monitor makes after a sample, if any. The three guards are
   * tried in order: below 30 and not low; below 45 and high; above 55 and low.
   */
  function Adjustment(history: seq<nat>, tier: Tier): (r: Option<PerformancePatch>)
    ensures r == Some(LowSettings) <==> |history| >= 3 && AverageBelow(history, 30) && tier != Low
    ensures r == Some(MediumSettings) <==>
      && |history| >= 3
      && ((!AverageBelow(history, 30) && AverageBelow(history, 45) && tier == High)
          || (AverageAbove(history, 55) && tier == Low))
    ensures r.Some? ==> r == Some(LowSettings) || r == Some(MediumSettings)
  {
    if |history| < 3 then None
    else if AverageBelow(history, 30) && tier != Low then Some(LowSettings)
    else if AverageBelow(history, 45) && tier == High then Some(MediumSettings)
    else if AverageAbove(history, 55) && tier == Low then Some(MediumSettings)
    else None
  }

  /** Nothing changes before three samples are present, and no adjustment ever selects high quality. */
  lemma AdjustmentNeverPromotesToHigh(history: seq<nat>, tier: Tier)
    ensures |history| < 3 ==> Adjustment(history, tier) == None
    ensures Adjustment(history, tier).Some? ==> Adjustment(history, tier).value.quality != Some(High)
    ensures tier == Medium && Adjustment(history, tier).Some? ==> Adjustment(history, tier) == Some(LowSettings)
  {}

  /** Evaluating again with the same samples after a switch changes nothing: every guard then fails. */
  lemma AdjustmentIdempotent(history: seq<nat>, tier: Tier)
    requires Adjustment(history, tier).Some?
    ensures Adjustment(history, Adjustment(history, tier).value.quality.value) == None
  {}

  /**
   * The low-quality bundle turns `performance.enableParticles` off, but the emitters read
   * `effects.enableParticles`, which a switch leaves as it was.
   */
  lemma DowngradeLeavesEffectsParticlesOn(s: State)
    ensures WithPerformance(s, LowSettings).effects == s.effects
    ensures !WithPerformance(s, LowSettings).performance.enableParticles
    ensures WithPerformance(s, LowSettings).performance.maxParticles == 100
  {}

  /** Three slow seconds take high (and medium) straight to low; a 50 fps average does not lift low. */
  lemma SampleScenarios()
    ensures Adjustment([20, 20, 20], High) == Some(LowSettings)
    ensures Adjustment([28, 29, 27], Medium) == Some(LowSettings)
    ensures Adjustment([50, 50, 50], Low) == None
    ensures Adjustment([60, 60, 60], Low) == Some(MediumSettings)
    ensures Adjustment([40, 40], High) == None
  {
    assert Sum([20, 20, 20]) == 60 by { assert [20, 20, 20][..2] == [20, 20]; assert [20, 20][..1] == [20]; }
    assert Sum([28, 29, 27]) == 84 by { assert [28, 29, 27][..2] == [28, 29]; assert [28, 29][..1] == [28]; }
    assert Sum([50, 50, 50]) == 150 by { assert [50, 50, 50][..2] == [50, 50]; assert [50, 50][..1] == [50]; }
    assert Sum([60, 60, 60]) == 180 by { assert [60, 60, 60][..2] == [60, 60]; assert [60, 60][..1] == [60]; }
  }

  /** The monitor's refs: the frame counter, the time of the last sample and the sample window. */
  class Monitor {
    var frameCount: nat
    var lastTime: real
    var fpsHistory: seq<nat>

    ghost predicate Valid()
      reads this
    {
      |fpsHistory| <= WindowSize
    }

    constructor (now: real)
      ensures Valid() && frameCount == 0 && lastTime == now && fpsHistory == []
    {
      frameCount := 0;
      lastTime := now;
      fpsHistory := [];
    }

    /**
     * One rendered frame at clock reading `now` (milliseconds). Within a second of the last
     * sample only the counter moves; otherwise the frame count becomes a sample, the tier may
     * change in `store`, and the counter and clock restart.
     */
    method OnFrame(now: real, store: Store)
      requires Valid()
      modifies this, store
      ensures Valid()
      ensures now - old(lastTime) < SampleIntervalMs ==>
        && frameCount == old(frameCount) + 1
        && lastTime == old(lastTime)
        && fpsHistory == old(fpsHistory)
        && store.state == old(store.state)
      ensures now - old(lastTime) >= SampleIntervalMs ==>
        && frameCount == 0
        && lastTime == now
        && fpsHistory == PushSample(old(fpsHistory), old(frameCount) + 1)
        && store.state == match Adjustment(fpsHistory, old(store.state.performance.quality))
                          case None => old(store.state)
                          case Some(patch) => WithPerformance(old(store.state), patch)
    {
      frameCount := frameCount + 1;
      var currentTime := now;
      if currentTime - lastTime >= SampleIntervalMs {
        var fps := frameCount;
        fpsHistory := fpsHistory + [fps];
        if |fpsHistory| > WindowSize {
          fpsHistory := fpsHistory[1..];
        }
        var sum := Sum(fpsHistory);
        var n := |fpsHistory|;
        var quality := store.state.performance.quality;
        if n >= 3 {
          if sum < 30 * n && quality != Low {
            store.SetPerformance(LowSettings);
          } else if sum < 45 * n && quality == High {
            store.SetPerformance(MediumSettings);
          } else if sum > 55 * n && quality == Low {
            store.SetPerformance(MediumSettings);
          }
        }
        frameCount := 0;
        lastTime := currentTime;
      }
    }
  }
}
