/**
 * The response-curve display: a dirty flag that parameter changes set and a
 * 30 Hz timer tests and clears, a mono chain the timer retunes, and the
 * drawing of the chain's magnitude response as one path point per pixel column.
 * The library's frequency response of one biquad, the logarithmic frequency
 * mapping and the gain-to-decibel conversion are given functions.
 */
module ResponseCurve {
  import opened Settings
  import opened CutFilters
  import opened Chains
  import opened Parameters

  // ---------------------------------------------------------------------------
  // The dirty flag as a two-state machine

  /** What can happen to the flag: a listener callback, or a timer tick. */
  datatype Event = ParameterChanged | TimerTick

  /** The flag after one event, and whether that event recomputed the curve. */
  datatype FlagStep = FlagStep(changed: bool, recompute: bool)

  /** A parameter change sets the flag; a tick clears it and recomputes exactly when it was set. */
  function Step(changed: bool, e: Event): (r: FlagStep)
    ensures r.changed <==> e == ParameterChanged
    ensures r.recompute <==> e == TimerTick && changed
  {
    match e
    case ParameterChanged => FlagStep(true, false)
    case TimerTick => FlagStep(false, changed)
  }

  /** The flag after a sequence of events, and how many recomputations they caused. */
  datatype RunResult = RunResult(changed: bool, recomputes: nat)

  function Run(changed: bool, events: seq<Event>): (r: RunResult)
    ensures events == [] ==> r == RunResult(changed, 0)
    ensures events != [] ==> (r.changed <==> events[|events| - 1] == ParameterChanged)
    ensures r.recomputes <= |events|
  {
    if events == [] then RunResult(changed, 0)
    else
      var before := Run(changed, events[..|events| - 1]);
      var step := Step(before.changed, events[|events| - 1]);
      RunResult(step.changed, before.recomputes + if step.recompute then 1 else 0)
  }

  /** The number of parameter changes among the events. */
  function Changes(events: seq<Event>): nat {
    if events == [] then 0
    else Changes(events[..|events| - 1]) + if events[|events| - 1] == ParameterChanged then 1 else 0
  }

  /** The curve is never recomputed more often than the parameters changed (counting a change already
      pending at the start); a change still pending is counted too. */
  lemma {:induction false} RecomputesBoundedByChanges(changed: bool, events: seq<Event>)
    ensures Run(changed, events).recomputes + (if Run(changed, events).changed then 1 else 0)
            <= Changes(events) + (if changed then 1 else 0)
  {
    if events != [] {
      RecomputesBoundedByChanges(changed, events[..|events| - 1]);
    }
  }

  /** Ticks with no parameter change in between recompute at most once: only the first, and only if the flag was set. */
  lemma {:induction false} QuietTicks(changed: bool, events: seq<Event>)
    requires forall i :: 0 <= i < |events| ==> events[i] == TimerTick
    ensures Run(changed, events) ==
      if events == [] then RunResult(changed, 0) else RunResult(false, if changed then 1 else 0)
  {
    if events != [] {
      QuietTicks(changed, events[..|events| - 1]);
    }
  }

  /** Run over a history followed by more events is the run of the more events from where the history left off. */
  lemma {:induction false} RunAppend(changed: bool, history: seq<Event>, more: seq<Event>)
    ensures Run(changed, history + more) ==
      var h := Run(changed, history);
      var m := Run(h.changed, more);
      RunResult(m.changed, h.recomputes + m.recomputes)
  {
    if more == [] {
      assert history + more == history;
    } else {
      assert (history + more)[..|history + more| - 1] == history + more[..|more| - 1];
      RunAppend(changed, history, more[..|more| - 1]);
    }
  }

  /** After any history, two consecutive ticks recompute at most once. */
  lemma TwoTicksRecomputeAtMostOnce(changed: bool, history: seq<Event>)
    ensures Run(changed, history + [TimerTick, TimerTick]).recomputes <= Run(changed, history).recomputes + 1
  {
    RunAppend(changed, history, [TimerTick, TimerTick]);
    QuietTicks(Run(changed, history).changed, [TimerTick, TimerTick]);
  }

  /** A change is never lost: the tick that follows it recomputes and clears the flag. */
  lemma ChangeThenTickRecomputes(changed: bool, history: seq<Event>)
    ensures Run(changed, history + [ParameterChanged, TimerTick]) ==
      RunResult(false, Run(changed, history).recomputes + 1)
  {
    RunAppend(changed, history, [ParameterChanged, TimerTick]);
    assert [ParameterChanged, TimerTick][..1] == [ParameterChanged];
  }

  // ---------------------------------------------------------------------------
  // Mapping decibels to pixel rows and building the path

  /** An integer rectangle; getBottom() is y + height. */
  datatype Rect = Rect(x: int, y: int, width: nat, height: nat) {
    function Bottom(): int { y + height }
  }

  /** jmap: the linear map taking [sourceMin, sourceMax] onto [targetMin, targetMax]. */
  function Jmap(v: real, sourceMin: real, sourceMax: real, targetMin: real, targetMax: real): (r: real)
    requires sourceMin != sourceMax
    ensures v == sourceMin ==> r == targetMin
    ensures v == sourceMax ==> r == targetMax
  {
    CancelDivision(targetMax - targetMin, sourceMax - sourceMin);
    targetMin + (targetMax - targetMin) * (v - sourceMin) / (sourceMax - sourceMin)
  }

  lemma CancelDivision(x: real, y: real)
    requires y != 0.0
    ensures x * y / y == x
  {
  }

  /** The display's clamp to [-24, 24] dB. */
  function ClampDecibels(db: real): (m: real)
    ensures -24.0 <= m <= 24.0
    ensures -24.0 <= db <= 24.0 ==> m == db
  {
    if db > 24.0 then 24.0 else if db < -24.0 then -24.0 else db
  }

  /** The curve's map lambda: clamp to [-24, 24] dB, then map -24 dB to outputMin (the bottom) and +24 dB to outputMax (the top). */
  function MapToScreen(db: real, outputMin: real, outputMax: real): (y: real)
    ensures outputMax <= outputMin ==> outputMax <= y <= outputMin
    ensures db <= -24.0 ==> y == outputMin
    ensures db >= 24.0 ==> y == outputMax
  {
    var m := ClampDecibels(db);
    FractionBounds(m);
    Jmap(m, -24.0, 24.0, outputMin, outputMax)
  }

  /** How far a clamped value lies across the range [-24, 24]. */
  lemma FractionBounds(m: real)
    requires -24.0 <= m <= 24.0
    ensures forall lo: real, hi: real {:trigger Jmap(m, -24.0, 24.0, lo, hi)} :: hi <= lo ==>
      hi <= Jmap(m, -24.0, 24.0, lo, hi) <= lo
  {
    forall lo: real, hi: real | hi <= lo
      ensures hi <= Jmap(m, -24.0, 24.0, lo, hi) <= lo
    {
      var t, a := (m + 24.0) / 48.0, lo - hi;
      assert 0.0 <= t <= 1.0;
      assert Jmap(m, -24.0, 24.0, lo, hi) == lo - a * t;
      MulBounds(a, t);
    }
  }

  lemma MulBounds(a: real, t: real)
    requires 0.0 <= a && 0.0 <= t <= 1.0
    ensures 0.0 <= a * t <= a
  {
  }

  /** A louder point is never drawn lower: with the top above the bottom the map is antitone in dB. */
  lemma MapToScreenMonotone(db1: real, db2: real, outputMin: real, outputMax: real)
    requires db1 <= db2 && outputMax <= outputMin
    ensures MapToScreen(db2, outputMin, outputMax) <= MapToScreen(db1, outputMin, outputMax)
  {
    var m1, m2 := ClampDecibels(db1), ClampDecibels(db2);
    assert m1 <= m2;
    JmapDifference(m1, m2, outputMin, outputMax);
    MulNonNegative(outputMin - outputMax, m2 - m1);
    assert (outputMax - outputMin) * (m2 - m1) == -((outputMin - outputMax) * (m2 - m1));
  }

  lemma JmapDifference(u: real, v: real, lo: real, hi: real)
    ensures Jmap(v, -24.0, 24.0, lo, hi) - Jmap(u, -24.0, 24.0, lo, hi) == (hi - lo) * (v - u) / 48.0
  {
    assert (hi - lo) * (v + 24.0) - (hi - lo) * (u + 24.0) == (hi - lo) * (v - u);
  }

  lemma MulNonNegative(a: real, b: real)
    requires 0.0 <= a && 0.0 <= b
    ensures 0.0 <= a * b
  {
  }

  /** One element of a juce::Path: the start of a sub-path, or a line to a point. */
  datatype PathElement = StartNewSubPath(x: real, y: real) | LineTo(x: real, y: real)

  /** The row of column i's point. */
  function CurveRow(area: Rect, db: real): (row: real)
    ensures area.y as real <= row <= area.Bottom() as real
    ensures db <= -24.0 ==> row == area.Bottom() as real
    ensures db >= 24.0 ==> row == area.y as real
  {
    MapToScreen(db, area.Bottom() as real, area.y as real)
  }

  /**
   * The response path: a sub-path starts at column 0 with the first magnitude
   * and a line runs to column i for every later magnitude. The first magnitude
   * is read with front(), which needs at least one.
   */
  method ResponseCurvePath(area: Rect, mags: seq<real>) returns (path: seq<PathElement>)
    requires |mags| > 0
    ensures |path| == |mags|
    ensures path[0] == StartNewSubPath(area.x as real, CurveRow(area, mags[0]))
    ensures forall i :: 1 <= i < |mags| ==> path[i] == LineTo((area.x + i) as real, CurveRow(area, mags[i]))
    ensures forall i :: 0 <= i < |path| ==> path[i].x == (area.x + i) as real
    ensures forall i :: 0 <= i < |path| ==> area.y as real <= path[i].y <= area.Bottom() as real
  {
    path := [StartNewSubPath(area.x as real, CurveRow(area, mags[0]))];
    var i := 1;
    while i < |mags|
      invariant 1 <= i <= |mags| && |path| == i
      invariant path[0] == StartNewSubPath(area.x as real, CurveRow(area, mags[0]))
      invariant forall k :: 1 <= k < i ==> path[k] == LineTo((area.x + k) as real, CurveRow(area, mags[k]))
    {
      path := path + [LineTo((area.x + i) as real, CurveRow(area, mags[i]))];
      i := i + 1;
    }
  }

  // ---------------------------------------------------------------------------
  // The magnitude response of a chain, one value per pixel column

  /** The frequency drawn at column i of w: mapToLog10(i / w, 20, 20000). */
  function ColumnFrequency(i: nat, w: nat, mapToLog10: (real, real, real) -> real): (f: real)
    requires i < w
    ensures f == mapToLog10(ColumnFraction(i, w), 20.0, 20000.0)
  {
    mapToLog10(i as real / w as real, 20.0, 20000.0)
  }

  /** How far across the area column i of w lies: i / w, in [0, 1). */
  function ColumnFraction(i: nat, w: nat): (t: real)
    requires i < w
    ensures 0.0 <= t < 1.0
  {
    i as real / w as real
  }

  /** Column i's fraction is its share of the width, and columns further right lie at a strictly
      larger fraction, so at a higher frequency for an increasing mapToLog10. */
  lemma ColumnFractionsIncrease(i: nat, j: nat, w: nat)
    requires i < j < w
    ensures ColumnFraction(i, w) * w as real == i as real
    ensures ColumnFraction(i, w) < ColumnFraction(j, w)
  {
    var ti, tj := ColumnFraction(i, w), ColumnFraction(j, w);
    assert tj - ti == (j - i) as real / w as real;
  }

  /**
   * The magnitude at one frequency: start at 1 and multiply in the response of
   * each band (unless its chain position is bypassed) and of each low-cut and
   * high-cut stage (unless that stage is bypassed).
   */
  method PixelMagnitude<C>(chain: MonoChain<C>, freq: real, sampleRate: real, magnitudeOf: (C, real, real) -> real)
    returns (mag: real)
    requires chain.Valid()
    ensures mag == ChainMagnitude(chain.State(), freq, sampleRate, magnitudeOf)
  {
    var stages := PaintedStages(chain.State());
    mag := MultiplyStages(stages, freq, sampleRate, magnitudeOf);
    AccumulatedIsLiveProduct(stages, freq, sampleRate, magnitudeOf);
  }

  /** The eleven multiplications of the paint loop, in the chain's order. */
  method MultiplyStages<C>(stages: seq<Stage<C>>, freq: real, sampleRate: real, magnitudeOf: (C, real, real) -> real)
    returns (mag: real)
    requires |stages| == BandCount + 2 * StageCount
    ensures mag == Accumulated(stages, freq, sampleRate, magnitudeOf)
  {
    mag := 1.0;
    assert stages[..0] == [];
    mag := MultiplyStage(stages, 0, mag, freq, sampleRate, magnitudeOf);   // band 1
    mag := MultiplyStage(stages, 1, mag, freq, sampleRate, magnitudeOf);   // band 2
    mag := MultiplyStage(stages, 2, mag, freq, sampleRate, magnitudeOf);   // band 3
    mag := MultiplyStage(stages, 3, mag, freq, sampleRate, magnitudeOf);   // low-cut stages 0..3
    mag := MultiplyStage(stages, 4, mag, freq, sampleRate, magnitudeOf);
    mag := MultiplyStage(stages, 5, mag, freq, sampleRate, magnitudeOf);
    mag := MultiplyStage(stages, 6, mag, freq, sampleRate, magnitudeOf);
    mag := MultiplyStage(stages, 7, mag, freq, sampleRate, magnitudeOf);   // high-cut stages 0..3
    mag := MultiplyStage(stages, 8, mag, freq, sampleRate, magnitudeOf);
    mag := MultiplyStage(stages, 9, mag, freq, sampleRate, magnitudeOf);
    mag := MultiplyStage(stages, 10, mag, freq, sampleRate, magnitudeOf);
    assert stages[..11] == stages;
  }

  /** One `if (!bypassed) mag *= magnitude` of the paint loop: stage k is multiplied in unless it is bypassed. */
  method MultiplyStage<C>(stages: seq<Stage<C>>, k: nat, mag: real, freq: real, sampleRate: real,
                          magnitudeOf: (C, real, real) -> real) returns (r: real)
    requires k < |stages| && mag == Accumulated(stages[..k], freq, sampleRate, magnitudeOf)
    ensures r == Accumulated(stages[..k + 1], freq, sampleRate, magnitudeOf)
    ensures r == if stages[k].bypassed then mag else mag * magnitudeOf(stages[k].coefs, freq, sampleRate)
  {
    r := mag;
    if !stages[k].bypassed {
      r := mag * magnitudeOf(stages[k].coefs, freq, sampleRate);
    }
    AccumulatedStep(stages, k, freq, sampleRate, magnitudeOf);
  }

  /** The decibel magnitude of every pixel column, w values in all. */
  method ResponseMagnitudes<C>(chain: MonoChain<C>, w: nat, sampleRate: real, magnitudeOf: (C, real, real) -> real,
                               mapToLog10: (real, real, real) -> real, gainToDecibels: real -> real)
    returns (mags: seq<real>)
    requires chain.Valid()
    ensures |mags| == w
    ensures forall i :: 0 <= i < w ==>
      mags[i] == gainToDecibels(ChainMagnitude(chain.State(), ColumnFrequency(i, w, mapToLog10), sampleRate, magnitudeOf))
  {
    mags := seq(w, _ => 0.0);
    for i := 0 to w
      invariant |mags| == w
      invariant forall j :: 0 <= j < i ==>
        mags[j] == gainToDecibels(ChainMagnitude(chain.State(), ColumnFrequency(j, w, mapToLog10), sampleRate, magnitudeOf))
    {
      var freq := ColumnFrequency(i, w, mapToLog10);
      var mag := PixelMagnitude(chain, freq, sampleRate, magnitudeOf);
      mags := mags[i := gainToDecibels(mag)];
    }
  }

  // ---------------------------------------------------------------------------
  // The component

  class ResponseCurveComponent<C> {
    var parametersChanged: bool
    const monoChain: MonoChain<C>

    ghost predicate Valid() {
      monoChain.Valid()
    }

    /** A fresh component: the flag clear, and a default chain that nothing retunes until the first
        parameter change. Listener registration and starting the timer are not modelled. */
    constructor (identity: C)
      ensures Valid() && fresh(monoChain.Repr()) && !parametersChanged
      ensures monoChain.State() == InitialChain(identity)
    {
      parametersChanged := false;
      monoChain := new MonoChain(identity);
    }

    /** parameterValueChanged: whatever the parameter and value, set the flag. */
    method ParameterValueChanged(parameterIndex: int, newValue: real)
      modifies this`parametersChanged
      ensures parametersChanged == Step(old(parametersChanged), ParameterChanged).changed
    {
      parametersChanged := true;
    }

    /**
     * timerCallback: compare-and-set the flag from true to false; if that
     * succeeded, snapshot the parameters, set the three bands and update both
     * cascades with their own slopes, and ask for a repaint.
     */
    method TimerCallback(raw: map<string, real>, sampleRate: real, d: FilterDesign<C>) returns (repaint: bool)
      requires Valid() && d.Sound()
      requires HasAllIds(raw) && IsSlopeIndex(raw[LowCutSlopeId]) && IsSlopeIndex(raw[HighCutSlopeId])
      modifies this`parametersChanged, monoChain.Repr()
      ensures FlagStep(parametersChanged, repaint) == Step(old(parametersChanged), TimerTick)
      ensures repaint ==> monoChain.State() == Retuned(old(monoChain.State()), GetChainSettings(raw), sampleRate, d)
      ensures !repaint ==> monoChain.State() == old(monoChain.State())
    {
      repaint := parametersChanged;
      if parametersChanged {
        parametersChanged := false;
        var chainSettings := GetChainSettings(raw);
        var bandCoefficients := BandCoefficients(chainSettings, sampleRate, d);
        monoChain.SetBand(0, bandCoefficients[0]);
        monoChain.SetBand(1, bandCoefficients[1]);
        monoChain.SetBand(2, bandCoefficients[2]);
        assert monoChain.State().bands == bandCoefficients;
        var lowCutCoefficients := LowCutCoefficients(chainSettings, sampleRate, d);
        var highCutCoefficients := HighCutCoefficients(chainSettings, sampleRate, d);
        monoChain.lowCut.UpdateCutFilter(lowCutCoefficients, SlopeValue(chainSettings.lowCutSlope));
        monoChain.highCut.UpdateCutFilter(highCutCoefficients, SlopeValue(chainSettings.highCutSlope));
      }
    }

    /**
     * The modelled part of paint: one decibel magnitude per column of the
     * response area, then the path through them. Stroking and the border are
     * not modelled.
     */
    method Paint(responseArea: Rect, sampleRate: real, magnitudeOf: (C, real, real) -> real,
                 mapToLog10: (real, real, real) -> real, gainToDecibels: real -> real)
      returns (responseCurve: seq<PathElement>)
      requires Valid() && responseArea.width > 0
      ensures |responseCurve| == responseArea.width
      ensures forall i :: 0 <= i < responseArea.width ==>
        && responseCurve[i].x == (responseArea.x + i) as real
        && responseCurve[i].y == CurveRow(responseArea, gainToDecibels(ChainMagnitude(monoChain.State(),
             ColumnFrequency(i, responseArea.width, mapToLog10), sampleRate, magnitudeOf)))
        && responseArea.y as real <= responseCurve[i].y <= responseArea.Bottom() as real
    {
      var mags := ResponseMagnitudes(monoChain, responseArea.width, sampleRate, magnitudeOf, mapToLog10, gainToDecibels);
      responseCurve := ResponseCurvePath(responseArea, mags);
    }
  }
}
