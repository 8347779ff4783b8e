/**
 * A mono processing chain: low-cut cascade, three peak bands, high-cut cascade.
 * The rule by which both the processor and the response-curve display retune
 * a chain from a ChainSettings snapshot, and the magnitude product the display
 * draws from a chain.
 */
module Chains {
  import opened Settings
  import opened CutFilters

  const BandCount := 3
  const PositionCount := 5

  /** The observable state of a chain. `bypassed` holds the chain's own flag for each of its five positions. */
  datatype ChainState<C> = ChainState(lowCut: CutState<C>, bands: seq<C>, bypassed: seq<bool>, highCut: CutState<C>) {
    ghost predicate WellFormed() {
      lowCut.WellFormed() && highCut.WellFormed() && |bands| == BandCount && |bypassed| == PositionCount
    }
  }

  /**
   * The coefficient-design routines of the DSP library, taken as given functions:
   * a peak filter from (sample rate, frequency, quality, linear gain), the
   * decibel-to-gain conversion, and Butterworth high-pass and low-pass
   * designers from (frequency, sample rate, order).
   */
  datatype FilterDesign<C> = FilterDesign(
    makePeakFilter: (real, real, real, real) -> C,
    decibelsToGain: real -> real,
    highPass: (real, real, int) -> seq<C>,
    lowPass: (real, real, int) -> seq<C>)
  {
    /** A high-order Butterworth design of even order returns one second-order section per two poles. */
    ghost predicate Sound() {
      && (forall f, sampleRate, order :: order > 0 && order % 2 == 0 ==> |highPass(f, sampleRate, order)| == order / 2)
      && (forall f, sampleRate, order :: order > 0 && order % 2 == 0 ==> |lowPass(f, sampleRate, order)| == order / 2)
    }
  }

  /** The peak-filter coefficients of Band1..Band3. */
  function BandCoefficients<C>(s: ChainSettings, sampleRate: real, d: FilterDesign<C>): (bands: seq<C>)
    ensures |bands| == BandCount
  {
    [ d.makePeakFilter(sampleRate, s.band1Freq, s.band1Quality, d.decibelsToGain(s.band1GainInDecibels)),
      d.makePeakFilter(sampleRate, s.band2Freq, s.band2Quality, d.decibelsToGain(s.band2GainInDecibels)),
      d.makePeakFilter(sampleRate, s.band3Freq, s.band3Quality, d.decibelsToGain(s.band3GainInDecibels)) ]
  }

  /** The low-cut sections: a high-pass design of order 2 * (slope + 1). */
  function LowCutCoefficients<C>(s: ChainSettings, sampleRate: real, d: FilterDesign<C>): (cs: seq<C>)
    ensures d.Sound() ==> |cs| == SlopeValue(s.lowCutSlope) + 1
  {
    d.highPass(s.lowCutFreq, sampleRate, ButterworthOrder(s.lowCutSlope))
  }

  /** The high-cut sections: a low-pass design of order 2 * (slope + 1). */
  function HighCutCoefficients<C>(s: ChainSettings, sampleRate: real, d: FilterDesign<C>): (cs: seq<C>)
    ensures d.Sound() ==> |cs| == SlopeValue(s.highCutSlope) + 1
  {
    d.lowPass(s.highCutFreq, sampleRate, ButterworthOrder(s.highCutSlope))
  }

  /** Each designed cascade supplies exactly one section per stage its slope enables,
      so every stage the update indexes exists and none is left without a section. */
  lemma DesignCoversSlope<C>(s: ChainSettings, sampleRate: real, d: FilterDesign<C>)
    requires d.Sound()
    ensures Covers(LowCutCoefficients(s, sampleRate, d), SlopeValue(s.lowCutSlope))
    ensures Covers(HighCutCoefficients(s, sampleRate, d), SlopeValue(s.highCutSlope))
    ensures |LowCutCoefficients(s, sampleRate, d)| == 2 * (SlopeValue(s.lowCutSlope) + 1) / 2
    ensures |HighCutCoefficients(s, sampleRate, d)| == 2 * (SlopeValue(s.highCutSlope) + 1) / 2
  {
  }

  /** Stage i of a cascade set from slope s: live exactly for i <= s, holding section i; otherwise bypassed and unchanged. */
  ghost predicate CutSetTo<C>(r: CutState<C>, old_: CutState<C>, cs: seq<C>, s: Slope)
    requires r.WellFormed() && old_.WellFormed()
  {
    forall i :: 0 <= i < StageCount ==>
      && (r.bypassed[i] <==> SlopeValue(s) < i)
      && (i <= SlopeValue(s) ==> i < |cs| && r.coefs[i] == cs[i])
      && (SlopeValue(s) < i ==> r.coefs[i] == old_.coefs[i])
  }

  /**
   * What processBlock and the display's timer do to one chain: replace the three
   * band coefficients, then update both cascades with their designed sections
   * and their own slopes. The positions' own bypass flags are not touched.
   */
  function Retuned<C>(st: ChainState<C>, s: ChainSettings, sampleRate: real, d: FilterDesign<C>): (r: ChainState<C>)
    requires st.WellFormed() && d.Sound()
    ensures r.WellFormed()
    ensures r.bands == BandCoefficients(s, sampleRate, d) && r.bypassed == st.bypassed
    ensures CutSetTo(r.lowCut, st.lowCut, LowCutCoefficients(s, sampleRate, d), s.lowCutSlope)
    ensures CutSetTo(r.highCut, st.highCut, HighCutCoefficients(s, sampleRate, d), s.highCutSlope)
  {
    ChainState(
      UpdatedCut(st.lowCut, LowCutCoefficients(s, sampleRate, d), SlopeValue(s.lowCutSlope)),
      BandCoefficients(s, sampleRate, d),
      st.bypassed,
      UpdatedCut(st.highCut, HighCutCoefficients(s, sampleRate, d), SlopeValue(s.highCutSlope)))
  }

  /** What prepareToPlay does to one chain: bands and low-cut as in Retuned; the high-cut cascade is left as it was. */
  function Prepared<C>(st: ChainState<C>, s: ChainSettings, sampleRate: real, d: FilterDesign<C>): (r: ChainState<C>)
    requires st.WellFormed() && d.Sound()
    ensures r.WellFormed()
    ensures r.bands == BandCoefficients(s, sampleRate, d) && r.bypassed == st.bypassed
    ensures CutSetTo(r.lowCut, st.lowCut, LowCutCoefficients(s, sampleRate, d), s.lowCutSlope)
    ensures r.highCut == st.highCut
  {
    ChainState(
      UpdatedCut(st.lowCut, LowCutCoefficients(s, sampleRate, d), SlopeValue(s.lowCutSlope)),
      BandCoefficients(s, sampleRate, d),
      st.bypassed,
      st.highCut)
  }

  /** Two cascades that are indistinguishable in use: the same flags, and the same sections on every live stage. */
  ghost predicate CutAgree<C>(a: CutState<C>, b: CutState<C>)
    requires a.WellFormed() && b.WellFormed()
  {
    a.bypassed == b.bypassed && forall i :: 0 <= i < StageCount && !a.bypassed[i] ==> a.coefs[i] == b.coefs[i]
  }

  /** Two chains that are indistinguishable in use. */
  ghost predicate Agree<C>(a: ChainState<C>, b: ChainState<C>)
    requires a.WellFormed() && b.WellFormed()
  {
    a.bands == b.bands && a.bypassed == b.bypassed && CutAgree(a.lowCut, b.lowCut) && CutAgree(a.highCut, b.highCut)
  }

  /** Retuning any two chains with the same settings leaves them with the same
      band coefficients, the same bypass flags and the same live sections,
      whatever each held before. */
  lemma RetunedAgree<C>(a: ChainState<C>, b: ChainState<C>, s: ChainSettings, sampleRate: real, d: FilterDesign<C>)
    requires a.WellFormed() && b.WellFormed() && d.Sound()
    requires a.bypassed == b.bypassed
    ensures Agree(Retuned(a, s, sampleRate, d), Retuned(b, s, sampleRate, d))
  {
    var ra, rb := Retuned(a, s, sampleRate, d), Retuned(b, s, sampleRate, d);
    assert ra.lowCut.bypassed == rb.lowCut.bypassed;
    assert ra.highCut.bypassed == rb.highCut.bypassed;
  }

  /** Retuning twice with the same settings gives the state retuning once gives. */
  lemma RetunedIdempotent<C>(st: ChainState<C>, s: ChainSettings, sampleRate: real, d: FilterDesign<C>)
    requires st.WellFormed() && d.Sound()
    ensures Retuned(Retuned(st, s, sampleRate, d), s, sampleRate, d) == Retuned(st, s, sampleRate, d)
  {
    UpdatedCutIdempotent(st.lowCut, LowCutCoefficients(s, sampleRate, d), SlopeValue(s.lowCutSlope));
    UpdatedCutIdempotent(st.highCut, HighCutCoefficients(s, sampleRate, d), SlopeValue(s.highCutSlope));
  }

  /** After a block is processed, what prepareToPlay configured earlier no longer shows: the chain
      agrees with one retuned directly from its state before preparation. */
  lemma RetuneOverridesPrepare<C>(st: ChainState<C>, s0: ChainSettings, s: ChainSettings, sampleRate0: real, sampleRate: real, d: FilterDesign<C>)
    requires st.WellFormed() && d.Sound()
    ensures Agree(Retuned(Prepared(st, s0, sampleRate0, d), s, sampleRate, d), Retuned(st, s, sampleRate, d))
  {
    RetunedAgree(Prepared(st, s0, sampleRate0, d), st, s, sampleRate, d);
  }

  /** One stage as the display sees it: whether it is bypassed, and its coefficients. */
  datatype Stage<C> = Stage(bypassed: bool, coefs: C)

  /** The stages the display multiplies, in its order: Band1..Band3 (with their position flags),
      then low-cut stages 0..3, then high-cut stages 0..3. */
  function PaintedStages<C>(st: ChainState<C>): (stages: seq<Stage<C>>)
    requires st.WellFormed()
    ensures |stages| == BandCount + 2 * StageCount
  {
    [ Stage(st.bypassed[PositionIndex(Band1)], st.bands[0]),
      Stage(st.bypassed[PositionIndex(Band2)], st.bands[1]),
      Stage(st.bypassed[PositionIndex(Band3)], st.bands[2]),
      Stage(st.lowCut.bypassed[0], st.lowCut.coefs[0]),
      Stage(st.lowCut.bypassed[1], st.lowCut.coefs[1]),
      Stage(st.lowCut.bypassed[2], st.lowCut.coefs[2]),
      Stage(st.lowCut.bypassed[3], st.lowCut.coefs[3]),
      Stage(st.highCut.bypassed[0], st.highCut.coefs[0]),
      Stage(st.highCut.bypassed[1], st.highCut.coefs[1]),
      Stage(st.highCut.bypassed[2], st.highCut.coefs[2]),
      Stage(st.highCut.bypassed[3], st.highCut.coefs[3]) ]
  }

  /** The coefficients of the stages that are not bypassed, in order. */
  function LiveCoefs<C>(stages: seq<Stage<C>>): (cs: seq<C>)
    ensures |cs| <= |stages|
  {
    if stages == [] then []
    else
      var last := stages[|stages| - 1];
      LiveCoefs(stages[..|stages| - 1]) + if last.bypassed then [] else [last.coefs]
  }

  /** The product of the magnitudes of the given coefficients at one frequency. */
  function Product<C>(cs: seq<C>, freq: real, sampleRate: real, magnitudeOf: (C, real, real) -> real): real {
    if cs == [] then 1.0
    else Product(cs[..|cs| - 1], freq, sampleRate, magnitudeOf) * magnitudeOf(cs[|cs| - 1], freq, sampleRate)
  }

  /** The display's accumulation: start at 1 and multiply in each stage that is not bypassed. */
  function Accumulated<C>(stages: seq<Stage<C>>, freq: real, sampleRate: real, magnitudeOf: (C, real, real) -> real): real {
    if stages == [] then 1.0
    else
      var last := stages[|stages| - 1];
      var acc := Accumulated(stages[..|stages| - 1], freq, sampleRate, magnitudeOf);
      if last.bypassed then acc else acc * magnitudeOf(last.coefs, freq, sampleRate)
  }

  /** The chain's magnitude at one frequency: the product over exactly its live stages. */
  function ChainMagnitude<C>(st: ChainState<C>, freq: real, sampleRate: real, magnitudeOf: (C, real, real) -> real): real
    requires st.WellFormed()
  {
    Product(LiveCoefs(PaintedStages(st)), freq, sampleRate, magnitudeOf)
  }

  /** Multiplying stage by stage, skipping bypassed stages, is the product over the live stages. */
  lemma {:induction false} AccumulatedIsLiveProduct<C>(stages: seq<Stage<C>>, freq: real, sampleRate: real, magnitudeOf: (C, real, real) -> real)
    ensures Accumulated(stages, freq, sampleRate, magnitudeOf) == Product(LiveCoefs(stages), freq, sampleRate, magnitudeOf)
  {
    if stages != [] {
      var init, last := stages[..|stages| - 1], stages[|stages| - 1];
      AccumulatedIsLiveProduct(init, freq, sampleRate, magnitudeOf);
      if !last.bypassed {
        var cs := LiveCoefs(init) + [last.coefs];
        assert LiveCoefs(stages) == cs;
        assert cs[..|cs| - 1] == LiveCoefs(init);
        assert Product(cs, freq, sampleRate, magnitudeOf) ==
          Product(LiveCoefs(init), freq, sampleRate, magnitudeOf) * magnitudeOf(last.coefs, freq, sampleRate);
      } else {
        assert LiveCoefs(stages) == LiveCoefs(init) + [] == LiveCoefs(init);
      }
    }
  }

  /** One more stage multiplies the accumulated magnitude by its factor. */
  lemma AccumulatedStep<C>(stages: seq<Stage<C>>, k: nat, freq: real, sampleRate: real, magnitudeOf: (C, real, real) -> real)
    requires k < |stages|
    ensures Accumulated(stages[..k + 1], freq, sampleRate, magnitudeOf) ==
      if stages[k].bypassed then Accumulated(stages[..k], freq, sampleRate, magnitudeOf)
      else Accumulated(stages[..k], freq, sampleRate, magnitudeOf) * magnitudeOf(stages[k].coefs, freq, sampleRate)
  {
    assert stages[..k + 1][..k] == stages[..k];
  }

  /** With every stage bypassed nothing is multiplied in and the magnitude is 1. */
  lemma {:induction false} AllBypassedLiveNone<C>(stages: seq<Stage<C>>)
    requires forall i :: 0 <= i < |stages| ==> stages[i].bypassed
    ensures LiveCoefs(stages) == []
  {
    if stages != [] {
      AllBypassedLiveNone(stages[..|stages| - 1]);
    }
  }

  lemma ChainMagnitudeAllBypassed<C>(st: ChainState<C>, freq: real, sampleRate: real, magnitudeOf: (C, real, real) -> real)
    requires st.WellFormed()
    requires st.bypassed[PositionIndex(Band1)] && st.bypassed[PositionIndex(Band2)] && st.bypassed[PositionIndex(Band3)]
    requires forall i :: 0 <= i < StageCount ==> st.lowCut.bypassed[i] && st.highCut.bypassed[i]
    ensures ChainMagnitude(st, freq, sampleRate, magnitudeOf) == 1.0
  {
    AllBypassedLiveNone(PaintedStages(st));
  }

  /** Stage lists with the same flags and the same coefficients on live stages have the same live coefficients. */
  lemma {:induction false} LiveCoefsAgree<C>(a: seq<Stage<C>>, b: seq<Stage<C>>)
    requires |a| == |b|
    requires forall i :: 0 <= i < |a| ==> a[i].bypassed == b[i].bypassed && (!a[i].bypassed ==> a[i].coefs == b[i].coefs)
    ensures LiveCoefs(a) == LiveCoefs(b)
  {
    if a != [] {
      LiveCoefsAgree(a[..|a| - 1], b[..|b| - 1]);
    }
  }

  /** Chains that agree draw the same response. */
  lemma AgreeSameMagnitude<C>(a: ChainState<C>, b: ChainState<C>, freq: real, sampleRate: real, magnitudeOf: (C, real, real) -> real)
    requires a.WellFormed() && b.WellFormed() && Agree(a, b)
    ensures ChainMagnitude(a, freq, sampleRate, magnitudeOf) == ChainMagnitude(b, freq, sampleRate, magnitudeOf)
  {
    var pa, pb := PaintedStages(a), PaintedStages(b);
    forall i | 0 <= i < |pa|
      ensures pa[i].bypassed == pb[i].bypassed && (!pa[i].bypassed ==> pa[i].coefs == pb[i].coefs)
    {
      if 3 <= i < 7 {
        assert pa[i] == Stage(a.lowCut.bypassed[i - 3], a.lowCut.coefs[i - 3]);
      } else if 7 <= i {
        assert pa[i] == Stage(a.highCut.bypassed[i - 7], a.highCut.coefs[i - 7]);
      }
    }
    LiveCoefsAgree(pa, pb);
  }

  /** The response drawn after a retune depends only on the settings and the position flags. */
  lemma RetunedMagnitude<C>(a: ChainState<C>, b: ChainState<C>, s: ChainSettings, sampleRate: real, d: FilterDesign<C>,
                            freq: real, magnitudeOf: (C, real, real) -> real)
    requires a.WellFormed() && b.WellFormed() && d.Sound() && a.bypassed == b.bypassed
    ensures ChainMagnitude(Retuned(a, s, sampleRate, d), freq, sampleRate, magnitudeOf) ==
            ChainMagnitude(Retuned(b, s, sampleRate, d), freq, sampleRate, magnitudeOf)
  {
    RetunedAgree(a, b, s, sampleRate, d);
    AgreeSameMagnitude(Retuned(a, s, sampleRate, d), Retuned(b, s, sampleRate, d), freq, sampleRate, magnitudeOf);
  }

  /**
   * The state of a default-constructed chain: no position and no cut stage
   * bypassed, and every band and stage holding the same (identity) coefficients.
   */
  function InitialChain<C>(identity: C): (st: ChainState<C>)
    ensures st.WellFormed()
    ensures forall i :: 0 <= i < PositionCount ==> !st.bypassed[i]
    ensures forall i :: 0 <= i < BandCount ==> st.bands[i] == identity
    ensures forall i :: 0 <= i < StageCount ==>
      && !st.lowCut.bypassed[i] && st.lowCut.coefs[i] == identity
      && !st.highCut.bypassed[i] && st.highCut.coefs[i] == identity
  {
    var cut := CutState([false, false, false, false], [identity, identity, identity, identity]);
    ChainState(cut, [identity, identity, identity], [false, false, false, false, false], cut)
  }

  /** A default chain draws the product of all eleven stages' magnitudes: none of them is skipped. */
  lemma InitialChainAllLive<C>(identity: C)
    ensures LiveCoefs(PaintedStages(InitialChain(identity))) ==
      [identity, identity, identity, identity, identity, identity, identity, identity, identity, identity, identity]
  {
    var stages := PaintedStages(InitialChain(identity));
    AllLiveCoefs(stages);
  }

  /** With no stage bypassed, every stage's coefficients are multiplied, in order. */
  lemma {:induction false} AllLiveCoefs<C>(stages: seq<Stage<C>>)
    requires forall i :: 0 <= i < |stages| ==> !stages[i].bypassed
    ensures |LiveCoefs(stages)| == |stages|
    ensures forall i :: 0 <= i < |stages| ==> LiveCoefs(stages)[i] == stages[i].coefs
  {
    if stages != [] {
      AllLiveCoefs(stages[..|stages| - 1]);
    }
  }

  /** One mono chain: its two cascades, the coefficient slots of its three bands and its five position flags. */
  class MonoChain<C> {
    const lowCut: CutFilter<C>
    const bands: array<C>
    const bypassed: array<bool>
    const highCut: CutFilter<C>

    ghost function Repr(): set<object> {
      lowCut.Repr() + {bands, bypassed} + highCut.Repr()
    }

    /** The six arrays are distinct objects, so writing one never changes another. */
    ghost predicate Valid() {
      && lowCut.Valid() && highCut.Valid() && bands.Length == BandCount && bypassed.Length == PositionCount
      && lowCut.bypassed != highCut.bypassed && lowCut.bypassed != bypassed && highCut.bypassed != bypassed
      && lowCut.coefs != highCut.coefs && lowCut.coefs != bands && highCut.coefs != bands
      && lowCut.bypassed as object != highCut.coefs && lowCut.bypassed as object != bands
      && highCut.bypassed as object != lowCut.coefs && highCut.bypassed as object != bands
      && bypassed as object != lowCut.coefs && bypassed as object != highCut.coefs && bypassed as object != bands
    }

    function State(): (st: ChainState<C>)
      reads Repr()
      requires Valid()
      ensures st.WellFormed()
    {
      ChainState(lowCut.State(), bands[..], bypassed[..], highCut.State())
    }

    /** A fresh chain: nothing bypassed, every slot holding the given (identity) coefficients. */
    constructor (identity: C)
      ensures Valid() && fresh(Repr())
      ensures State() == InitialChain(identity)
    {
      lowCut := new CutFilter(identity);
      bands := new C[BandCount](_ => identity);
      bypassed := new bool[PositionCount](_ => false);
      highCut := new CutFilter(identity);
      new;
      assert bands[..] == [identity, identity, identity];
      assert bypassed[..] == [false, false, false, false, false];
    }

    /** Replace the coefficients of band k (0 for Band1): the coefficient copy into the band's filter. */
    method SetBand(k: nat, c: C)
      requires Valid() && k < BandCount
      modifies bands
      ensures State() == old(State()).(bands := old(State()).bands[k := c])
    {
      bands[k] := c;
    }
  }
}
