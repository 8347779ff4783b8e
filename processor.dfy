/**
 * The audio processor: two mono chains (left and right) retuned from the
 * parameter snapshot in prepareToPlay and at the start of every processBlock,
 * and the clearing of output channels that have no input.
 */
module Processor {
  import opened Settings
  import opened CutFilters
  import opened Chains
  import opened Parameters

  /** Zero every sample of one channel of the buffer (buffer.clear(channel, 0, numSamples)). */
  method ClearChannel(buffer: array2<real>, channel: nat)
    requires channel < buffer.Length0
    modifies buffer
    ensures forall ch, i :: 0 <= ch < buffer.Length0 && 0 <= i < buffer.Length1 ==>
      buffer[ch, i] == if ch == channel then 0.0 else old(buffer[ch, i])
  {
    for i := 0 to buffer.Length1
      invariant forall ch, j :: 0 <= ch < buffer.Length0 && 0 <= j < buffer.Length1 ==>
        buffer[ch, j] == if ch == channel && j < i then 0.0 else old(buffer[ch, j])
    {
      buffer[channel, i] := 0.0;
    }
  }

  /** Output channels totalIn..totalOut-1 carry no input: they are zeroed; every other channel is untouched. */
  method ClearUnusedOutputs(buffer: array2<real>, totalIn: nat, totalOut: nat)
    requires totalOut <= buffer.Length0
    modifies buffer
    ensures forall ch, i :: 0 <= ch < buffer.Length0 && 0 <= i < buffer.Length1 ==>
      buffer[ch, i] == if totalIn <= ch < totalOut then 0.0 else old(buffer[ch, i])
  {
    var ch := totalIn;
    while ch < totalOut
      invariant totalIn <= ch && (totalIn <= totalOut ==> ch <= totalOut) && (totalOut < totalIn ==> ch == totalIn)
      invariant forall c, i :: 0 <= c < buffer.Length0 && 0 <= i < buffer.Length1 ==>
        buffer[c, i] == if totalIn <= c < ch then 0.0 else old(buffer[c, i])
    {
      ClearChannel(buffer, ch);
      ch := ch + 1;
    }
  }

  /** The processor's filter state: one chain per stereo channel. */
  class EqProcessor<C> {
    const leftChain: MonoChain<C>
    const rightChain: MonoChain<C>

    ghost function Repr(): set<object> {
      leftChain.Repr() + rightChain.Repr()
    }

    /** Both chains are well formed and share no array, and the two are in the same state:
        they start alike and every update writes the same values into both. */
    ghost predicate Valid()
      reads Repr()
    {
      && leftChain.Valid() && rightChain.Valid() && leftChain.Repr() !! rightChain.Repr()
      && leftChain.State() == rightChain.State()
    }

    /** Both chains default-constructed: nothing bypassed, every slot holding the (identity) coefficients. */
    constructor (identity: C)
      ensures Valid() && fresh(Repr())
      ensures leftChain.State() == InitialChain(identity)
      ensures rightChain.State() == InitialChain(identity)
    {
      leftChain := new MonoChain(identity);
      rightChain := new MonoChain(identity);
    }

    /** Both chains' band coefficients are replaced; left first, then right, band by band. */
    method SetBands(bands: seq<C>)
      requires Valid() && |bands| == BandCount
      modifies leftChain.bands, rightChain.bands
      ensures Valid()
      ensures leftChain.State() == old(leftChain.State()).(bands := bands)
      ensures rightChain.State() == old(rightChain.State()).(bands := bands)
    {
      leftChain.SetBand(0, bands[0]);
      rightChain.SetBand(0, bands[0]);
      leftChain.SetBand(1, bands[1]);
      rightChain.SetBand(1, bands[1]);
      leftChain.SetBand(2, bands[2]);
      rightChain.SetBand(2, bands[2]);
      assert leftChain.State().bands == bands;
      assert rightChain.State().bands == bands;
    }

    /** Both low-cut cascades are updated from the same sections and slope. */
    method UpdateLowCuts(cs: seq<C>, slope: int)
      requires Valid() && Covers(cs, slope)
      modifies leftChain.lowCut.Repr(), rightChain.lowCut.Repr()
      ensures Valid()
      ensures leftChain.State() == old(leftChain.State()).(lowCut := UpdatedCut(old(leftChain.State()).lowCut, cs, slope))
      ensures rightChain.State() == old(rightChain.State()).(lowCut := UpdatedCut(old(rightChain.State()).lowCut, cs, slope))
    {
      leftChain.lowCut.UpdateCutFilter(cs, slope);
      rightChain.lowCut.UpdateCutFilter(cs, slope);
    }

    /** Both high-cut cascades are updated from the same sections and slope. */
    method UpdateHighCuts(cs: seq<C>, slope: int)
      requires Valid() && Covers(cs, slope)
      modifies leftChain.highCut.Repr(), rightChain.highCut.Repr()
      ensures Valid()
      ensures leftChain.State() == old(leftChain.State()).(highCut := UpdatedCut(old(leftChain.State()).highCut, cs, slope))
      ensures rightChain.State() == old(rightChain.State()).(highCut := UpdatedCut(old(rightChain.State()).highCut, cs, slope))
    {
      leftChain.highCut.UpdateCutFilter(cs, slope);
      rightChain.highCut.UpdateCutFilter(cs, slope);
    }

    /** Bands, low-cut and high-cut of both chains, in that order, from one snapshot. */
    method RetuneChains(chainSettings: ChainSettings, sampleRate: real, d: FilterDesign<C>)
      requires Valid() && d.Sound()
      modifies Repr()
      ensures Valid()
      ensures leftChain.State() == Retuned(old(leftChain.State()), chainSettings, sampleRate, d)
      ensures rightChain.State() == Retuned(old(rightChain.State()), chainSettings, sampleRate, d)
    {
      SetBands(BandCoefficients(chainSettings, sampleRate, d));
      var lowCutCoefficients := LowCutCoefficients(chainSettings, sampleRate, d);
      var highCutCoefficients := HighCutCoefficients(chainSettings, sampleRate, d);
      UpdateLowCuts(lowCutCoefficients, SlopeValue(chainSettings.lowCutSlope));
      UpdateHighCuts(highCutCoefficients, SlopeValue(chainSettings.highCutSlope));
    }

    /**
     * prepareToPlay: snapshot the parameters, design the band and cut
     * coefficients, set the bands and the low-cut cascade of both chains. The
     * high-cut sections are designed but never written. Resetting the filters'
     * sample history (chain.prepare) has no counterpart in this state.
     */
    method PrepareToPlay(raw: map<string, real>, sampleRate: real, samplesPerBlock: int, d: FilterDesign<C>)
      requires Valid() && d.Sound()
      requires HasAllIds(raw) && IsSlopeIndex(raw[LowCutSlopeId]) && IsSlopeIndex(raw[HighCutSlopeId])
      modifies Repr()
      ensures Valid()
      ensures leftChain.State() == Prepared(old(leftChain.State()), GetChainSettings(raw), sampleRate, d)
      ensures rightChain.State() == Prepared(old(rightChain.State()), GetChainSettings(raw), sampleRate, d)
      ensures leftChain.State() == rightChain.State()
    {
      var chainSettings := GetChainSettings(raw);
      SetBands(BandCoefficients(chainSettings, sampleRate, d));
      var lowCutCoefficients := LowCutCoefficients(chainSettings, sampleRate, d);
      var highCutCoefficients := HighCutCoefficients(chainSettings, sampleRate, d);
      UpdateLowCuts(lowCutCoefficients, SlopeValue(chainSettings.lowCutSlope));
    }

    /**
     * processBlock: clear the output channels without input, snapshot the
     * parameters, design all coefficients, then set the bands, the low-cut and
     * the high-cut cascade of both chains. Running the samples through the
     * chains is not part of this model.
     */
    method ProcessBlock(buffer: array2<real>, totalIn: nat, totalOut: nat,
                        raw: map<string, real>, sampleRate: real, d: FilterDesign<C>)
      requires Valid() && d.Sound() && totalOut <= buffer.Length0
      requires HasAllIds(raw) && IsSlopeIndex(raw[LowCutSlopeId]) && IsSlopeIndex(raw[HighCutSlopeId])
      modifies buffer, Repr()
      ensures Valid()
      ensures forall ch, i :: 0 <= ch < buffer.Length0 && 0 <= i < buffer.Length1 ==>
        buffer[ch, i] == if totalIn <= ch < totalOut then 0.0 else old(buffer[ch, i])
      ensures leftChain.State() == Retuned(old(leftChain.State()), GetChainSettings(raw), sampleRate, d)
      ensures rightChain.State() == Retuned(old(rightChain.State()), GetChainSettings(raw), sampleRate, d)
      ensures leftChain.State() == rightChain.State()
    {
      assert buffer !in Repr();
      ClearUnusedOutputs(buffer, totalIn, totalOut);
      var chainSettings := GetChainSettings(raw);
      RetuneChains(chainSettings, sampleRate, d);
    }
  }
}
