/**
 * The plain data of the equalizer: the slope enumeration, the positions of the
 * processing chain and the ChainSettings snapshot of all control values.
 * Floating-point control values are modelled as reals.
 */
module Settings {

  /** Cut-filter steepness; the enumerators are numbered 0..3 in declaration order. */
  datatype Slope = Slope12 | Slope24 | Slope36 | Slope48

  /** The integer an enumerator converts to. */
  function SlopeValue(s: Slope): (v: int)
    ensures 0 <= v <= 3
  {
    match s
    case Slope12 => 0
    case Slope24 => 1
    case Slope36 => 2
    case Slope48 => 3
  }

  /** The enumerator that an integer in 0..3 names (a static_cast to Slope). */
  function SlopeOf(v: int): (s: Slope)
    requires 0 <= v <= 3
    ensures SlopeValue(s) == v
  {
    if v == 0 then Slope12 else if v == 1 then Slope24 else if v == 2 then Slope36 else Slope48
  }

  /** The encoding is a bijection between the four slopes and 0..3, and it follows declaration order. */
  lemma SlopeEncoding(s: Slope, t: Slope)
    ensures SlopeOf(SlopeValue(s)) == s
    ensures SlopeValue(s) == SlopeValue(t) ==> s == t
    ensures SlopeValue(Slope12) == 0 && SlopeValue(Slope24) == 1
    ensures SlopeValue(Slope36) == 2 && SlopeValue(Slope48) == 3
  {
  }

  /** The five slots of a mono processing chain, in processing order. */
  datatype ChainPosition = LowCut | Band1 | Band2 | Band3 | HighCut

  /** The index of a slot in the processor chain. */
  function PositionIndex(p: ChainPosition): (i: nat)
    ensures i < 5
  {
    match p
    case LowCut => 0
    case Band1 => 1
    case Band2 => 2
    case Band3 => 3
    case HighCut => 4
  }

  /** Slots are numbered LowCut = 0, Band1..Band3 = 1..3, HighCut = 4, one index per slot. */
  lemma PositionOrder(p: ChainPosition, q: ChainPosition)
    ensures PositionIndex(p) == PositionIndex(q) ==> p == q
    ensures PositionIndex(LowCut) == 0 && PositionIndex(HighCut) == 4
    ensures PositionIndex(Band1) == 1 && PositionIndex(Band2) == 2 && PositionIndex(Band3) == 3
  {
  }

  /** A snapshot of every control value (frequencies in Hz, gains in dB). */
  datatype ChainSettings = ChainSettings(
    band1Freq: real, band1GainInDecibels: real, band1Quality: real,
    band2Freq: real, band2GainInDecibels: real, band2Quality: real,
    band3Freq: real, band3GainInDecibels: real, band3Quality: real,
    lowCutFreq: real, highCutFreq: real,
    lowCutSlope: Slope, highCutSlope: Slope)

  /** The value of a default-initialised ChainSettings. */
  function DefaultChainSettings(): (s: ChainSettings)
    ensures s.band1Quality == s.band2Quality == s.band3Quality == 1.0
    ensures s.band1Freq == s.band2Freq == s.band3Freq == s.lowCutFreq == s.highCutFreq == 0.0
    ensures s.band1GainInDecibels == s.band2GainInDecibels == s.band3GainInDecibels == 0.0
    ensures s.lowCutSlope == s.highCutSlope == Slope12
  {
    ChainSettings(0.0, 0.0, 1.0, 0.0, 0.0, 1.0, 0.0, 0.0, 1.0, 0.0, 0.0, Slope12, Slope12)
  }

  /** The number of poles asked of the Butterworth designer for a cut filter. */
  function ButterworthOrder(s: Slope): (order: int)
    ensures order % 2 == 0 && order / 2 == SlopeValue(s) + 1
    ensures 2 <= order <= 8
  {
    2 * (SlopeValue(s) + 1)
  }

  /** Slopes 12, 24, 36 and 48 dB/Oct ask for orders 2, 4, 6 and 8. */
  lemma ButterworthOrders()
    ensures ButterworthOrder(Slope12) == 2 && ButterworthOrder(Slope24) == 4
    ensures ButterworthOrder(Slope36) == 6 && ButterworthOrder(Slope48) == 8
  {
  }
}
