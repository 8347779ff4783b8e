/**
 * The parameter layout the processor publishes to its host, and the snapshot
 * getChainSettings takes of the parameters' raw values.
 */
module Parameters {
  import opened Settings

  /** A NormalisableRange: [start, end] with a step size and a skew factor. */
  datatype Range = Range(start: real, end: real, interval: real, skew: real)

  /** One entry of the layout: an AudioParameterFloat or an AudioParameterChoice. */
  datatype Parameter =
    | FloatParameter(id: string, version: int, name: string, range: Range, defaultValue: real)
    | ChoiceParameter(id: string, version: int, name: string, choices: seq<string>, defaultIndex: int)

  const FrequencyRange := Range(20.0, 20000.0, 1.0, 0.25)
  const GainRange := Range(-24.0, 24.0, 0.5, 1.0)
  const QualityRange := Range(0.1, 10.0, 0.05, 1.0)

  const LowCutFreqId := "LowCut Freq"
  const HighCutFreqId := "HighCut Freq"
  const Band1FreqId := "Band1 Freq"
  const Band1GainId := "Band1 Gain"
  const Band1QualityId := "Band1 Quality"
  const Band2FreqId := "Band2 Freq"
  const Band2GainId := "Band2 Gain"
  const Band2QualityId := "Band2 Quality"
  const Band3FreqId := "Band3 Freq"
  const Band3GainId := "Band3 Gain"
  const Band3QualityId := "Band3 Quality"
  const LowCutSlopeId := "LowCut Slope"
  const HighCutSlopeId := "HighCut Slope"

  /** A float parameter as the layout declares it: version 1, named by its ID. */
  function Float(id: string, range: Range, defaultValue: real): Parameter {
    FloatParameter(id, 1, id, range, defaultValue)
  }

  /** The eleven float parameters, in the order they are added to the layout. */
  function FloatParameters(): seq<Parameter> {
    [ Float(LowCutFreqId, FrequencyRange, 20.0),
      Float(HighCutFreqId, FrequencyRange, 20000.0),
      Float(Band1FreqId, FrequencyRange, 250.0),
      Float(Band1GainId, GainRange, 0.0),
      Float(Band1QualityId, QualityRange, 1.0),
      Float(Band2FreqId, FrequencyRange, 2500.0),
      Float(Band2GainId, GainRange, 0.0),
      Float(Band2QualityId, QualityRange, 1.0),
      Float(Band3FreqId, FrequencyRange, 8000.0),
      Float(Band3GainId, GainRange, 0.0),
      Float(Band3QualityId, QualityRange, 1.0) ]
  }

  /** The number a string of decimal digits denotes. */
  function DigitsValue(s: string): int {
    if s == [] then 0 else DigitsValue(s[..|s| - 1]) * 10 + ((s[|s| - 1] as int) - ('0' as int))
  }

  /** The decimal spelling of a natural number, as a juce::String gets it from `<<`. */
  function DecimalString(n: nat): (s: string)
    ensures |s| > 0
    ensures forall k :: 0 <= k < |s| ==> '0' <= s[k] <= '9'
  {
    var digit := ['0' + (n % 10) as char];
    if n < 10 then digit else DecimalString(n / 10) + digit
  }

  /** The spelling has no leading zero and denotes the number. */
  lemma {:induction false} DecimalStringValue(n: nat)
    ensures DigitsValue(DecimalString(n)) == n
    ensures |DecimalString(n)| == 1 || DecimalString(n)[0] != '0'
  {
    var s := DecimalString(n);
    if n >= 10 {
      var prefix := DecimalString(n / 10);
      DecimalStringValue(n / 10);
      assert s[..|s| - 1] == prefix;
      if |prefix| == 1 {
        assert DigitsValue(prefix) == DigitsValue([]) * 10 + ((prefix[0] as int) - ('0' as int));
      }
    }
  }

  /** The label of slope choice i. */
  function SlopeLabel(i: nat): string {
    DecimalString(12 + i * 12) + " db/Oct"
  }

  /** The four slope choices, in choice-index order. */
  function SlopeLabels(): seq<string> {
    [SlopeLabel(0), SlopeLabel(1), SlopeLabel(2), SlopeLabel(3)]
  }

  /** The choice labels read 12, 24, 36 and 48 db/Oct. */
  lemma SlopeLabelsSpelled()
    ensures SlopeLabels() == ["12 db/Oct", "24 db/Oct", "36 db/Oct", "48 db/Oct"]
  {
    LabelSpelled(0, '1', '2', "12 db/Oct");
    LabelSpelled(1, '2', '4', "24 db/Oct");
    LabelSpelled(2, '3', '6', "36 db/Oct");
    LabelSpelled(3, '4', '8', "48 db/Oct");
  }

  /** A label whose number has two digits spells those two digits followed by the unit. */
  lemma LabelSpelled(i: nat, tens: char, ones: char, text: string)
    requires 10 <= 12 + i * 12 < 100
    requires tens == '0' + ((12 + i * 12) / 10) as char && ones == '0' + ((12 + i * 12) % 10) as char
    requires text == [tens, ones] + " db/Oct"
    ensures SlopeLabel(i) == text
  {
    var n := 12 + i * 12;
    assert DecimalString(n / 10) == [tens];
    assert DecimalString(n) == [tens, ones];
  }

  predicate InRange(x: real, r: Range) {
    r.start <= x <= r.end
  }

  /** A parameter's default lies in its range (for a choice: it indexes a choice). */
  predicate DefaultValid(p: Parameter) {
    match p
    case FloatParameter(_, _, _, range, d) => InRange(d, range)
    case ChoiceParameter(_, _, _, choices, i) => 0 <= i < |choices|
  }

  /** No two parameters share an ID. */
  predicate UniqueIds(layout: seq<Parameter>) {
    forall i, j :: 0 <= i < j < |layout| ==> layout[i].id != layout[j].id
  }

  /** The complete layout. */
  function ParameterLayout(): (layout: seq<Parameter>)
    ensures |layout| == 13
    ensures UniqueIds(layout)
    ensures forall p :: p in layout ==> DefaultValid(p) && p.version == 1 && p.name == p.id
  {
    LayoutIdsUnique(SlopeLabels());
    LayoutEntriesValid(SlopeLabels());
    FloatParameters() + SlopeParameters(SlopeLabels())
  }

  /** The two slope choices, both over the same labels and defaulting to the first. */
  function SlopeParameters(choices: seq<string>): seq<Parameter> {
    [ ChoiceParameter(LowCutSlopeId, 1, LowCutSlopeId, choices, 0),
      ChoiceParameter(HighCutSlopeId, 1, HighCutSlopeId, choices, 0) ]
  }

  /** The thirteen IDs are pairwise distinct, whatever the slope labels. */
  lemma LayoutIdsUnique(choices: seq<string>)
    ensures UniqueIds(FloatParameters() + SlopeParameters(choices))
  {
  }

  /** Every entry is version 1, named by its ID, with a default its range or choices admit. */
  lemma LayoutEntriesValid(choices: seq<string>)
    requires |choices| > 0
    ensures forall p :: p in FloatParameters() + SlopeParameters(choices) ==>
      DefaultValid(p) && p.version == 1 && p.name == p.id
  {
  }

  /** createParameterLayout: adds the float parameters, builds the slope labels, adds the two choices. */
  method CreateParameterLayout() returns (layout: seq<Parameter>)
    ensures layout == ParameterLayout()
  {
    layout := FloatParameters();
    var slopeArray := SlopeChoices();
    layout := layout + [ChoiceParameter(LowCutSlopeId, 1, LowCutSlopeId, slopeArray, 0)];
    layout := layout + [ChoiceParameter(HighCutSlopeId, 1, HighCutSlopeId, slopeArray, 0)];
    assert layout == FloatParameters() + SlopeParameters(slopeArray);
  }

  /** The loop of createParameterLayout: label i streams 12 + 12·i, then " db/Oct". */
  method SlopeChoices() returns (slopeArray: seq<string>)
    ensures slopeArray == SlopeLabels()
  {
    slopeArray := [];
    for i := 0 to 4
      invariant |slopeArray| == i
      invariant forall k :: 0 <= k < i ==> slopeArray[k] == SlopeLabel(k)
    {
      var str := DecimalString(12 + i * 12);
      str := str + " db/Oct";
      slopeArray := slopeArray + [str];
    }
  }

  /** Frequencies range over [20, 20000] Hz, gains over [-24, 24] dB, qualities over [0.1, 10];
      both slopes offer the four labels and default to the first. */
  lemma LayoutRanges()
    ensures forall p :: p in FloatParameters() ==>
      p.range in {FrequencyRange, GainRange, QualityRange}
    ensures FrequencyRange.start == 20.0 && FrequencyRange.end == 20000.0
    ensures GainRange.start == -24.0 && GainRange.end == 24.0
    ensures QualityRange.start == 0.1 && QualityRange.end == 10.0
    ensures ParameterLayout()[11].choices == ParameterLayout()[12].choices == SlopeLabels()
    ensures ParameterLayout()[11].defaultIndex == ParameterLayout()[12].defaultIndex == 0
  {
  }

  /** The range a float parameter's ID calls for: gains in dB, qualities, or else frequencies in Hz. */
  function RangeFor(id: string): Range {
    if id in {Band1GainId, Band2GainId, Band3GainId} then GainRange
    else if id in {Band1QualityId, Band2QualityId, Band3QualityId} then QualityRange
    else FrequencyRange
  }

  /** Every frequency parameter gets the frequency range, every gain the gain range, every quality the quality range. */
  lemma RangesById()
    ensures forall k :: 0 <= k < |FloatParameters()| ==>
      FloatParameters()[k].range == RangeFor(FloatParameters()[k].id)
  {
    var ps := FloatParameters();
    forall k | 0 <= k < |ps|
      ensures ps[k].range == RangeFor(ps[k].id)
    {
      if k == 0 { assert ps[k] == Float(LowCutFreqId, FrequencyRange, 20.0); }
      else if k == 1 { assert ps[k] == Float(HighCutFreqId, FrequencyRange, 20000.0); }
      else if k == 2 { assert ps[k] == Float(Band1FreqId, FrequencyRange, 250.0); }
      else if k == 3 { assert ps[k] == Float(Band1GainId, GainRange, 0.0); }
      else if k == 4 { assert ps[k] == Float(Band1QualityId, QualityRange, 1.0); }
      else if k == 5 { assert ps[k] == Float(Band2FreqId, FrequencyRange, 2500.0); }
      else if k == 6 { assert ps[k] == Float(Band2GainId, GainRange, 0.0); }
      else if k == 7 { assert ps[k] == Float(Band2QualityId, QualityRange, 1.0); }
      else if k == 8 { assert ps[k] == Float(Band3FreqId, FrequencyRange, 8000.0); }
      else if k == 9 { assert ps[k] == Float(Band3GainId, GainRange, 0.0); }
      else { assert ps[k] == Float(Band3QualityId, QualityRange, 1.0); }
    }
  }

  /** The raw value a parameter has before anything moves it (a choice's raw value is its index). */
  function DefaultRaw(p: Parameter): real {
    match p
    case FloatParameter(_, _, _, _, d) => d
    case ChoiceParameter(_, _, _, _, i) => i as real
  }

  /** The raw values of a whole layout at their defaults, keyed by parameter ID. */
  function DefaultValues(layout: seq<Parameter>): (raw: map<string, real>)
    ensures forall p :: p in layout ==> p.id in raw
  {
    if layout == [] then map[]
    else DefaultValues(layout[..|layout| - 1])[layout[|layout| - 1].id := DefaultRaw(layout[|layout| - 1])]
  }

  /** The raw values of host parameters lie in the ranges the layout gave them. */
  predicate WithinLayout(raw: map<string, real>, layout: seq<Parameter>) {
    forall p :: p in layout ==> (p.id in raw &&
      match p
      case FloatParameter(_, _, _, range, _) => InRange(raw[p.id], range)
      case ChoiceParameter(_, _, _, choices, _) => 0.0 <= raw[p.id] <= (|choices| - 1) as real)
  }

  /** Every parameter getChainSettings reads is present. */
  predicate HasAllIds(raw: map<string, real>) {
    && LowCutFreqId in raw && HighCutFreqId in raw && LowCutSlopeId in raw && HighCutSlopeId in raw
    && Band1FreqId in raw && Band1GainId in raw && Band1QualityId in raw
    && Band2FreqId in raw && Band2GainId in raw && Band2QualityId in raw
    && Band3FreqId in raw && Band3GainId in raw && Band3QualityId in raw
  }

  /** A choice parameter's raw value is an index in 0..3, so it converts to a slope. */
  predicate IsSlopeIndex(x: real) {
    0.0 <= x < 4.0
  }

  /**
   * getChainSettings: starting from a default ChainSettings, copies each raw
   * value into its field. The slope values are cast to the enumeration: the
   * cast truncates toward zero, which for the non-negative index is its floor.
   */
  function GetChainSettings(raw: map<string, real>): (s: ChainSettings)
    requires HasAllIds(raw)
    requires IsSlopeIndex(raw[LowCutSlopeId]) && IsSlopeIndex(raw[HighCutSlopeId])
    ensures s.lowCutFreq == raw[LowCutFreqId] && s.highCutFreq == raw[HighCutFreqId]
    ensures SlopeValue(s.lowCutSlope) == raw[LowCutSlopeId].Floor
    ensures SlopeValue(s.highCutSlope) == raw[HighCutSlopeId].Floor
    ensures s.band1Freq == raw[Band1FreqId] && s.band1GainInDecibels == raw[Band1GainId] && s.band1Quality == raw[Band1QualityId]
    ensures s.band2Freq == raw[Band2FreqId] && s.band2GainInDecibels == raw[Band2GainId] && s.band2Quality == raw[Band2QualityId]
    ensures s.band3Freq == raw[Band3FreqId] && s.band3GainInDecibels == raw[Band3GainId] && s.band3Quality == raw[Band3QualityId]
  {
    DefaultChainSettings().(
      lowCutFreq := raw[LowCutFreqId], highCutFreq := raw[HighCutFreqId],
      lowCutSlope := SlopeOf(raw[LowCutSlopeId].Floor), highCutSlope := SlopeOf(raw[HighCutSlopeId].Floor),
      band1Freq := raw[Band1FreqId], band1GainInDecibels := raw[Band1GainId], band1Quality := raw[Band1QualityId],
      band2Freq := raw[Band2FreqId], band2GainInDecibels := raw[Band2GainId], band2Quality := raw[Band2QualityId],
      band3Freq := raw[Band3FreqId], band3GainInDecibels := raw[Band3GainId], band3Quality := raw[Band3QualityId])
  }

  /** Raw values within the layout can always be snapshot, and the snapshot stays within the ranges. */
  lemma SnapshotWithinRanges(raw: map<string, real>)
    requires WithinLayout(raw, ParameterLayout())
    ensures HasAllIds(raw) && IsSlopeIndex(raw[LowCutSlopeId]) && IsSlopeIndex(raw[HighCutSlopeId])
    ensures var s := GetChainSettings(raw);
      && InRange(s.lowCutFreq, FrequencyRange) && InRange(s.highCutFreq, FrequencyRange)
      && InRange(s.band1Freq, FrequencyRange) && InRange(s.band2Freq, FrequencyRange) && InRange(s.band3Freq, FrequencyRange)
      && InRange(s.band1GainInDecibels, GainRange) && InRange(s.band2GainInDecibels, GainRange)
      && InRange(s.band3GainInDecibels, GainRange)
      && InRange(s.band1Quality, QualityRange) && InRange(s.band2Quality, QualityRange)
      && InRange(s.band3Quality, QualityRange)
  {
    var layout := ParameterLayout();
    assert layout[0] in layout && layout[1] in layout && layout[2] in layout && layout[3] in layout;
    assert layout[4] in layout && layout[5] in layout && layout[6] in layout && layout[7] in layout;
    assert layout[8] in layout && layout[9] in layout && layout[10] in layout;
    assert layout[11] in layout && layout[12] in layout;
  }

  /** With every parameter at its default, the snapshot holds the layout's defaults:
      cut filters at 20 Hz and 20000 Hz, bands at 250, 2500 and 8000 Hz, flat gain, Q 1, both slopes 12 dB/Oct. */
  lemma DefaultSnapshot()
    ensures WithinLayout(DefaultValues(ParameterLayout()), ParameterLayout())
    ensures GetChainSettings(DefaultValues(ParameterLayout())) ==
      ChainSettings(250.0, 0.0, 1.0, 2500.0, 0.0, 1.0, 8000.0, 0.0, 1.0, 20.0, 20000.0, Slope12, Slope12)
  {
    var layout := ParameterLayout();
    DefaultsWithinLayout();
    var raw := DefaultValues(layout);
    DefaultValuesAt(layout);
    assert raw[LowCutFreqId] == 20.0 && raw[HighCutFreqId] == 20000.0 by {
      assert layout[0] in layout && layout[1] in layout;
    }
    assert raw[Band1FreqId] == 250.0 && raw[Band1GainId] == 0.0 && raw[Band1QualityId] == 1.0 by {
      assert layout[2] in layout && layout[3] in layout && layout[4] in layout;
    }
    assert raw[Band2FreqId] == 2500.0 && raw[Band2GainId] == 0.0 && raw[Band2QualityId] == 1.0 by {
      assert layout[5] in layout && layout[6] in layout && layout[7] in layout;
    }
    assert raw[Band3FreqId] == 8000.0 && raw[Band3GainId] == 0.0 && raw[Band3QualityId] == 1.0 by {
      assert layout[8] in layout && layout[9] in layout && layout[10] in layout;
    }
    assert raw[LowCutSlopeId] == 0.0 && raw[HighCutSlopeId] == 0.0 by {
      assert layout[11] in layout && layout[12] in layout;
    }
  }

  /** Every default lies in its parameter's range: each float default in its range, each choice default a valid index. */
  lemma DefaultsWithinLayout()
    ensures WithinLayout(DefaultValues(ParameterLayout()), ParameterLayout())
  {
    var layout := ParameterLayout();
    DefaultValuesAt(layout);
  }

  /** Each parameter of a layout with unique IDs finds its own default among the default values. */
  predicate DefaultsAt(raw: map<string, real>, layout: seq<Parameter>) {
    forall p :: p in layout ==> p.id in raw && raw[p.id] == DefaultRaw(p)
  }

  lemma {:induction false} DefaultValuesAt(layout: seq<Parameter>)
    requires UniqueIds(layout)
    ensures DefaultsAt(DefaultValues(layout), layout)
  {
    if layout != [] {
      var init := layout[..|layout| - 1];
      DefaultValuesAt(init);
      forall p | p in layout
        ensures p.id in DefaultValues(layout) && DefaultValues(layout)[p.id] == DefaultRaw(p)
      {
        if p != layout[|layout| - 1] {
          var i :| 0 <= i < |layout| && layout[i] == p;
          assert p in init by { assert init[i] == p; }
        }
      }
    }
  }
}
