# SimpleEQ filter-chain configuration, modelled in Dafny

SimpleEQ is a three-band parametric equalizer plugin built on JUCE. Each stereo channel runs a
*mono chain* of five positions in series:

- a low-cut cascade;
- three peak bands;
- a high-cut cascade.

Each cut cascade holds four biquad stages. Which of them are live depends on the cut slope: 12, 24,
36 or 48 dB/Oct, that is 1 to 4 stages, designed as a Butterworth filter of order 2·(slope+1). This
project models how the plugin configures those chains and proves properties of that model:

- **The cascade update** (`updateCutFilter` / `update<Index>`): it bypasses all four stages, then
  falls through the `switch` from the case for `slope` down to stage 0, copying section i into stage
  i and switching that stage on (module `CutFilters`, class `CutFilter` over two arrays of length 4).
- **The processor's `prepareToPlay` and `processBlock`**:
  - They snapshot the parameters into a `ChainSettings` and design the band and cut coefficients.
  - They write the same values into the left and right chains (module `Processor`, class
    `EqProcessor`; module `Chains`, class `MonoChain`).
  - `processBlock` first zeroes every output channel that has no matching input channel.
  - `prepareToPlay` configures only the bands and the low cut.
- **The parameter layout and the snapshot** (module `Parameters`):
  - eleven float parameters with their ranges and defaults;
  - two slope choices whose labels are built in a loop;
  - `getChainSettings`, which copies the raw values into the snapshot.
- **The response-curve display** (module `ResponseCurve`):
  - A dirty flag: parameter listeners set it; a 30 Hz timer tests and clears it and, when it was
    set, retunes the display's own mono chain by the same rule as the processor.
  - `paint` produces one decibel magnitude per pixel column, the product over exactly the live
    stages.
  - Those magnitudes are clamped to ±24 dB, mapped linearly onto the component's rows, and joined
    into a path.

Filter coefficients are an abstract type parameter `C`. The library's design routines are given
functions, collected in `Chains.FilterDesign`:

- the peak-filter design;
- the decibel-to-gain conversion;
- the high-order Butterworth high-pass and low-pass designs.

The predicate `FilterDesign.Sound` states the one fact the model needs about the designs: a
Butterworth design of even order n returns n/2 second-order sections. A biquad's magnitude at a
frequency, `mapToLog10` and `gainToDecibels` are parameters of the display methods. The sample rate
and the parameters' raw values (a map from parameter ID to value) are parameters, not read from a
host. Floating-point values are modelled as reals.

The inline cascade code in `processBlock` and `prepareToPlay` (PluginProcessor.cpp) follows the same
rule as the header's `updateCutFilter` template, so the processor is modelled by calling
`CutFilter.UpdateCutFilter` on each chain. The editor calls helpers that are not defined in
PluginEditor.cpp or PluginProcessor.h:

- `makeBand1Filter` … `makeBand3Filter`, `makeLowCutFilter`, `makeHighCutFilter`;
- `updateCoefficients`;
- a free `updateCutFilter` and a `getChainSettings` reached through `getAPVTS`.

They are modelled as doing what the processor's inline code does: the same designs, and overwriting a
coefficient slot.

## Model

| member | source | states |
|---|---|---|
| Settings.SlopeValue | Source/PluginProcessor.h:16-22 | A slope enumerator converts to an integer in 0..3. |
| Settings.SlopeOf | Source/PluginProcessor.cpp:391-392 | Casting an index in 0..3 to `Slope` gives the enumerator whose value is that index. |
| Settings.SlopeEncoding | Source/PluginProcessor.h:16-22 | `Slope_12`..`Slope_48` are 0..3 in declaration order; the cast back inverts the conversion, which is injective. |
| Settings.PositionIndex | Source/PluginProcessor.h:97-104 | Every chain position has an index below 5. |
| Settings.PositionOrder | Source/PluginProcessor.h:97-104 | LowCut = 0, Band1..Band3 = 1..3, HighCut = 4; distinct positions have distinct indexes. |
| Settings.DefaultChainSettings | Source/PluginProcessor.h:25-32 | A default ChainSettings has all qualities 1, all frequencies and gains 0, and both slopes `Slope_12`. |
| Settings.ButterworthOrder | Source/PluginProcessor.cpp:139-144 | The order asked of a cut designer is even, it is between 2 and 8, and half of it is slope + 1. |
| Settings.ButterworthOrders | Source/PluginProcessor.cpp:261-266 | Slopes 12/24/36/48 dB/Oct ask for orders 2/4/6/8. |
| Parameters.DecimalString | Source/PluginProcessor.cpp:444 | Streaming a number into a string gives a non-empty string of decimal digits. |
| Parameters.DecimalStringValue | Source/PluginProcessor.cpp:444 | The streamed digits have no leading zero, and read in base ten they denote the number streamed. |
| Parameters.LabelSpelled | Source/PluginProcessor.cpp:443-445 | A label whose number has two digits is those two digits followed by " db/Oct". |
| Parameters.SlopeChoices | Source/PluginProcessor.cpp:441-447 | The label loop yields exactly the four slope labels, label i being 12 + 12·i followed by " db/Oct". |
| Parameters.SlopeLabelsSpelled | Source/PluginProcessor.cpp:441-447 | The slope labels are "12 db/Oct", "24 db/Oct", "36 db/Oct" and "48 db/Oct"; label i spells 12 + 12·i. |
| Parameters.ParameterLayout | Source/PluginProcessor.cpp:414-454 | The layout has 13 parameters with distinct IDs; each has version 1, is named by its ID, and has a default inside its range, or a default choice that exists. |
| Parameters.LayoutIdsUnique | Source/PluginProcessor.cpp:414-454 | The eleven float IDs and the two slope IDs are pairwise distinct, whatever labels the slope choices carry. |
| Parameters.LayoutEntriesValid | Source/PluginProcessor.cpp:414-454 | Given at least one label, every entry has version 1, is named by its ID, and has a default inside its range or a default choice that exists. |
| Parameters.CreateParameterLayout | Source/PluginProcessor.cpp:414-454 | The layout built with the label loop is exactly `ParameterLayout()`. |
| Parameters.LayoutRanges | Source/PluginProcessor.cpp:422-451 | Frequencies range over [20, 20000], gains over [-24, 24] and qualities over [0.1, 10]; both slope choices offer the four labels and default to index 0. |
| Parameters.RangesById | Source/PluginProcessor.cpp:422-438 | Each float parameter's range is the one its ID calls for: every gain has [-24, 24], every quality [0.1, 10], and every frequency (LowCut, HighCut, Band1..3) [20, 20000]. |
| Parameters.DefaultSnapshot | Source/PluginProcessor.cpp:422-451 | With every parameter at its default, the raw values lie within the layout, and the snapshot is LowCut 20, HighCut 20000, bands 250/2500/8000 Hz, gain 0, quality 1, both slopes `Slope_12`. |
| Parameters.GetChainSettings | Source/PluginProcessor.cpp:384-411 | Starting from a default ChainSettings, each field takes the raw value of its own parameter ID. Each slope is the raw choice value truncated to an integer. |
| Parameters.DefaultsWithinLayout | Source/PluginProcessor.cpp:422-451 | The default raw values of the layout lie within the layout: every float default in its range and every slope default a valid choice index. |
| Parameters.SnapshotWithinRanges | Source/PluginProcessor.cpp:384-411 | Raw values within the layout always contain every ID the snapshot reads, with slope indexes in 0..3; every snapshot field lies in its parameter's range. |
| CutFilters.Enable | Source/PluginProcessor.h:113-118 | `update<Index>`: stage k becomes live and holds the given section; every other stage keeps its flag and coefficients. |
| CutFilters.BypassAll | Source/PluginProcessor.h:126-129 | All four stages are bypassed; no coefficients change. |
| CutFilters.UpdatedCut | Source/PluginProcessor.h:121-151 | Stage i ends live exactly when 0 ≤ i ≤ slope ≤ 3; a live stage holds section i; every other stage keeps its old coefficients. |
| CutFilters.UpdatedCutForgetsBypass | Source/PluginProcessor.h:126-129 | The update's result does not depend on the bypass flags held before the call. |
| CutFilters.UpdatedCutIdempotent | Source/PluginProcessor.h:121-151 | Updating twice with the same sections and slope gives the state one update gives. |
| CutFilters.UpdatedCutOutOfRange | Source/PluginProcessor.h:126-150 | A slope outside 0..3 matches no case: every stage ends bypassed with its coefficients unchanged. |
| CutFilters.UpdatedCutLiveCount | Source/PluginProcessor.h:132-150 | After the update slope + 1 stages are live for slopes 0..3, and none otherwise. |
| CutFilters.CutFilter.constructor | Source/PluginProcessor.h:91 | A new cascade has four live stages holding the given coefficients. |
| CutFilters.CutFilter.Update | Source/PluginProcessor.h:113-118 | The in-place `update<Index>` leaves the cascade in the `Enable` state. |
| CutFilters.CutFilter.UpdateCutFilter | Source/PluginProcessor.h:121-151 | The in-place update (four bypasses, then the fall-through) leaves the cascade in the `UpdatedCut` state. |
| Chains.BandCoefficients | Source/PluginProcessor.cpp:236-249 | One peak-filter design per band, three in all. |
| Chains.LowCutCoefficients | Source/PluginProcessor.cpp:261-263 | The high-pass design of order 2·(slope+1) supplies slope + 1 sections. |
| Chains.HighCutCoefficients | Source/PluginProcessor.cpp:264-266 | The low-pass design of order 2·(slope+1) supplies slope + 1 sections. |
| Chains.DesignCoversSlope | Source/PluginProcessor.cpp:139-144 | Both designs supply exactly order/2 sections, one for every stage their slope enables. |
| Chains.Retuned | Source/PluginProcessor.cpp:251-338 | A retune leaves the three bands holding their designs and the position flags untouched. Each cascade is set from its own slope: stage i is live iff i ≤ slope, live stages hold their section, and the others keep their coefficients. |
| Chains.Prepared | Source/PluginProcessor.cpp:129-180 | As in `Retuned` for the bands and the low cut; the high-cut cascade is left exactly as it was. |
| Chains.RetunedAgree | Source/PluginProcessor.cpp:251-338 | Two chains with the same position flags, retuned from the same settings, end with the same bands, the same flags and the same live sections, whatever they held before. |
| Chains.RetunedIdempotent | Source/PluginProcessor.cpp:268-338 | Retuning twice with the same settings gives the state one retune gives. |
| Chains.RetuneOverridesPrepare | Source/PluginProcessor.cpp:146-180 | A block processed after `prepareToPlay` leaves the chain agreeing with one retuned without the preparation. |
| Chains.PaintedStages | Source/PluginEditor.cpp:200-225 | The display multiplies eleven stages per column (three bands, four low-cut stages, four high-cut stages). |
| Chains.AccumulatedIsLiveProduct | Source/PluginEditor.cpp:196-225 | Multiplying stage by stage and skipping bypassed stages gives the product over exactly the live stages. |
| Chains.AccumulatedStep | Source/PluginEditor.cpp:200-225 | One `if (!bypassed) mag *= …` step extends the running product by stage k exactly when k is live. |
| Chains.AllBypassedLiveNone | Source/PluginEditor.cpp:200-225 | With every stage bypassed no coefficients are multiplied in. |
| Chains.ChainMagnitudeAllBypassed | Source/PluginEditor.cpp:196-225 | With every stage bypassed the magnitude stays 1. |
| Chains.LiveCoefsAgree | Source/PluginEditor.cpp:200-225 | Stage lists with the same flags and the same live coefficients multiply the same coefficients. |
| Chains.AgreeSameMagnitude | Source/PluginEditor.cpp:196-225 | Chains that agree on flags and live sections draw the same magnitude at every frequency. |
| Chains.RetunedMagnitude | Source/PluginEditor.cpp:147-225 | After a retune the drawn magnitude depends only on the settings and the position flags, not on what the chain held before. |
| Chains.InitialChain | Source/PluginProcessor.h:89-95 | A default-constructed chain has no position and no cut stage bypassed, and every band and stage holds the identity coefficients. |
| Chains.InitialChainAllLive | Source/PluginEditor.cpp:196-225 | A default chain has all eleven drawn stages live, each holding the identity coefficients. |
| Chains.AllLiveCoefs | Source/PluginEditor.cpp:200-225 | With no stage bypassed every stage's coefficients are multiplied, in order. |
| Chains.MonoChain.constructor | Source/PluginProcessor.h:93-95 | A new chain is in the `InitialChain` state: nothing bypassed, every slot holding the given coefficients. |
| Chains.MonoChain.SetBand | Source/PluginProcessor.cpp:251-258 | Copying a band's coefficients changes that band's slot and nothing else in the chain. |
| Processor.ClearChannel | Source/PluginProcessor.cpp:231 | `buffer.clear(i, 0, numSamples)` zeroes every sample of channel i and no other channel. |
| Processor.ClearUnusedOutputs | Source/PluginProcessor.cpp:230-231 | Channels from totalNumInputChannels up to totalNumOutputChannels are all zero; every other channel is untouched. |
| Processor.EqProcessor.constructor | Source/PluginProcessor.h:95 | Both chains start in the `InitialChain` state (nothing bypassed, identity coefficients everywhere) and share no array. |
| Processor.EqProcessor.SetBands | Source/PluginProcessor.cpp:251-258 | Both chains receive the same three band coefficients; nothing else changes; the chains stay identical. |
| Processor.EqProcessor.UpdateLowCuts | Source/PluginProcessor.cpp:268-302 | Both chains' low-cut cascades are updated from the same sections and slope; nothing else changes. |
| Processor.EqProcessor.UpdateHighCuts | Source/PluginProcessor.cpp:304-338 | Both chains' high-cut cascades are updated from the same sections and slope; nothing else changes. |
| Processor.EqProcessor.RetuneChains | Source/PluginProcessor.cpp:233-338 | Both chains are retuned from one snapshot and stay identical. |
| Processor.EqProcessor.PrepareToPlay | Source/PluginProcessor.cpp:94-182 | Both chains are in the `Prepared` state: bands and low cut configured, high cut unchanged; the chains are identical. |
| Processor.EqProcessor.ProcessBlock | Source/PluginProcessor.cpp:216-338 | Outputs without input are zeroed and nothing else in the buffer changes. Both chains are retuned from the snapshot: each low-cut and high-cut stage is live exactly up to its own slope. The chains are identical. |
| ResponseCurve.Step | Source/PluginEditor.cpp:142-149 | After one event the flag is set exactly when the event was a parameter change. A recompute happens exactly when the event was a tick and the flag was set. |
| ResponseCurve.Run | Source/PluginEditor.cpp:142-173 | No events leave the flag as it was. After events the flag is set exactly when the last event was a change. There are never more recomputes than events. |
| ResponseCurve.RecomputesBoundedByChanges | Source/PluginEditor.cpp:142-173 | The curve is never recomputed more often than the parameters changed, counting a change pending at the start. |
| ResponseCurve.QuietTicks | Source/PluginEditor.cpp:147-173 | Ticks with no change in between recompute at most once: on the first tick, if the flag was set. |
| ResponseCurve.RunAppend | Source/PluginEditor.cpp:142-173 | Running a history and then more events is running the more events from where the history left the flag. |
| ResponseCurve.TwoTicksRecomputeAtMostOnce | Source/PluginEditor.cpp:147-173 | After any history, two consecutive timer ticks recompute at most once. |
| ResponseCurve.ChangeThenTickRecomputes | Source/PluginEditor.cpp:142-173 | A parameter change followed by a tick always recomputes and leaves the flag clear; no change is lost. |
| ResponseCurve.Jmap | Source/PluginEditor.cpp:240 | `jmap` takes the source minimum to the target minimum and the source maximum to the target maximum. |
| ResponseCurve.ClampDecibels | Source/PluginEditor.cpp:237-239 | The clamped magnitude lies in [-24, 24] and equals the input when the input already does. |
| ResponseCurve.MapToScreen | Source/PluginEditor.cpp:233-241 | The mapped row lies between `getY()` and `getBottom()`. -24 dB or less maps to the bottom, +24 dB or more to the top. |
| ResponseCurve.MapToScreenMonotone | Source/PluginEditor.cpp:235-241 | A louder magnitude is never drawn lower than a quieter one. |
| ResponseCurve.CurveRow | Source/PluginEditor.cpp:233-241 | The row drawn for a magnitude in the response area lies between `getY()` and `getBottom()`. -24 dB or less is drawn at the bottom, +24 dB or more at the top. |
| ResponseCurve.ColumnFraction | Source/PluginEditor.cpp:197 | Column i of w lies at i / w of the way across: a fraction in [0, 1). |
| ResponseCurve.ColumnFractionsIncrease | Source/PluginEditor.cpp:194-197 | Column i's fraction times the width is i, and columns further right lie at a strictly larger fraction. |
| ResponseCurve.ColumnFrequency | Source/PluginEditor.cpp:197 | Column i of w is drawn at `mapToLog10` of its column fraction, over 20 Hz to 20 kHz. |
| ResponseCurve.ResponseCurvePath | Source/PluginEditor.cpp:243-249 | One path element per magnitude. The first starts a sub-path at `getX()`; element i is a line to `getX() + i`. Each element's row is the mapped magnitude and lies inside the area. |
| ResponseCurve.PixelMagnitude | Source/PluginEditor.cpp:196-225 | The eleven guarded multiplications give the product of exactly the non-bypassed stages' magnitudes. |
| ResponseCurve.MultiplyStages | Source/PluginEditor.cpp:196-225 | The eleven guarded multiplications, starting from 1, end at the stage-by-stage accumulation over all the painted stages. |
| ResponseCurve.MultiplyStage | Source/PluginEditor.cpp:200-201 | One guarded multiplication multiplies stage k in exactly when it is not bypassed. |
| ResponseCurve.ResponseMagnitudes | Source/PluginEditor.cpp:190-229 | `mags` has one entry per column. Entry i is the decibel value of the chain's magnitude at `mapToLog10(i / w, 20, 20000)`. |
| ResponseCurve.ResponseCurveComponent.constructor | Source/PluginEditor.cpp:120-131 | A new component has its flag clear and a fresh chain of its own in the `InitialChain` state, which `paint` draws until the first parameter change. |
| ResponseCurve.ResponseCurveComponent.ParameterValueChanged | Source/PluginEditor.cpp:142-145 | Any parameter change, whatever its index and value, sets the flag. |
| ResponseCurve.ResponseCurveComponent.TimerCallback | Source/PluginEditor.cpp:147-173 | A tick clears the flag and repaints exactly when the flag was set. It then retunes the chain by the processor's rule, with each cut filter's own slope; otherwise the chain is unchanged. |
| ResponseCurve.ResponseCurveComponent.Paint | Source/PluginEditor.cpp:177-249 | The path has one point per column, at x = `getX() + i`. Its row is the mapped decibel magnitude of the chain at that column, within the area. |

## Left out

- The coefficient design (`makePeakFilter`, `decibelsToGain`, the Butterworth designers) is floating-point library code. It is a given function; only the number of sections a design returns is stated, by `FilterDesign.Sound`.
- Filtering the samples (`leftChain.process` / `rightChain.process` on single-channel blocks) is library DSP code on float samples and is not modelled.
- `leftChain.prepare` / `rightChain.prepare` reset the filters' sample history, which has no counterpart in the modelled state. `samplesPerBlock` is accepted and unused.
- `getMagnitudeForFrequency`, `mapToLog10` and `gainToDecibels` are float and logarithm numerics and are given functions.
- Floating-point values (parameters, magnitudes, rows) are reals. Float rounding and the float-to-double widening in `paint` are not modelled.
- The atomic `load()` of each raw value, the atomic compare-and-set of the dirty flag, and all concurrency between the audio thread, the timer and the listener callbacks are left out. The flag is modelled sequentially.
- Listener registration and removal, and starting the 30 Hz timer, are not modelled. `repaint()` is the `repaint` result of `TimerCallback`.
- GUI code is not modelled: the look-and-feel, the rotary sliders, the editor's layout, stroking the path and drawing the border.
- Host boilerplate is not modelled: programs, MIDI flags, bus layouts, state save and restore, the generic editor.
- Processor.EqProcessor.UpdateLowCuts: the source interleaves the left and right chains stage by stage. The model updates the left cascade fully and then the right one. The chains share no state, so the final state is the same, but the order of the individual writes is not modelled.
- Processor.EqProcessor.UpdateHighCuts: the high-cut switch interleaves left and right in the same way. The model again updates the left cascade and then the right one; the order of the individual writes is not modelled.
- Parameters.GetChainSettings: requires each slope's raw value to be a choice index in [0, 4). A cast of any other value to `Slope` gives an enumerator with no case, which the model does not represent.
- ResponseCurve.ResponseCurvePath: requires at least one magnitude. `mags.front()` on an empty vector, which a zero-width component would produce, is undefined behaviour and is not modelled.
- All five position-level bypass flags are kept in the state. `paint` reads the Band1..Band3 position flags. It never reads the LowCut or HighCut position flags, only their stages' flags. Nothing in the modelled code sets any position flag, so they keep their initial value (not bypassed).
- The editor helpers `makeBand*Filter`, `makeLowCutFilter`, `makeHighCutFilter`, `updateCoefficients`, the free `updateCutFilter` and `getAPVTS` are not defined in PluginEditor.cpp or PluginProcessor.h. They are modelled by the processor's own rule: the same designs, and overwriting a slot.
- `updateFilters`, `updateBandFilters`, `updateLowCutFilter` and `updateHighCutFilter` are declared in PluginProcessor.h but not defined in any modelled file, and nothing modelled calls them.
- No FIFO, sample-collector or spectrum-analyser code appears in PluginProcessor.cpp, PluginProcessor.h or PluginEditor.cpp, so none is modelled.
