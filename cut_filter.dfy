/**
 * The cut-filter cascade: four biquad stages in series, each of which can be
 * bypassed. A stage's coefficients are of an abstract type C; designing them
 * is not part of this module.
 */
module CutFilters {

  const StageCount := 4

  /** The observable state of a cascade: each stage's bypass flag and coefficients. */
  datatype CutState<C> = CutState(bypassed: seq<bool>, coefs: seq<C>) {
    ghost predicate WellFormed() {
      |bypassed| == StageCount && |coefs| == StageCount
    }
  }

  /** `update<Index>`: stage k takes the replacement coefficients and is switched on; no other stage changes. */
  function Enable<C>(st: CutState<C>, k: nat, c: C): (r: CutState<C>)
    requires st.WellFormed() && k < StageCount
    ensures r.WellFormed()
    ensures !r.bypassed[k] && r.coefs[k] == c
    ensures forall j :: 0 <= j < StageCount && j != k ==>
      r.bypassed[j] == st.bypassed[j] && r.coefs[j] == st.coefs[j]
  {
    CutState(st.bypassed[k := false], st.coefs[k := c])
  }

  /** The four setBypassed<k>(true) calls: every stage bypassed, coefficients kept. */
  function BypassAll<C>(st: CutState<C>): (r: CutState<C>)
    requires st.WellFormed()
    ensures r.WellFormed() && r.coefs == st.coefs
    ensures forall j :: 0 <= j < StageCount ==> r.bypassed[j]
  {
    CutState([true, true, true, true], st.coefs)
  }

  /**
   * The switch over the slope reaches the case of stage k when it is entered at
   * label `slope` and falls through down to k: when k <= slope <= 3. A slope
   * outside 0..3 matches no label.
   */
  predicate Reached(slope: int, k: nat) {
    k <= slope < StageCount
  }

  /** Whether the designed coefficients cover every stage the slope reaches. */
  predicate Covers<C>(cs: seq<C>, slope: int) {
    0 <= slope < StageCount ==> slope < |cs|
  }

  /**
   * updateCutFilter: bypass all four stages, then, falling through from the
   * case for `slope`, enable stages 3, 2, 1, 0 in turn with their coefficients.
   */
  function UpdatedCut<C>(st: CutState<C>, cs: seq<C>, slope: int): (r: CutState<C>)
    requires st.WellFormed() && Covers(cs, slope)
    ensures r.WellFormed()
    ensures forall i :: 0 <= i < StageCount ==> (r.bypassed[i] <==> !(0 <= i <= slope <= 3))
    ensures forall i :: 0 <= i < StageCount ==>
      r.coefs[i] == if 0 <= i <= slope <= 3 then cs[i] else st.coefs[i]
  {
    var s0 := BypassAll(st);
    var s3 := if Reached(slope, 3) then Enable(s0, 3, cs[3]) else s0;
    var s2 := if Reached(slope, 2) then Enable(s3, 2, cs[2]) else s3;
    var s1 := if Reached(slope, 1) then Enable(s2, 1, cs[1]) else s2;
    if Reached(slope, 0) then Enable(s1, 0, cs[0]) else s1
  }

  /** Two cascades that agree stage by stage are equal. */
  lemma StateExt<C>(a: CutState<C>, b: CutState<C>)
    requires a.WellFormed() && b.WellFormed()
    requires forall i :: 0 <= i < StageCount ==> a.bypassed[i] == b.bypassed[i] && a.coefs[i] == b.coefs[i]
    ensures a == b
  {
    assert a.bypassed == b.bypassed;
    assert a.coefs == b.coefs;
  }

  /** The bypass flags after the update do not depend on the flags before it,
      because all four are bypassed first; coefficients are all that is carried over. */
  lemma UpdatedCutForgetsBypass<C>(a: CutState<C>, b: CutState<C>, cs: seq<C>, slope: int)
    requires a.WellFormed() && b.WellFormed() && Covers(cs, slope)
    requires a.coefs == b.coefs
    ensures UpdatedCut(a, cs, slope) == UpdatedCut(b, cs, slope)
  {
    StateExt(UpdatedCut(a, cs, slope), UpdatedCut(b, cs, slope));
  }

  /** Updating twice with the same coefficients and slope is the same as updating once. */
  lemma UpdatedCutIdempotent<C>(st: CutState<C>, cs: seq<C>, slope: int)
    requires st.WellFormed() && Covers(cs, slope)
    ensures UpdatedCut(UpdatedCut(st, cs, slope), cs, slope) == UpdatedCut(st, cs, slope)
  {
    var once := UpdatedCut(st, cs, slope);
    StateExt(UpdatedCut(once, cs, slope), once);
  }

  /** A slope outside 0..3 matches no case: every stage ends bypassed, no coefficient changes. */
  lemma UpdatedCutOutOfRange<C>(st: CutState<C>, cs: seq<C>, slope: int)
    requires st.WellFormed()
    requires slope < 0 || 3 < slope
    ensures UpdatedCut(st, cs, slope) == BypassAll(st)
  {
    StateExt(UpdatedCut(st, cs, slope), BypassAll(st));
  }

  /** The number of stages that are not bypassed. */
  function LiveCount(bypassed: seq<bool>): (n: nat)
    ensures n <= |bypassed|
  {
    if bypassed == [] then 0
    else LiveCount(bypassed[..|bypassed| - 1]) + (if bypassed[|bypassed| - 1] then 0 else 1)
  }

  /** For a slope in 0..3 exactly slope + 1 stages are live; for any other slope none is. */
  lemma UpdatedCutLiveCount<C>(st: CutState<C>, cs: seq<C>, slope: int)
    requires st.WellFormed() && Covers(cs, slope)
    ensures LiveCount(UpdatedCut(st, cs, slope).bypassed) == if 0 <= slope <= 3 then slope + 1 else 0
  {
    var b := UpdatedCut(st, cs, slope).bypassed;
    LiveCountStep(b, 0);
    LiveCountStep(b, 1);
    LiveCountStep(b, 2);
    LiveCountStep(b, 3);
    assert b[..4] == b;
  }

  lemma LiveCountStep(b: seq<bool>, k: nat)
    requires k < |b|
    ensures LiveCount(b[..k + 1]) == LiveCount(b[..k]) + if b[k] then 0 else 1
  {
    assert b[..k + 1][..k] == b[..k];
  }

  /** One cascade of a chain: the bypass flags and coefficient slots of its four stages. */
  class CutFilter<C> {
    const bypassed: array<bool>
    const coefs: array<C>

    ghost predicate Valid() {
      bypassed.Length == StageCount && coefs.Length == StageCount && bypassed as object != coefs as object
    }

    ghost function Repr(): set<object> {
      {bypassed, coefs}
    }

    function State(): (st: CutState<C>)
      reads bypassed, coefs
      requires Valid()
      ensures st.WellFormed()
    {
      CutState(bypassed[..], coefs[..])
    }

    /** A fresh cascade: every stage live, holding the given (identity) coefficients. */
    constructor (identity: C)
      ensures Valid() && fresh(bypassed) && fresh(coefs)
      ensures State() == CutState([false, false, false, false], [identity, identity, identity, identity])
    {
      bypassed := new bool[StageCount](_ => false);
      coefs := new C[StageCount](_ => identity);
      new;
      assert bypassed[..] == [false, false, false, false];
      assert coefs[..] == [identity, identity, identity, identity];
    }

    /** `update<Index>`: replace stage k's coefficients with cs[k] and switch the stage on. */
    method Update(k: nat, cs: seq<C>)
      requires Valid() && k < StageCount && k < |cs|
      modifies bypassed, coefs
      ensures State() == Enable(old(State()), k, cs[k])
    {
      coefs[k] := cs[k];
      bypassed[k] := false;
      StateExt(State(), Enable(old(State()), k, cs[k]));
    }

    /** `updateCutFilter`: bypass all four stages, then enable stages slope..0 by falling through. */
    method UpdateCutFilter(cs: seq<C>, slope: int)
      requires Valid() && Covers(cs, slope)
      modifies bypassed, coefs
      ensures State() == UpdatedCut(old(State()), cs, slope)
    {
      bypassed[0] := true;
      bypassed[1] := true;
      bypassed[2] := true;
      bypassed[3] := true;
      StateExt(State(), BypassAll(old(State())));
      if slope == 3 {
        Update(3, cs);
      }
      if 2 <= slope <= 3 {
        Update(2, cs);
      }
      if 1 <= slope <= 3 {
        Update(1, cs);
      }
      if 0 <= slope <= 3 {
        Update(0, cs);
      }
    }
  }
}
