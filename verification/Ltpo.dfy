/** LTPO refresh control: a step table, a boost-hold window after high requests, and hardware writes that may
    fail. */
module Ltpo {

  datatype SfmStep = SfmStep(hz: int, sfmIndex: int)

  const STEPS: seq<SfmStep> :=
    [SfmStep(1, 11), SfmStep(10, 10), SfmStep(24, 9), SfmStep(30, 8), SfmStep(60, 7), SfmStep(120, 16)]

  // 200 ms, in nanoseconds of the steady clock.
  const BOOST_HOLD: int := 200_000_000

  /** writes is the sequence of indices written successfully; the panel shows the last one. */
  datatype Control = Control(fdOpen: bool, enabled: bool, currentHz: int, boostUntil: int, writes: seq<int>)

  // The panel starts at the 120 Hz index.
  function PanelIndex(s: Control): int {
    if s.writes == [] then 16 else s.writes[|s.writes| - 1]
  }

  /** What the panel shows at a given index; 0 for an index that is not in the table. */
  function HzOf(index: int): int {
    if index == 11 then 1
    else if index == 10 then 10
    else if index == 9 then 24
    else if index == 8 then 30
    else if index == 7 then 60
    else if index == 16 then 120
    else 0
  }

  function WriteSfm(s: Control, index: int, hz: int, ok: bool): Control {
    if s.fdOpen && ok then s.(writes := s.writes + [index], currentHz := hz) else s
  }

  // Without variable refresh rate only 1 Hz and 120 Hz are asked for.
  function Adjusted(targetHz: int, vrr: bool): int {
    if vrr then targetHz else if targetHz <= 1 then 1 else 120
  }

  function Boosted(s: Control, adjusted: int, now: int): int {
    if adjusted < 120 && now < s.boostUntil then 120 else adjusted
  }

  /** The first of the steps from k on that is at least t, or the last step. */
  function StepFor(t: int, k: nat): SfmStep
    requires k < |STEPS|
    decreases |STEPS| - k
  {
    if STEPS[k].hz >= t || k == |STEPS| - 1 then STEPS[k] else StepFor(t, k + 1)
  }

  function SetTargetHz(s: Control, targetHz: int, vrr: bool, now: int, ok: bool): (Control, int) {
    if !s.enabled then (s, 120)
    else
      var adjusted := Adjusted(targetHz, vrr);
      var s1 := if adjusted >= 120 then s.(boostUntil := now + BOOST_HOLD) else s;
      var best := StepFor(Boosted(s, adjusted, now), 0);
      (if s1.currentHz != best.hz then WriteSfm(s1, best.sfmIndex, best.hz, ok) else s1, best.hz)
  }

  function SetEnabled(s: Control, enabled: bool, ok: bool): Control {
    var s1 := s.(enabled := enabled);
    if enabled then s1 else WriteSfm(s1, 16, 120, ok)
  }

  class LtpoControl {
    const sfmFdOpen: bool
    var enabled: bool
    var currentHz: int
    var boostUntil: int
    ghost var writes: seq<int>

    ghost function Contents(): Control
      reads this
    {
      Control(sfmFdOpen, enabled, currentHz, boostUntil, writes)
    }

    constructor (fdOk: bool)
      ensures Contents() == Control(fdOk, fdOk, 120, 0, [])
    {
      sfmFdOpen, enabled, currentHz, boostUntil, writes := fdOk, fdOk, 120, 0, [];
    }

    method WriteToPanel(index: int, ok: bool) returns (success: bool)
      modifies this`writes
      ensures success <==> sfmFdOpen && ok
      ensures writes == if success then old(writes) + [index] else old(writes)
    {
      success := false;
      if sfmFdOpen && ok {
        writes := writes + [index];
        success := true;
      }
    }

    method Enable(on: bool, ok: bool)
      modifies this
      ensures Contents() == SetEnabled(old(Contents()), on, ok)
    {
      enabled := on;
      if !on {
        var success := WriteToPanel(STEPS[5].sfmIndex, ok);
        if success {
          currentHz := 120;
        }
      }
    }

    method SetTarget(targetHz: int, vrr: bool, now: int, ok: bool) returns (actual: int)
      modifies this
      ensures (Contents(), actual) == SetTargetHz(old(Contents()), targetHz, vrr, now, ok)
    {
      if !enabled {
        return 120;
      }
      var target := targetHz;
      if !vrr {
        target := if target <= 1 then 1 else 120;
      }
      if target >= 120 {
        boostUntil := now + BOOST_HOLD;
      } else if now < boostUntil {
        target := 120;
      }
      var bestHz, bestSfm := 120, STEPS[5].sfmIndex;
      var k := 0;
      while k < |STEPS|
        invariant k <= |STEPS|
        invariant bestHz == 120 && bestSfm == STEPS[5].sfmIndex
        invariant k < |STEPS| ==> StepFor(target, 0) == StepFor(target, k)
        invariant k == |STEPS| ==> StepFor(target, 0) == STEPS[5]
      {
        if STEPS[k].hz >= target {
          bestHz, bestSfm := STEPS[k].hz, STEPS[k].sfmIndex;
          break;
        }
        k := k + 1;
      }
      if currentHz != bestHz {
        var success := WriteToPanel(bestSfm, ok);
        if success {
          currentHz := bestHz;
        }
      }
      actual := bestHz;
    }
  }

  // ---- The step search ----

  predicate IsRate(hz: int) {
    hz == 1 || hz == 10 || hz == 24 || hz == 30 || hz == 60 || hz == 120
  }

  /** hz is the lowest supported rate of at least t, or 120 if there is none. */
  predicate IsBestRate(hz: int, t: int) {
    && IsRate(hz)
    && (t <= 120 ==> t <= hz && forall other :: IsRate(other) && t <= other ==> hz <= other)
    && (120 < t ==> hz == 120)
  }

  lemma {:induction false} StepForIsBest(t: int, k: nat)
    requires k < |STEPS|
    requires forall j :: 0 <= j < k ==> STEPS[j].hz < t
    ensures IsBestRate(StepFor(t, k).hz, t)
    ensures StepFor(t, k) in STEPS && HzOf(StepFor(t, k).sfmIndex) == StepFor(t, k).hz
    decreases |STEPS| - k
  {
    if STEPS[k].hz < t && k < |STEPS| - 1 {
      StepForIsBest(t, k + 1);
    } else {
      assert k > 0 ==> STEPS[k - 1].hz < t;
    }
  }

  // ---- Time-stamped runs ----

  datatype Op =
    | Target(hz: int, vrr: bool, now: int, ok: bool)
    | Switch(on: bool, now: int, ok: bool)

  function Apply(s: Control, op: Op): Control {
    match op
    case Target(hz, vrr, now, ok) => SetTargetHz(s, hz, vrr, now, ok).0
    case Switch(on, _, ok) => SetEnabled(s, on, ok)
  }

  /** A run on a monotone clock that has started at zero. */
  predicate IsRun(ss: seq<Control>, ops: seq<Op>) {
    && |ss| == |ops| + 1
    && (ss[0] == Control(true, true, 120, 0, []) || ss[0] == Control(false, false, 120, 0, []))
    && (forall i :: 0 <= i < |ops| ==> 0 <= ops[i].now && ss[i + 1] == Apply(ss[i], ops[i]))
    && (forall i, j :: 0 <= i < j < |ops| ==> ops[i].now <= ops[j].now)
  }

  /** What is asked for: any rate with variable refresh rate, otherwise 1 Hz for at most 1 and 120 Hz above. */
  function Asked(op: Op): int
    requires op.Target?
  {
    if op.vrr then op.hz else if op.hz <= 1 then 1 else 120
  }

  /** An enabled request that asks for at least 120 Hz. */
  predicate IsBoost(s: Control, op: Op) {
    s.enabled && op.Target? && Asked(op) >= 120
  }

  /** The history says that the hold is on: some earlier boost was less than 200 ms ago. */
  predicate HoldIsOn(ss: seq<Control>, ops: seq<Op>, i: nat, now: int)
    requires |ss| == |ops| + 1 && i <= |ops|
  {
    exists j :: 0 <= j < i && IsBoost(ss[j], ops[j]) && now - ops[j].now < 200_000_000
  }

  lemma {:induction false} BoostUntilTellsHold(ss: seq<Control>, ops: seq<Op>, i: nat, now: int)
    requires IsRun(ss, ops) && i <= |ops| && 0 <= now
    requires forall j :: 0 <= j < i ==> ops[j].now <= now
    ensures now < ss[i].boostUntil <==> HoldIsOn(ss, ops, i, now)
  {
    if i != 0 {
      var j := i - 1;
      BoostUntilTellsHold(ss, ops, j, now);
      assert ss[i] == Apply(ss[j], ops[j]);
      if IsBoost(ss[j], ops[j]) {
        assert ss[i].boostUntil == ops[j].now + BOOST_HOLD;
        forall k | 0 <= k < i && IsBoost(ss[k], ops[k]) && now - ops[k].now < 200_000_000
          ensures now - ops[j].now < 200_000_000
        {
          assert ops[k].now <= ops[j].now;
        }
      } else {
        assert ss[i].boostUntil == ss[j].boostUntil;
      }
    }
  }

  /** Boost-hold refinement: every enabled request returns the best rate for t, where t is 120 iff at least
      120 Hz are asked for or a boost happened less than 200 ms ago (requests above 120 get 120 too), and what is
      asked for otherwise. */
  lemma {:induction false} TargetFollowsHistory(ss: seq<Control>, ops: seq<Op>, i: nat)
    requires IsRun(ss, ops) && i < |ops| && ops[i].Target? && ss[i].enabled
    ensures var op := ops[i];
            var t := if Asked(op) >= 120 || HoldIsOn(ss, ops, i, op.now) then 120 else Asked(op);
            IsBestRate(SetTargetHz(ss[i], op.hz, op.vrr, op.now, op.ok).1, t)
  {
    var op := ops[i];
    var adjusted := Adjusted(op.hz, op.vrr);
    BoostUntilTellsHold(ss, ops, i, op.now);
    var t := Boosted(ss[i], adjusted, op.now);
    StepForIsBest(t, 0);
    if adjusted >= 120 {
      assert StepFor(t, 0).hz == 120;
      assert IsBestRate(120, 120) by {
        assert STEPS[5].hz == 120;
      }
    }
  }

  /** Requests below 120 Hz, and all requests while disabled, never extend the hold. */
  lemma {:induction false} OnlyBoostsExtendHold(s: Control, op: Op)
    ensures Apply(s, op).boostUntil == if IsBoost(s, op) then op.now + BOOST_HOLD else s.boostUntil
  {
  }

  // ---- The panel ----

  predicate Agrees(s: Control) {
    s.currentHz == HzOf(PanelIndex(s)) && IsRate(s.currentHz)
  }

  lemma {:induction false} ApplyKeepsAgreement(s: Control, op: Op)
    requires Agrees(s)
    ensures Agrees(Apply(s, op))
  {
    assert STEPS[5].hz == 120;
    if op.Target? {
      StepForIsBest(Boosted(s, Adjusted(op.hz, op.vrr), op.now), 0);
    }
  }

  /** Panel agreement: whatever writes fail, the current rate is that of the last successfully written index. */
  lemma {:induction false} PanelAgreement(ss: seq<Control>, ops: seq<Op>, i: nat)
    requires IsRun(ss, ops) && i < |ss|
    ensures ss[i].currentHz == HzOf(PanelIndex(ss[i])) && IsRate(ss[i].currentHz)
  {
    if i == 0 {
      assert STEPS[5].hz == 120;
    } else {
      PanelAgreement(ss, ops, i - 1);
      ApplyKeepsAgreement(ss[i - 1], ops[i - 1]);
    }
  }

  /** A request writes at most one index, that of the chosen rate, exactly when the panel shows another rate and the
      write goes through, so a failed write is retried by the next request. */
  lemma {:induction false} WritesOnlyChanges(ss: seq<Control>, ops: seq<Op>, i: nat)
    requires IsRun(ss, ops) && i < |ops| && ops[i].Target?
    ensures var op, s := ops[i], ss[i];
            var rate := SetTargetHz(s, op.hz, op.vrr, op.now, op.ok).1;
            if s.enabled && s.fdOpen && op.ok && HzOf(PanelIndex(s)) != rate
            then ss[i + 1].writes == s.writes + [PanelIndex(ss[i + 1])] && HzOf(PanelIndex(ss[i + 1])) == rate
            else ss[i + 1].writes == s.writes
  {
    PanelAgreement(ss, ops, i);
    PanelAgreement(ss, ops, i + 1);
  }

  /** Disabling shows 120 Hz, writing its index even if the panel shows it, unless the write fails; enabling writes
      nothing. */
  lemma {:induction false} SwitchWrites(ss: seq<Control>, ops: seq<Op>, i: nat)
    requires IsRun(ss, ops) && i < |ops| && ops[i].Switch?
    ensures ss[i + 1].writes == ss[i].writes + if !ops[i].on && ss[i].fdOpen && ops[i].ok then [16] else []
    ensures !ops[i].on && ss[i].fdOpen && ops[i].ok ==> HzOf(PanelIndex(ss[i + 1])) == 120
  {
    assert ss[i].writes + [] == ss[i].writes;
  }

  function LastSwitch(ops: seq<Op>, i: nat, start: bool): bool
    requires i <= |ops|
  {
    if i == 0 then start else if ops[i - 1].Switch? then ops[i - 1].on else LastSwitch(ops, i - 1, start)
  }

  /** The control is enabled as last switched, and at first iff the node opened; while it is disabled a request
      returns 120 and changes nothing. */
  lemma {:induction false} EnabledIsLastSwitch(ss: seq<Control>, ops: seq<Op>, i: nat)
    requires IsRun(ss, ops) && i < |ss|
    ensures ss[i].fdOpen == ss[0].fdOpen
    ensures ss[i].enabled == LastSwitch(ops, i, ss[0].fdOpen)
    ensures i < |ops| && ops[i].Target? && !ss[i].enabled ==>
              ss[i + 1] == ss[i] && SetTargetHz(ss[i], ops[i].hz, ops[i].vrr, ops[i].now, ops[i].ok).1 == 120
  {
    if i != 0 {
      EnabledIsLastSwitch(ss, ops, i - 1);
      assert ss[i] == Apply(ss[i - 1], ops[i - 1]);
    }
    if i < |ops| {
      assert ss[i + 1] == Apply(ss[i], ops[i]);
    }
  }

  /** The returned rate is the chosen one even when its write fails: it is the panel's rate iff the panel shows
      it already or, when enabled, the write goes through. */
  lemma {:induction false} ReturnedRateIsPanelRateIff(ss: seq<Control>, ops: seq<Op>, i: nat)
    requires IsRun(ss, ops) && i < |ops| && ops[i].Target?
    ensures var op := ops[i];
            var rate := SetTargetHz(ss[i], op.hz, op.vrr, op.now, op.ok).1;
            rate == HzOf(PanelIndex(ss[i + 1])) <==>
              ss[i].currentHz == rate || (ss[i].enabled && ss[i].fdOpen && op.ok)
  {
    PanelAgreement(ss, ops, i);
    PanelAgreement(ss, ops, i + 1);
  }
}
