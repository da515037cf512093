/**
 * The ascending-level 1 kHz test of script.js as a state machine over
 * `State`: the two globals `dbhlCurrentDbfs` and `dbhlRunning`, the log of
 * tones played and the result line. Each handler is a function from the state
 * before the click to the state after it; the class in dbhl.dfy runs them in
 * place.
 */
module Staircase {
  import opened Wrappers
  import opened JsNumber
  import Calibration

  const MinLevel: real := -120.0
  const MaxLevel: real := 0.0
  /** Initial value of dbhlCurrentDbfs, and the level used for an empty start field. */
  const DefaultStartLevel: real := -90.0
  /** The step used when the step field is not a finite positive number. */
  const DefaultStep: real := 2.0

  /** What the result line shows: a threshold heard, or the full-scale ceiling reached. */
  datatype Report = Threshold(hl: real) | Ceiling(hl: real)

  /**
   * level: dbhlCurrentDbfs; running: dbhlRunning; played: the levels of the
   * tones played, in order, since the test screen was opened (the dbhl-log
   * text); result: the dbhl-result text, None when it is empty.
   */
  datatype State = State(level: real, running: bool, played: seq<real>, result: Option<Report>)

  predicate InRange(x: real) { MinLevel <= x <= MaxLevel }

  /** The invariant: the level, and every level played, lies in [-120, 0] dBFS. */
  predicate Valid(s: State)
  {
    InRange(s.level) && forall i :: 0 <= i < |s.played| ==> InRange(s.played[i])
  }

  /** The globals as the page loads them. */
  function Initial(): State
  {
    State(DefaultStartLevel, false, [], None)
  }

  /** startDbHlTest: clears result and log and stops any test; the level is kept. */
  function Opened(s: State): State
  {
    s.(running := false, played := [], result := None)
  }

  /**
   * `Math.max(-120, Math.min(0, startDb))` exactly as written; a NaN start
   * value passes through both and becomes the level.
   */
  function ClampAsWritten(startDb: Number): Number
  {
    Max(Finite(MinLevel), Min(Finite(MaxLevel), startDb))
  }

  /** The start value: an empty field reads as "-90". */
  function StartValue(field: Option<Number>): Number
  {
    if field.None? then Finite(DefaultStartLevel) else field.value
  }

  /**
   * The starting level, clamped into [-120, 0]; a non-numeric field is read
   * as the empty field's -90 (see Findings in README.md).
   */
  function StartLevel(field: Option<Number>): (r: real)
    ensures InRange(r)
    ensures field.None? ==> r == DefaultStartLevel
    ensures field == Some(NaN) ==> r == DefaultStartLevel
    ensures field == Some(PosInfinity) ==> r == MaxLevel
    ensures field == Some(NegInfinity) ==> r == MinLevel
    ensures field.Some? && field.value.Finite? ==>
      var x := field.value.value;
      (x <= MinLevel ==> r == MinLevel) && (x >= MaxLevel ==> r == MaxLevel) &&
      (MinLevel < x < MaxLevel ==> r == x)
  {
    var v := StartValue(field);
    if v.NaN? then DefaultStartLevel
    else
      var c := ClampAsWritten(v);
      if c.Finite? then c.value else DefaultStartLevel
  }

  /** The Start button: set the clamped level, mark running, play the first tone. */
  function Started(s: State, field: Option<Number>): State
  {
    var level := StartLevel(field);
    s.(level := level, running := true, played := s.played + [level])
  }

  /** The Replay button: replay the tone at the current level, only while running. */
  function Replayed(s: State): State
  {
    if s.running then s.(played := s.played + [s.level]) else s
  }

  /** The Yes button: report the dB HL of the current level and stop. */
  function AnsweredYes(s: State): State
  {
    if !s.running then s
    else s.(result := Some(Threshold(Calibration.HearingLevel(s.level))), running := false)
  }

  /** `step` after `if (!Number.isFinite(step) || step <= 0) step = 2.0`. */
  function EffectiveStep(stepField: Number): (step: real)
    ensures step > 0.0
    ensures stepField.Finite? && stepField.value > 0.0 ==> step == stepField.value
    ensures !(stepField.Finite? && stepField.value > 0.0) ==> step == DefaultStep
  {
    if !stepField.Finite? || stepField.value <= 0.0 then DefaultStep else stepField.value
  }

  /**
   * The No button: raise the level by the step and play it, or, when that
   * would reach 0 dBFS or beyond, pin the level to 0, report the ceiling and stop.
   */
  function AnsweredNo(s: State, stepField: Number): State
  {
    if !s.running then s
    else
      var proposed := s.level + EffectiveStep(stepField);
      if proposed >= 0.0 then
        s.(level := 0.0, result := Some(Ceiling(Calibration.HearingLevel(0.0))), running := false)
      else
        s.(level := proposed, played := s.played + [proposed])
  }

  /** `n` consecutive No clicks, all with the same step field. */
  function PressNo(s: State, stepField: Number, n: nat): State
    decreases n
  {
    if n == 0 then s else PressNo(AnsweredNo(s, stepField), stepField, n - 1)
  }

  /** The levels L + x, L + 2x, ..., L + n*x that n upward steps play. */
  function Ramp(start: real, x: real, n: nat): (r: seq<real>)
  {
    seq(n, i requires 0 <= i < n => start + ((i + 1) as real) * x)
  }

  // ---------------------------------------------------------------- properties

  /** The page starts with a valid, idle state, and opening the test keeps it valid and idle. */
  lemma InitialAndOpened(s: State)
    ensures Valid(Initial()) && !Initial().running
    ensures Valid(s) ==> Valid(Opened(s)) && !Opened(s).running
    ensures Opened(s).played == [] && Opened(s).result.None? && Opened(s).level == s.level
  {
  }

  /** Start: the level is max(-120, min(0, start)), the test runs, and a tone is played at that level. */
  lemma StartClamps(s: State, x: real)
    ensures var t := Started(s, Some(Finite(x)));
      t.running && InRange(t.level) &&
      t.level == (if x < MinLevel then MinLevel else if x > MaxLevel then MaxLevel else x) &&
      t.played == s.played + [t.level] && t.result == s.result
  {
  }

  /** Every handler keeps the level and every level played in [-120, 0]. */
  lemma HandlersKeepValid(s: State, field: Option<Number>, stepField: Number)
    requires Valid(s)
    ensures Valid(Opened(s)) && Valid(Started(s, field)) && Valid(Replayed(s))
    ensures Valid(AnsweredYes(s)) && Valid(AnsweredNo(s, stepField))
  {
  }

  /** While the test is not running, Replay, Yes and No change nothing and play nothing. */
  lemma IdleResponsesIgnored(s: State, stepField: Number)
    requires !s.running
    ensures Replayed(s) == s && AnsweredYes(s) == s && AnsweredNo(s, stepField) == s
  {
  }

  /** While running, Replay replays the current level and changes neither level, flag nor result. */
  lemma ReplayKeepsState(s: State)
    requires s.running
    ensures var t := Replayed(s);
      t.level == s.level && t.running && t.result == s.result && t.played == s.played + [s.level]
    ensures Replayed(s).(played := s.played) == s
  {
  }

  /** While running, Yes stops the test at the unchanged level and reports its hearing level. */
  lemma YesStops(s: State)
    requires s.running
    ensures var t := AnsweredYes(s);
      !t.running && t.level == s.level && t.played == s.played &&
      t.result == Some(Threshold(Calibration.HearingLevel(s.level)))
  {
  }

  /** No below the ceiling: the level rises by exactly the step, stays below 0, and is played. */
  lemma NoStepsUp(s: State, stepField: Number)
    requires s.running
    requires s.level + EffectiveStep(stepField) < 0.0
    ensures var t := AnsweredNo(s, stepField);
      t.running && t.level == s.level + EffectiveStep(stepField) &&
      s.level < t.level < 0.0 && t.played == s.played + [t.level] && t.result == s.result
  {
  }

  /** No at or past the ceiling: the level is exactly 0 and the test stops, however large the step. */
  lemma NoHitsCeiling(s: State, stepField: Number)
    requires s.running
    requires s.level + EffectiveStep(stepField) >= 0.0
    ensures var t := AnsweredNo(s, stepField);
      !t.running && t.level == 0.0 && t.played == s.played &&
      t.result == Some(Ceiling(Calibration.K))
  {
  }

  /** Clicks after the test has stopped are ignored, however many. */
  lemma {:induction false} PressNoIdle(s: State, stepField: Number, n: nat)
    requires !s.running
    ensures PressNo(s, stepField, n) == s
    decreases n
  {
    if n > 0 {
      PressNoIdle(AnsweredNo(s, stepField), stepField, n - 1);
    }
  }

  /**
   * The ascent: n No clicks with step x > 0 that stay below 0 dBFS leave the
   * test running at exactly L + n*x, having played L + x, ..., L + n*x.
   */
  lemma {:induction false} Ascent(s: State, x: real, n: nat)
    requires s.running && x > 0.0
    requires s.level + (n as real) * x < 0.0
    ensures PressNo(s, Finite(x), n) ==
      s.(level := s.level + (n as real) * x, played := s.played + Ramp(s.level, x, n))
    decreases n
  {
    if n > 0 {
      RampStep(s.level, x, n);
      assert s.level + x < 0.0 by {
        assert ((n - 1) as real) * x >= 0.0;
      }
      var t := AnsweredNo(s, Finite(x));
      assert t == s.(level := s.level + x, played := s.played + [s.level + x]);
      Ascent(t, x, n - 1);
    }
  }

  /** The first of n upward steps, then the n - 1 that follow it. */
  lemma RampStep(start: real, x: real, n: nat)
    requires n > 0
    ensures (start + x) + ((n - 1) as real) * x == start + (n as real) * x
    ensures Ramp(start, x, n) == [start + x] + Ramp(start + x, x, n - 1)
  {
    var r, q := Ramp(start, x, n), [start + x] + Ramp(start + x, x, n - 1);
    forall i | 0 <= i < n ensures r[i] == q[i] {
      if i > 0 {
        assert q[i] == (start + x) + (i as real) * x;
        assert (start + x) + (i as real) * x == start + ((i + 1) as real) * x;
      }
    }
  }

  /**
   * Termination at the ceiling: once n steps of x would reach 0 dBFS, n No
   * clicks have pinned the level to exactly 0 and stopped the test.
   */
  lemma {:induction false} StopsAtCeiling(s: State, x: real, n: nat)
    requires s.running && x > 0.0 && n > 0
    requires s.level + (n as real) * x >= 0.0
    ensures var t := PressNo(s, Finite(x), n);
      !t.running && t.level == 0.0 && t.result == Some(Ceiling(Calibration.K))
    decreases n
  {
    var t := AnsweredNo(s, Finite(x));
    if s.level + x >= 0.0 {
      PressNoIdle(t, Finite(x), n - 1);
    } else {
      assert t.level + ((n - 1) as real) * x == s.level + (n as real) * x;
      StopsAtCeiling(t, x, n - 1);
    }
  }

  /**
   * A run from the page's fallbacks: the start level -90 of an empty field and
   * the step 2.0 that replaces an unusable one; 44 No clicks give -2 dBFS
   * (after -88, -86, ...), and the 45th ends the test at exactly 0 dBFS.
   */
  lemma DefaultRun(s: State)
    ensures var t := Started(s, None);
      PressNo(t, NaN, 44).level == -2.0 && PressNo(t, NaN, 44).running &&
      PressNo(t, NaN, 44).played == s.played + [-90.0] + Ramp(-90.0, 2.0, 44) &&
      !PressNo(t, NaN, 45).running && PressNo(t, NaN, 45).level == 0.0
  {
    var t := Started(s, None);
    assert t == Started(s, Some(Finite(-90.0)));
    UnusableStep(t, 44);
    UnusableStep(t, 45);
    Ascent(t, 2.0, 44);
    StopsAtCeiling(t, 2.0, 45);
  }

  /** An unreadable step field (NaN) steps by 2.0 on every click. */
  lemma {:induction false} UnusableStep(s: State, n: nat)
    ensures PressNo(s, NaN, n) == PressNo(s, Finite(2.0), n)
    decreases n
  {
    if n > 0 {
      assert AnsweredNo(s, NaN) == AnsweredNo(s, Finite(2.0));
      UnusableStep(AnsweredNo(s, NaN), n - 1);
    }
  }

  /**
   * The clamp as written lets NaN through (a non-numeric start field), so the
   * level would leave [-120, 0]; on every other value StartLevel agrees with it.
   */
  lemma ClampAsWrittenNaN(v: Number)
    ensures ClampAsWritten(NaN) == NaN
    ensures !v.NaN? ==> ClampAsWritten(v) == Finite(StartLevel(Some(v)))
  {
  }
}
