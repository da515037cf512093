/**
 * The dB HL test screen of script.js (startDbHlTest and its four button
 * handlers). The globals `dbhlCurrentDbfs` and `dbhlRunning`, the tone log and
 * the result line are the fields of one object; each handler updates them in
 * place and is specified by the matching transition of module Staircase.
 */
module DbHl {
  import opened Wrappers
  import opened JsNumber
  import opened Staircase
  import Calibration

  class DbHlTest {
    var level: real
    var running: bool
    var played: seq<real>
    var result: Option<Report>

    /** The abstract state the handlers are specified over. */
    function State(): State
      reads this
    {
      Staircase.State(level, running, played, result)
    }

    /** The globals as the page loads them. */
    constructor ()
      ensures State() == Initial()
    {
      level := DefaultStartLevel;
      running := false;
      played := [];
      result := None;
    }

    /** startDbHlTest: reset the result line and the log, and stop any test. */
    method Open()
      modifies this
      ensures State() == Opened(old(State()))
    {
      result := None;
      played := [];
      running := false;
    }

    /**
     * playDbHlTone: play the 1 kHz tone at the current level and log it.
     * The audio itself is not modelled; only the log line is.
     */
    method PlayTone()
      modifies this
      ensures State() == old(State()).(played := old(played) + [old(level)])
    {
      played := played + [level];
    }

    /** The Start button, given the parsed start field (None when it is empty). */
    method Start(field: Option<Number>)
      modifies this
      ensures State() == Started(old(State()), field)
    {
      level := StartLevel(field);
      running := true;
      PlayTone();
    }

    /** The Replay button. */
    method Replay()
      modifies this
      ensures State() == Replayed(old(State()))
    {
      if running {
        PlayTone();
      }
    }

    /** The Yes button. */
    method Yes()
      modifies this
      ensures State() == AnsweredYes(old(State()))
    {
      if !running {
        return;
      }
      result := Some(Threshold(Calibration.HearingLevel(level)));
      running := false;
    }

    /** The No button, given the parsed step field. */
    method No(stepField: Number)
      modifies this
      ensures State() == AnsweredNo(old(State()), stepField)
    {
      if !running {
        return;
      }
      var step := EffectiveStep(stepField);
      var proposed := level + step;
      if proposed >= 0.0 {
        level := 0.0;
        result := Some(Ceiling(Calibration.HearingLevel(level)));
        running := false;
      } else {
        level := proposed;
        PlayTone();
      }
    }
  }
}
