/**
 * The 1 kHz calibration chain of script.js: a tone at `dbfs` dB relative to
 * digital full scale is presented at amplitude `dbfsToAmp(dbfs)` and reported
 * as `ampToHL1k` of that amplitude, in dB HL.
 */
module Calibration {
  /** Reference-equivalent threshold SPL of the reference equipment at 1 kHz. */
  const RetsplOneKHz: real := 7.5
  /** Measured output SPL of the whole playback chain at 0 dBFS, 1 kHz. */
  const FullScaleSplOneKHz: real := 96.0
  /** The composite constant: the dB HL value of a full-scale 1 kHz tone. */
  const K: real := FullScaleSplOneKHz - RetsplOneKHz

  /**
   * `ampToHL1k(dbfsToAmp(dbfs))` over the exact reals. The amplitude
   * 10^(dbfs/20) is clamped to [0, 1], so it is 1 for dbfs above 0 and is
   * never 0 (the -Infinity branch of ampToHL1k cannot be reached on reals);
   * 20 * log10(10^(dbfs/20)) is dbfs itself.
   */
  function HearingLevel(dbfs: real): (hl: real)
  {
    (if dbfs < 0.0 then dbfs else 0.0) + K
  }

  /** Full scale maps to K = 88.5 dB HL, and no level maps above it. */
  lemma FullScaleIsK(dbfs: real)
    ensures K == 88.5
    ensures HearingLevel(0.0) == K
    ensures HearingLevel(dbfs) <= K
    ensures dbfs >= 0.0 ==> HearingLevel(dbfs) == K
  {
  }

  /** Below full scale, every dB of level is a dB of hearing level: strictly increasing. */
  lemma HearingLevelIncreasing(a: real, b: real)
    requires a < b <= 0.0
    ensures HearingLevel(a) < HearingLevel(b)
    ensures HearingLevel(b) - HearingLevel(a) == b - a
  {
  }
}
