/**
 * The fixed sweep's tone grid (generateTones in script.js): for each of six
 * frequencies, for each of two volumes, one tone per ear the mode needs.
 */
module Tones {
  datatype Ear = Left | Right | BothEars
  datatype Tone = Tone(freq: nat, vol: nat, ear: Ear)
  /** An entry of `results`: the tone presented and whether the listener heard it. */
  datatype Response = Response(tone: Tone, heard: bool)

  const Frequencies: seq<nat> := [250, 500, 1000, 2000, 4000, 8000]
  const Volumes: seq<nat> := [20, 40]
  /** The only mode that generateTones tells apart; any other mode tests both ears together. */
  const HeadphonesMode: string := "headphones"

  /** Tones per (frequency, volume) pair. */
  function EarsPerPair(mode: string): nat
  {
    if mode == HeadphonesMode then 2 else 1
  }

  /** The number of tones of the grid: six frequencies, two volumes, one or two ears. */
  function GridSize(mode: string): nat
  {
    if mode == HeadphonesMode then 24 else 12
  }

  /** The index of the first tone for frequency `fi` and volume `vi`. */
  function GridPos(mode: string, fi: nat, vi: nat): nat
  {
    if mode == HeadphonesMode then 4 * fi + 2 * vi else 2 * fi + vi
  }

  /** The i-th tone of the grid: frequency-major, then volume, then left before right. */
  function GridTone(mode: string, i: nat): Tone
    requires i < GridSize(mode)
  {
    if mode == HeadphonesMode then
      Tone(Frequencies[i / 4], Volumes[i / 2 % 2], if i % 2 == 0 then Left else Right)
    else
      Tone(Frequencies[i / 2], Volumes[i % 2], BothEars)
  }

  /** generateTones: the nested loops over frequencies and volumes. */
  method GenerateTones(mode: string) returns (tones: seq<Tone>)
    ensures |tones| == GridSize(mode)
    ensures forall i :: 0 <= i < |tones| ==> tones[i] == GridTone(mode, i)
  {
    tones := [];
    for fi := 0 to |Frequencies|
      invariant |tones| == GridPos(mode, fi, 0)
      invariant forall i :: 0 <= i < |tones| ==> tones[i] == GridTone(mode, i)
    {
      var f := Frequencies[fi];
      for vi := 0 to |Volumes|
        invariant |tones| == GridPos(mode, fi, vi)
        invariant forall i :: 0 <= i < |tones| ==> tones[i] == GridTone(mode, i)
      {
        var v := Volumes[vi];
        if mode == HeadphonesMode {
          GridIndex(mode, fi, vi, 0);
          GridIndex(mode, fi, vi, 1);
          GridAppend(mode, tones, Tone(f, v, Left));
          tones := tones + [Tone(f, v, Left)];
          GridAppend(mode, tones, Tone(f, v, Right));
          tones := tones + [Tone(f, v, Right)];
        } else {
          GridIndex(mode, fi, vi, 0);
          GridAppend(mode, tones, Tone(f, v, BothEars));
          tones := tones + [Tone(f, v, BothEars)];
        }
      }
    }
  }

  /** Appending the next grid tone to a prefix of the grid gives a longer prefix. */
  lemma GridAppend(mode: string, tones: seq<Tone>, t: Tone)
    requires |tones| < GridSize(mode) && t == GridTone(mode, |tones|)
    requires forall i :: 0 <= i < |tones| ==> tones[i] == GridTone(mode, i)
    ensures forall i :: 0 <= i < |tones + [t]| ==> (tones + [t])[i] == GridTone(mode, i)
  {
  }

  /** Where the tone for a (frequency, volume, ear) position sits in the grid. */
  lemma GridIndex(mode: string, fi: nat, vi: nat, ei: nat)
    requires fi < |Frequencies| && vi < |Volumes| && ei < EarsPerPair(mode)
    ensures GridPos(mode, fi, vi) + ei < GridSize(mode)
    ensures GridTone(mode, GridPos(mode, fi, vi) + ei) ==
      Tone(Frequencies[fi], Volumes[vi], if mode != HeadphonesMode then BothEars else if ei == 0 then Left else Right)
  {
    var i := GridPos(mode, fi, vi) + ei;
    if mode == HeadphonesMode {
      assert i == 4 * fi + 2 * vi + ei;
      assert i / 4 == fi && i / 2 % 2 == vi && i % 2 == ei;
    } else {
      assert i == 2 * fi + vi;
      assert i / 2 == fi && i % 2 == vi;
    }
  }

  /** Grid order: by frequency, then volume, then Left before Right. */
  predicate Before(a: Tone, b: Tone)
  {
    a.freq < b.freq ||
    (a.freq == b.freq && (a.vol < b.vol || (a.vol == b.vol && a.ear == Left && b.ear == Right)))
  }

  /** Each grid tone comes strictly before the next one. */
  lemma GridStep(mode: string, i: nat)
    requires i + 1 < GridSize(mode)
    ensures Before(GridTone(mode, i), GridTone(mode, i + 1))
  {
    if mode == HeadphonesMode {
      var q, r := i / 4, i % 4;
      assert i == 4 * q + r;
      if r == 3 {
        assert (i + 1) / 4 == q + 1;
      } else {
        assert (i + 1) / 4 == q && (i + 1) % 4 == r + 1;
      }
    } else {
      var q, r := i / 2, i % 2;
      assert i == 2 * q + r;
      if r == 1 {
        assert (i + 1) / 2 == q + 1;
      } else {
        assert (i + 1) / 2 == q && (i + 1) % 2 == 1;
      }
    }
  }

  /** Grid order is a strict order. */
  lemma BeforeStrict(a: Tone, b: Tone, c: Tone)
    ensures Before(a, b) && Before(b, c) ==> Before(a, c)
    ensures Before(a, b) ==> a != b
  {
  }

  /** A list of tones each before the next is in order throughout. */
  lemma {:induction false} ChainOrdered(g: seq<Tone>, i: nat, j: nat)
    requires forall k :: 0 <= k < |g| - 1 ==> Before(g[k], g[k + 1])
    requires i < j < |g|
    ensures Before(g[i], g[j])
    decreases j - i
  {
    if i + 1 < j {
      ChainOrdered(g, i + 1, j);
      BeforeStrict(g[i], g[i + 1], g[j]);
    }
  }

  /** The whole grid is in order, so no tone appears twice. */
  lemma GridOrdered(mode: string, i: nat, j: nat)
    requires i < j < GridSize(mode)
    ensures Before(GridTone(mode, i), GridTone(mode, j))
    ensures GridTone(mode, i) != GridTone(mode, j)
  {
    var g := seq(GridSize(mode), k requires 0 <= k < GridSize(mode) => GridTone(mode, k));
    forall k | 0 <= k < |g| - 1 ensures Before(g[k], g[k + 1]) {
      GridStep(mode, k);
    }
    ChainOrdered(g, i, j);
    BeforeStrict(g[i], g[j], g[j]);
  }

  /** The ears a mode tests. */
  predicate EarOfMode(mode: string, e: Ear)
  {
    if mode == HeadphonesMode then e == Left || e == Right else e == BothEars
  }

  /** A tone is in the grid exactly when its frequency, volume and ear are ones the mode tests. */
  lemma GridCoverage(mode: string, t: Tone)
    ensures (exists i :: 0 <= i < GridSize(mode) && GridTone(mode, i) == t)
      <==> t.freq in Frequencies && t.vol in Volumes && EarOfMode(mode, t.ear)
  {
    if t.freq in Frequencies && t.vol in Volumes && EarOfMode(mode, t.ear) {
      var fi :| 0 <= fi < |Frequencies| && Frequencies[fi] == t.freq;
      var vi :| 0 <= vi < |Volumes| && Volumes[vi] == t.vol;
      var ei := if t.ear == Right then 1 else 0;
      GridIndex(mode, fi, vi, ei);
    }
  }
}
