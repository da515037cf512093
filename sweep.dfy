/**
 * The fixed-frequency sweep of script.js: startTest, loadNextTone,
 * recordResponse and showResults over the globals testMode, tones, index and
 * results, here the fields of one object.
 */
module Sweep {
  import opened Tones
  import opened ToneFiles
  import opened Ordering
  import opened Scoring
  import opened Audiogram

  /** What the page shows next: the question for a tone and its sound file, or the results. */
  datatype Screen = Question(tone: Tone, source: string) | Results(summary: Summary, chart: ChartData)

  /** loadNextTone's choice: the results once every tone is answered, else the next tone. */
  function ScreenFor(tones: seq<Tone>, index: nat, results: seq<Response>): Screen
  {
    if index >= |tones| then Results(Summarize(results), Chart(results))
    else Question(tones[index], AudioSource(tones[index]))
  }

  class FixedSweep {
    var testMode: string
    var tones: seq<Tone>
    var index: nat
    var results: seq<Response>

    /** Each tone answered so far has exactly one response, in presentation order. */
    ghost predicate Valid()
      reads this
    {
      index == |results| <= |tones| &&
      forall i :: 0 <= i < |results| ==> results[i].tone == tones[i]
    }

    /** startTest has run: the tones are the grid of the mode. */
    ghost predicate Sweeping()
      reads this
    {
      |tones| == GridSize(testMode) &&
      forall i :: 0 <= i < |tones| ==> tones[i] == GridTone(testMode, i)
    }

    /** The globals as the page loads them. */
    constructor ()
      ensures Valid()
      ensures testMode == "both" && tones == [] && index == 0 && results == []
    {
      testMode := "both";
      tones := [];
      index := 0;
      results := [];
    }

    /** startTest: a fresh grid for the mode, no answers yet, and the first question. */
    method StartTest(mode: string) returns (screen: Screen)
      modifies this
      ensures Valid() && Sweeping()
      ensures testMode == mode && index == 0 && results == []
      ensures |tones| == GridSize(mode)
      ensures forall i :: 0 <= i < |tones| ==> tones[i] == GridTone(mode, i)
      ensures screen == Question(tones[0], AudioSource(tones[0]))
    {
      testMode := mode;
      tones := GenerateTones(mode);
      index := 0;
      results := [];
      screen := LoadNextTone();
    }

    /** loadNextTone: the next tone and its file, or the results when none is left. */
    method LoadNextTone() returns (screen: Screen)
      ensures screen == ScreenFor(tones, index, results)
      ensures Valid() ==> (screen.Results? <==> |results| == |tones|)
      ensures Valid() && Sweeping() && screen.Results? ==> Completed(testMode, results)
    {
      if Valid() && Sweeping() && index >= |tones| {
        SweepCompletes(this);
      }
      if index >= |tones| {
        screen := ShowResults();
        return;
      }
      var t := tones[index];
      screen := Question(t, AudioSource(t));
    }

    /** showResults: the summary and the audiogram data of the answers given. */
    method ShowResults() returns (screen: Screen)
      ensures screen == Results(Summarize(results), Chart(results))
    {
      var summary := Summarize(results);
      var left, right, both := FillChart(results);
      var labels := SortedDistinct(AllFreqs(results));
      screen := Results(summary, ChartData(labels, Series(left, labels), Series(right, labels), Series(both, labels)));
    }

    /**
     * recordResponse: append the current tone with the answer and move on.
     * Its buttons are shown only while a tone is pending.
     */
    method RecordResponse(heard: bool) returns (screen: Screen)
      requires Valid() && index < |tones|
      modifies this
      ensures Valid()
      ensures old(Sweeping()) ==> Sweeping()
      ensures tones == old(tones) && testMode == old(testMode)
      ensures results == old(results) + [Response(old(tones[index]), heard)]
      ensures index == old(index) + 1
      ensures screen == ScreenFor(tones, index, results)
    {
      var t := tones[index];
      results := results + [Response(t, heard)];
      index := index + 1;
      screen := LoadNextTone();
    }
  }

  // ---------------------------------------------------------------- properties

  /** The answers of a completed sweep in the given mode. */
  ghost predicate Completed(mode: string, rs: seq<Response>)
  {
    |rs| == GridSize(mode) &&
    forall i :: 0 <= i < |rs| ==> rs[i].tone == GridTone(mode, i)
  }

  /** A started sweep whose every tone is answered holds the answers of a completed sweep. */
  lemma SweepCompletes(s: FixedSweep)
    requires s.Valid() && s.Sweeping() && s.index == |s.tones|
    ensures Completed(s.testMode, s.results)
  {
  }

  /** Every frequency a completed sweep answered on ear `e` is one of the six, and each of the six was. */
  lemma CompletedFrequencies(mode: string, rs: seq<Response>, e: Ear)
    requires Completed(mode, rs) && EarOfMode(mode, e)
    ensures FreqSet(OfEar(rs, e), false) + FreqSet(OfEar(rs, e), true) == Elements(Frequencies)
  {
    var qs := OfEar(rs, e);
    forall f | f in Elements(Frequencies)
      ensures f in FreqSet(qs, false) + FreqSet(qs, true)
    {
      GridCoverage(mode, Tone(f, 20, e));
      var i :| 0 <= i < |rs| && GridTone(mode, i) == Tone(f, 20, e);
      assert rs[i] in rs && rs[i] in qs;
    }
    forall f | f in FreqSet(qs, false) + FreqSet(qs, true)
      ensures f in Elements(Frequencies)
    {
      var r :| r in qs && r.tone.freq == f;
      var i :| 0 <= i < |rs| && rs[i] == r;
      GridCoverage(mode, r.tone);
    }
  }

  /**
   * A completed sweep is summarised per ear exactly in headphones mode, and
   * each ear (or both together) is scored over all six frequencies.
   */
  lemma CompletedSummary(mode: string, rs: seq<Response>)
    requires Completed(mode, rs)
    ensures Summarize(rs) != NoSummary
    ensures Summarize(rs).PerEar? <==> mode == HeadphonesMode
    ensures mode == HeadphonesMode ==>
      FreqSet(OfEar(rs, Left), false) + FreqSet(OfEar(rs, Left), true) == Elements(Frequencies) &&
      FreqSet(OfEar(rs, Right), false) + FreqSet(OfEar(rs, Right), true) == Elements(Frequencies)
    ensures mode != HeadphonesMode ==>
      FreqSet(rs, false) + FreqSet(rs, true) == Elements(Frequencies)
    ensures mode == HeadphonesMode ==> Summarize(rs) == PerEar(Classify(OfEar(rs, Left)), Classify(OfEar(rs, Right)))
    ensures mode != HeadphonesMode ==> Summarize(rs) == Combined(Classify(rs))
  {
    SummaryForm(rs);
    if mode == HeadphonesMode {
      assert rs[0].tone.ear == Left && rs[0] in rs;
      CompletedFrequencies(mode, rs, Left);
      CompletedFrequencies(mode, rs, Right);
    } else {
      assert forall r :: r in rs ==> r.tone.ear == BothEars;
      assert OfEar(rs, BothEars) == rs by {
        // filtering every response through keeps them all
        KeepAll(rs);
      }
      CompletedFrequencies(mode, rs, BothEars);
    }
  }

  lemma {:induction false} KeepAll(rs: seq<Response>)
    requires forall r :: r in rs ==> r.tone.ear == BothEars
    ensures OfEar(rs, BothEars) == rs
  {
    if rs != [] {
      assert forall r :: r in rs[1..] ==> r in rs;
      KeepAll(rs[1..]);
      assert rs == [rs[0]] + rs[1..];
    }
  }

  /** The audiogram of a completed sweep is labelled with the six frequencies in ascending order. */
  lemma CompletedChartLabels(mode: string, rs: seq<Response>)
    requires Completed(mode, rs)
    ensures Chart(rs).labels == Frequencies
  {
    var fs := AllFreqs(rs);
    assert |fs| == |rs|;
    forall f | f in fs ensures f in Frequencies {
      var i :| 0 <= i < |fs| && fs[i] == f;
      assert fs[i] == rs[i].tone.freq;
      GridCoverage(mode, rs[i].tone);
    }
    forall f | f in Frequencies ensures f in fs {
      var e := if mode == HeadphonesMode then Left else BothEars;
      GridCoverage(mode, Tone(f, 20, e));
      var i :| 0 <= i < |rs| && GridTone(mode, i) == Tone(f, 20, e);
      assert fs[i] == rs[i].tone.freq;
    }
    assert Elements(fs) == Elements(Frequencies);
    AscendingUnique(Chart(rs).labels, Frequencies);
  }

  /**
   * In the audiogram of a completed sweep each tested ear has a point at each
   * of the six frequencies: the lowest volume heard there, or 90 if none was.
   */
  lemma CompletedChartLevels(mode: string, rs: seq<Response>, e: Ear, f: nat)
    requires Completed(mode, rs) && EarOfMode(mode, e) && f in Frequencies
    ensures var m := EarLevels(rs, e);
      f in m &&
      ((exists v :: HeardAt(rs, e, f, v)) ==> HeardAt(rs, e, f, m[f]) && forall v :: HeardAt(rs, e, f, v) ==> m[f] <= v) &&
      ((forall v :: !HeardAt(rs, e, f, v)) ==> m[f] == NotHeardLevel)
  {
    GridCoverage(mode, Tone(f, 20, e));
    var i :| 0 <= i < |rs| && GridTone(mode, i) == Tone(f, 20, e);
    assert Tested(rs, e, f);
    forall k | 0 <= k < |rs| ensures rs[k].tone.vol <= NotHeardLevel {
      assert rs[k].tone.vol in Volumes;
    }
    LowestHeardLevel(rs, e, f);
  }
}
