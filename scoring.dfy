/**
 * generateSummary and summarizeEar of script.js. The summary text is
 * reduced to its band and the frequencies it lists.
 */
module Scoring {
  import opened Tones
  import opened Ordering

  /**
   * Normal: nothing missed. Minor: one or two frequencies missed, listed in
   * ascending order. Mild: three or more missed and three or more heard, with
   * the three lowest missed frequencies as a sample. Significant: the rest.
   */
  datatype Band = Normal | Minor(missed: seq<nat>) | Mild(sample: seq<nat>) | Significant

  /** The empty string, one combined line, or the Left line followed by the Right line. */
  datatype Summary = NoSummary | Combined(band: Band) | PerEar(left: Band, right: Band)

  /** The set of frequencies at which some response has the given heard flag. */
  function FreqSet(rs: seq<Response>, heard: bool): set<nat>
  {
    set r | r in rs && r.heard == heard :: r.tone.freq
  }

  /** The frequencies of the responses with the given heard flag, in order, repeats kept. */
  function FreqsWhere(rs: seq<Response>, heard: bool): (r: seq<nat>)
    ensures Elements(r) == FreqSet(rs, heard)
  {
    if rs == [] then []
    else
      var rest := FreqsWhere(rs[1..], heard);
      var r := (if rs[0].heard == heard then [rs[0].tone.freq] else []) + rest;
      assert Elements(r) == FreqSet(rs, heard) by {
        forall f ensures f in Elements(r) <==> f in FreqSet(rs, heard) {
          if f in FreqSet(rs, heard) {
            var x :| x in rs && x.heard == heard && x.tone.freq == f;
            var k :| 0 <= k < |rs| && rs[k] == x;
            if k > 0 {
              assert rs[1..][k - 1] == x;
              assert f in FreqSet(rs[1..], heard);
            }
          }
          if f in rest {
            assert f in FreqSet(rs[1..], heard);
            var x :| x in rs[1..] && x.heard == heard && x.tone.freq == f;
            assert x in rs;
          }
        }
      }
      r
  }

  /** `[...new Set(missed freqs)].sort((a, b) => a - b)`. */
  function MissedFreqs(rs: seq<Response>): seq<nat>
  {
    SortedDistinct(FreqsWhere(rs, false))
  }

  /**
   * The distinct heard frequencies. The source does not sort them in
   * summarizeEar; only their number is used, so the order does not matter.
   */
  function HeardFreqs(rs: seq<Response>): seq<nat>
  {
    SortedDistinct(FreqsWhere(rs, true))
  }

  /** The banding rule: the missed count is tested before the heard count. */
  function Classify(rs: seq<Response>): Band
  {
    var missed := MissedFreqs(rs);
    var heard := HeardFreqs(rs);
    if |missed| == 0 then Normal
    else if |missed| <= 2 then Minor(missed)
    else if |missed| >= 3 && |heard| >= 3 then Mild(missed[..3])
    else Significant
  }

  /** The responses for one ear, in order (`results.filter(r => r.ear === ...)`). */
  function OfEar(rs: seq<Response>, e: Ear): (r: seq<Response>)
    ensures forall x :: x in r <==> x in rs && x.tone.ear == e
  {
    if rs == [] then []
    else
      var rest := OfEar(rs[1..], e);
      assert forall x :: x in rs <==> x == rs[0] || x in rs[1..];
      (if rs[0].tone.ear == e then [rs[0]] else []) + rest
  }

  /** Whether any response is for a single ear: the result list of a headphones sweep. */
  predicate IsPerEar(rs: seq<Response>)
  {
    exists r :: r in rs && (r.tone.ear == Left || r.tone.ear == Right)
  }

  /** generateSummary. */
  function Summarize(rs: seq<Response>): Summary
  {
    if |rs| == 0 then NoSummary
    else if IsPerEar(rs) then PerEar(Classify(OfEar(rs, Left)), Classify(OfEar(rs, Right)))
    else Combined(Classify(rs))
  }

  // ---------------------------------------------------------------- properties

  /**
   * The band in terms of the sets M of missed and H of heard frequencies:
   * a frequency missed at any level counts in M even if heard at another.
   */
  lemma ClassifyMeaning(rs: seq<Response>)
    ensures var b, m, h := Classify(rs), FreqSet(rs, false), FreqSet(rs, true);
      (b == Normal <==> m == {}) &&
      (b.Minor? <==> 1 <= |m| <= 2) &&
      (b.Mild? <==> |m| >= 3 && |h| >= 3) &&
      (b.Significant? <==> |m| >= 3 && |h| < 3) &&
      (b.Minor? ==> StrictlyIncreasing(b.missed) && Elements(b.missed) == m) &&
      (b.Mild? ==> |b.sample| == 3 && StrictlyIncreasing(b.sample) && Elements(b.sample) <= m &&
                   forall f :: f in m && f !in b.sample ==> b.sample[2] < f)
  {
    var missed, heard := MissedFreqs(rs), HeardFreqs(rs);
    SortedDistinctCount(FreqsWhere(rs, false));
    SortedDistinctCount(FreqsWhere(rs, true));
    assert Elements(missed) == FreqSet(rs, false);
    if |missed| >= 3 {
      var sample := missed[..3];
      forall k | 0 <= k < 3 ensures missed[k] in sample {
        assert sample[k] == missed[k];
      }
      forall f | f in FreqSet(rs, false) && f !in sample ensures sample[2] < f {
        assert f in Elements(missed);
        var k :| 0 <= k < |missed| && missed[k] == f;
      }
    }
  }

  /** Two result lists holding the same responses band alike, whatever the order or repetition. */
  lemma ClassifySameAnswers(rs: seq<Response>, qs: seq<Response>)
    requires forall r :: r in rs <==> r in qs
    ensures Classify(rs) == Classify(qs)
  {
    assert FreqSet(rs, false) == FreqSet(qs, false);
    assert FreqSet(rs, true) == FreqSet(qs, true);
    assert Elements(FreqsWhere(rs, false)) == Elements(FreqsWhere(qs, false));
    assert Elements(FreqsWhere(rs, true)) == Elements(FreqsWhere(qs, true));
    AscendingUnique(MissedFreqs(rs), MissedFreqs(qs));
    AscendingUnique(HeardFreqs(rs), HeardFreqs(qs));
  }

  /** The summary depends only on which responses were given, not on their order. */
  lemma SummarySameAnswers(rs: seq<Response>, qs: seq<Response>)
    requires forall r :: r in rs <==> r in qs
    ensures Summarize(rs) == Summarize(qs)
  {
    assert rs != [] ==> rs[0] in qs;
    assert qs != [] ==> qs[0] in rs;
    assert IsPerEar(rs) <==> IsPerEar(qs);
    if rs != [] && IsPerEar(rs) {
      ClassifySameAnswers(OfEar(rs, Left), OfEar(qs, Left));
      ClassifySameAnswers(OfEar(rs, Right), OfEar(qs, Right));
    } else if rs != [] {
      ClassifySameAnswers(rs, qs);
    }
  }

  /**
   * The form of the summary: empty for no results, per ear (Left line, then
   * Right line) as soon as one response is for a single ear, else combined.
   */
  lemma SummaryForm(rs: seq<Response>)
    ensures Summarize(rs) == NoSummary <==> rs == []
    ensures Summarize(rs).PerEar? <==> IsPerEar(rs)
    ensures Summarize(rs).PerEar? ==>
      Summarize(rs).left == Classify(OfEar(rs, Left)) && Summarize(rs).right == Classify(OfEar(rs, Right))
    ensures Summarize(rs).Combined? ==>
      Summarize(rs).band == Classify(rs) &&
      forall i :: 0 <= i < |rs| ==> rs[i].tone.ear == BothEars
  {
    if Summarize(rs).Combined? {
      forall i | 0 <= i < |rs| ensures rs[i].tone.ear == BothEars {
        assert rs[i] in rs;
      }
    }
  }

  /** No frequency missed: normal. */
  lemma NothingMissed(rs: seq<Response>)
    requires FreqSet(rs, false) == {}
    ensures Classify(rs) == Normal
  {
    ClassifyMeaning(rs);
  }

  /** Two frequencies missed: minor, listing both in ascending order. */
  lemma TwoMissed(rs: seq<Response>)
    requires FreqSet(rs, false) == {500, 4000}
    ensures Classify(rs) == Minor([500, 4000])
  {
    ClassifyMeaning(rs);
    var b := Classify(rs);
    assert |FreqSet(rs, false)| == 2 by {
      assert FreqSet(rs, false) == {500} + {4000};
    }
    assert Elements([500, 4000]) == {500, 4000};
    AscendingUnique(b.missed, [500, 4000]);
  }

  lemma ThreeAscending(s: seq<nat>, x: nat, y: nat, z: nat)
    requires x < y < z
    requires |s| == 3 && StrictlyIncreasing(s) && Elements(s) <= {x, y, z}
    ensures s == [x, y, z]
  {
    assert s[0] in Elements(s) && s[1] in Elements(s) && s[2] in Elements(s);
  }

  lemma ThreeElements(x: nat, y: nat, z: nat)
    requires x < y < z
    ensures |{x, y, z}| == 3
  {
    assert {x, y, z} == {x, y} + {z};
  }

  /** Three missed and four heard: mild, with the three missed as the sample. */
  lemma ThreeMissedFourHeard(rs: seq<Response>)
    requires FreqSet(rs, false) == {250, 1000, 8000}
    requires |FreqSet(rs, true)| == 4
    ensures Classify(rs) == Mild([250, 1000, 8000])
  {
    ThreeElements(250, 1000, 8000);
    ClassifyMeaning(rs);
    var b := Classify(rs);
    assert b.Mild?;
    ThreeAscending(b.sample, 250, 1000, 8000);
  }

  /** Five missed and one heard: significant. */
  lemma FiveMissedOneHeard(rs: seq<Response>)
    requires |FreqSet(rs, false)| == 5 && |FreqSet(rs, true)| == 1
    ensures Classify(rs) == Significant
  {
    ClassifyMeaning(rs);
  }
}
