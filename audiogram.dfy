/**
 * The chart data of showResults in script.js: for each ear and frequency, the
 * lowest volume heard, or 90 when nothing was heard; then one series per ear
 * over the sorted tested frequencies, with gaps where an ear has no entry.
 */
module Audiogram {
  import opened Wrappers
  import opened Tones
  import opened Ordering

  /** The value plotted for a frequency at which nothing was heard. */
  const NotHeardLevel: nat := 90

  /** One step of the fill loop on the map of the response's ear. */
  function Fill(m: map<nat, nat>, r: Response): map<nat, nat>
  {
    var f := r.tone.freq;
    if f !in m then m[f := if r.heard then r.tone.vol else NotHeardLevel]
    else if r.heard && r.tone.vol < m[f] then m[f := r.tone.vol]
    else m
  }

  /** The map of ear `e` once the fill loop has seen the responses `rs`. */
  function EarLevels(rs: seq<Response>, e: Ear): map<nat, nat>
  {
    if rs == [] then map[]
    else
      var m := EarLevels(rs[..|rs| - 1], e);
      var r := rs[|rs| - 1];
      if r.tone.ear == e then Fill(m, r) else m
  }

  /** The fill loop: leftData, rightData and bothData, each updated in place. */
  method FillChart(results: seq<Response>) returns (left: map<nat, nat>, right: map<nat, nat>, both: map<nat, nat>)
    ensures left == EarLevels(results, Left)
    ensures right == EarLevels(results, Right)
    ensures both == EarLevels(results, BothEars)
  {
    left, right, both := map[], map[], map[];
    for i := 0 to |results|
      invariant left == EarLevels(results[..i], Left)
      invariant right == EarLevels(results[..i], Right)
      invariant both == EarLevels(results[..i], BothEars)
    {
      var r := results[i];
      var target := if r.tone.ear == Left then left else if r.tone.ear == Right then right else both;
      var f := r.tone.freq;
      if f !in target {
        target := target[f := if r.heard then r.tone.vol else NotHeardLevel];
      } else if r.heard && r.tone.vol < target[f] {
        target := target[f := r.tone.vol];
      }
      if r.tone.ear == Left {
        left := target;
      } else if r.tone.ear == Right {
        right := target;
      } else {
        both := target;
      }
      assert results[..i + 1][..i] == results[..i];
    }
    assert results[..|results|] == results;
  }

  /** Some response for ear `e` at frequency `f`, heard or not. */
  predicate Tested(rs: seq<Response>, e: Ear, f: nat)
  {
    exists k :: 0 <= k < |rs| && rs[k].tone.ear == e && rs[k].tone.freq == f
  }

  /** Some response for ear `e` at frequency `f` heard at volume `vol`. */
  predicate HeardAt(rs: seq<Response>, e: Ear, f: nat, vol: nat)
  {
    exists k :: 0 <= k < |rs| && rs[k].tone.ear == e && rs[k].tone.freq == f && rs[k].heard && rs[k].tone.vol == vol
  }

  /** How the responses of `rs` relate to those of its prefix without the last one, at one point. */
  lemma LastStep(rs: seq<Response>, e: Ear, f: nat, v: nat)
    requires rs != []
    ensures var ps, r := rs[..|rs| - 1], rs[|rs| - 1];
      (Tested(rs, e, f) <==> Tested(ps, e, f) || (r.tone.ear == e && r.tone.freq == f)) &&
      (HeardAt(rs, e, f, v) <==>
         HeardAt(ps, e, f, v) || (r.tone.ear == e && r.tone.freq == f && r.heard && r.tone.vol == v))
  {
    var ps, r := rs[..|rs| - 1], rs[|rs| - 1];
    assert forall k :: 0 <= k < |ps| ==> ps[k] == rs[k];
    if Tested(rs, e, f) {
      var k :| 0 <= k < |rs| && rs[k].tone.ear == e && rs[k].tone.freq == f;
      if k < |ps| {
        assert Tested(ps, e, f);
      }
    }
    if HeardAt(rs, e, f, v) {
      var k :| 0 <= k < |rs| && rs[k].tone.ear == e && rs[k].tone.freq == f && rs[k].heard && rs[k].tone.vol == v;
      if k < |ps| {
        assert HeardAt(ps, e, f, v);
      }
    }
  }

  /** The map of ear `e` has an entry exactly for the frequencies tested on that ear. */
  lemma {:induction false} EarLevelsKeys(rs: seq<Response>, e: Ear, f: nat)
    ensures f in EarLevels(rs, e) <==> Tested(rs, e, f)
  {
    if rs != [] {
      LastStep(rs, e, f, 0);
      EarLevelsKeys(rs[..|rs| - 1], e, f);
    }
  }

  /** An entry is at most every volume heard at that frequency on that ear. */
  lemma {:induction false} EarLevelsBelowHeard(rs: seq<Response>, e: Ear, f: nat, v: nat)
    requires f in EarLevels(rs, e) && HeardAt(rs, e, f, v)
    ensures EarLevels(rs, e)[f] <= v
  {
    var ps := rs[..|rs| - 1];
    LastStep(rs, e, f, v);
    EarLevelsKeys(ps, e, f);
    if f in EarLevels(ps, e) && HeardAt(ps, e, f, v) {
      EarLevelsBelowHeard(ps, e, f, v);
    }
  }

  /** An entry is the sentinel 90 or a volume heard at that frequency on that ear. */
  lemma {:induction false} EarLevelsAttained(rs: seq<Response>, e: Ear, f: nat)
    requires f in EarLevels(rs, e)
    ensures EarLevels(rs, e)[f] == NotHeardLevel || HeardAt(rs, e, f, EarLevels(rs, e)[f])
  {
    var ps, m := rs[..|rs| - 1], EarLevels(rs, e);
    LastStep(rs, e, f, m[f]);
    if f in EarLevels(ps, e) {
      EarLevelsAttained(ps, e, f);
      LastStep(rs, e, f, EarLevels(ps, e)[f]);
    }
  }

  /**
   * What the fill loop leaves in the map of ear `e`: an entry exactly for the
   * frequencies tested on that ear; each entry is at most every volume heard
   * there, is 90 or one of those volumes, and is 90 when nothing was heard there.
   */
  lemma EarLevelsMeaning(rs: seq<Response>, e: Ear)
    ensures var m := EarLevels(rs, e);
      (forall f :: f in m <==> Tested(rs, e, f)) &&
      (forall f, v :: f in m && HeardAt(rs, e, f, v) ==> m[f] <= v) &&
      (forall f :: f in m ==> m[f] == NotHeardLevel || HeardAt(rs, e, f, m[f])) &&
      (forall f :: f in m && (forall v :: !HeardAt(rs, e, f, v)) ==> m[f] == NotHeardLevel)
  {
    var m := EarLevels(rs, e);
    forall f ensures f in m <==> Tested(rs, e, f) {
      EarLevelsKeys(rs, e, f);
    }
    forall f, v | f in m && HeardAt(rs, e, f, v) ensures m[f] <= v {
      EarLevelsBelowHeard(rs, e, f, v);
    }
    forall f | f in m ensures m[f] == NotHeardLevel || HeardAt(rs, e, f, m[f]) {
      EarLevelsAttained(rs, e, f);
    }
  }

  /**
   * With every volume at or below the sentinel 90 (the sweep plays 20 and 40),
   * the entry is the lowest volume heard, or 90 when nothing was heard.
   */
  lemma LowestHeardLevel(rs: seq<Response>, e: Ear, f: nat)
    requires forall k :: 0 <= k < |rs| ==> rs[k].tone.vol <= NotHeardLevel
    requires Tested(rs, e, f)
    ensures var m := EarLevels(rs, e);
      f in m &&
      ((exists v :: HeardAt(rs, e, f, v)) ==> HeardAt(rs, e, f, m[f]) && forall v :: HeardAt(rs, e, f, v) ==> m[f] <= v) &&
      ((forall v :: !HeardAt(rs, e, f, v)) ==> m[f] == NotHeardLevel)
  {
    EarLevelsMeaning(rs, e);
    var m := EarLevels(rs, e);
    if v: nat :| HeardAt(rs, e, f, v) {
      var k :| 0 <= k < |rs| && rs[k].tone.ear == e && rs[k].tone.freq == f && rs[k].heard && rs[k].tone.vol == v;
      assert m[f] <= v <= NotHeardLevel;
      if m[f] == NotHeardLevel {
        assert v == NotHeardLevel;
      }
    }
  }

  /** A present point at frequency `f` is 90 or a volume heard there, and at most every volume heard there. */
  predicate PointMeaning(rs: seq<Response>, e: Ear, f: nat, p: Option<nat>)
  {
    p.Some? ==>
      (p.value == NotHeardLevel || HeardAt(rs, e, f, p.value)) &&
      forall w :: HeardAt(rs, e, f, w) ==> p.value <= w
  }

  /** The chart inputs: frequency labels and the three per-ear series. */
  datatype ChartData = ChartData(labels: seq<nat>, left: seq<Option<nat>>, right: seq<Option<nat>>, both: seq<Option<nat>>)

  /** `freqs.map(f => data[f] ?? null)`. */
  function Series(m: map<nat, nat>, labels: seq<nat>): seq<Option<nat>>
  {
    seq(|labels|, i requires 0 <= i < |labels| => if labels[i] in m then Some(m[labels[i]]) else None)
  }

  /** The frequencies of all responses, in order, repeats kept. */
  function AllFreqs(rs: seq<Response>): seq<nat>
  {
    seq(|rs|, k requires 0 <= k < |rs| => rs[k].tone.freq)
  }

  /**
   * The audiogram data. Each response lands in exactly one of the three maps,
   * so the sorted keys of all three are the sorted frequencies of the results
   * (AudiogramLabels states this).
   */
  function Chart(results: seq<Response>): ChartData
  {
    var labels := SortedDistinct(AllFreqs(results));
    ChartData(labels,
      Series(EarLevels(results, Left), labels),
      Series(EarLevels(results, Right), labels),
      Series(EarLevels(results, BothEars), labels))
  }

  /** The frequencies of the results are the keys of the three maps together. */
  lemma LabelsAreKeys(results: seq<Response>)
    ensures Elements(AllFreqs(results)) ==
      EarLevels(results, Left).Keys + EarLevels(results, Right).Keys + EarLevels(results, BothEars).Keys
  {
    EarLevelsMeaning(results, Left);
    EarLevelsMeaning(results, Right);
    EarLevelsMeaning(results, BothEars);
    var fs := AllFreqs(results);
    forall f | f in Elements(fs)
      ensures Tested(results, Left, f) || Tested(results, Right, f) || Tested(results, BothEars, f)
    {
      var k :| 0 <= k < |fs| && fs[k] == f;
      assert Tested(results, results[k].tone.ear, f);
    }
    forall f | Tested(results, Left, f) || Tested(results, Right, f) || Tested(results, BothEars, f)
      ensures f in Elements(fs)
    {
      var k :| 0 <= k < |results| && results[k].tone.freq == f;
      assert fs[k] == f;
    }
  }

  /**
   * The labels are the union of the three maps' keys in ascending order; an
   * ear's series has a point at a label exactly when that ear was tested there,
   * and the point is 90 or a volume heard there, and no more than any volume heard there.
   */
  lemma AudiogramLabels(results: seq<Response>)
    ensures var c := Chart(results);
      StrictlyIncreasing(c.labels) &&
      Elements(c.labels) == EarLevels(results, Left).Keys + EarLevels(results, Right).Keys + EarLevels(results, BothEars).Keys &&
      |c.left| == |c.labels| && |c.right| == |c.labels| && |c.both| == |c.labels| &&
      forall i :: 0 <= i < |c.labels| ==>
        (c.left[i].Some? <==> Tested(results, Left, c.labels[i])) &&
        (c.right[i].Some? <==> Tested(results, Right, c.labels[i])) &&
        (c.both[i].Some? <==> Tested(results, BothEars, c.labels[i])) &&
        PointMeaning(results, Left, c.labels[i], c.left[i]) &&
        PointMeaning(results, Right, c.labels[i], c.right[i]) &&
        PointMeaning(results, BothEars, c.labels[i], c.both[i])
  {
    LabelsAreKeys(results);
    var labels := Chart(results).labels;
    SeriesMeaning(results, Left, labels);
    SeriesMeaning(results, Right, labels);
    SeriesMeaning(results, BothEars, labels);
  }

  /** One ear's series: a point per label, present where the ear was tested, holding the fill value. */
  lemma SeriesMeaning(results: seq<Response>, e: Ear, labels: seq<nat>)
    ensures var s := Series(EarLevels(results, e), labels);
      |s| == |labels| &&
      forall i :: 0 <= i < |labels| ==>
        (s[i].Some? <==> Tested(results, e, labels[i])) && PointMeaning(results, e, labels[i], s[i])
  {
    EarLevelsMeaning(results, e);
  }
}
