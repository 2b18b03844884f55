/**
 * The session statistics of the voice lab page: the lowest and highest voiced
 * frequency seen (with the note and octave they were read as), the list of all
 * voiced frequencies and their mean.
 */
module Metrics {
  import opened Options

  /** A `{ hz, note, octave }` record as kept for the minimum and maximum. */
  datatype PitchRecord = PitchRecord(hz: real, note: Option<string>, octave: int)

  /** `reduce((a, b) => a + b, 0)`: a left fold from the front. */
  function Sum(s: seq<real>): real
  {
    if s == [] then 0.0 else Sum(s[..|s| - 1]) + s[|s| - 1]
  }

  /** The arithmetic mean `sum / length` of a non-empty list. */
  function Mean(s: seq<real>): real
    requires s != []
  {
    Sum(s) / (|s| as real)
  }

  function SeqMin(s: seq<real>): (m: real)
    requires s != []
    ensures m in s && forall i :: 0 <= i < |s| ==> m <= s[i]
  {
    if |s| == 1 then s[0]
    else
      var m := SeqMin(s[..|s| - 1]);
      assert forall i :: 0 <= i < |s| - 1 ==> s[..|s| - 1][i] == s[i];
      if s[|s| - 1] < m then s[|s| - 1] else m
  }

  function SeqMax(s: seq<real>): (m: real)
    requires s != []
    ensures m in s && forall i :: 0 <= i < |s| ==> s[i] <= m
  {
    if |s| == 1 then s[0]
    else
      var m := SeqMax(s[..|s| - 1]);
      assert forall i :: 0 <= i < |s| - 1 ==> s[..|s| - 1][i] == s[i];
      if s[|s| - 1] > m then s[|s| - 1] else m
  }

  /**
   * `setMinPitch(prev => !prev || hz < prev.hz ? new : prev)`: the record moves to the
   * new reading only on a strictly lower frequency, so a tie keeps the earlier record.
   */
  function NewMin(prev: Option<PitchRecord>, rec: PitchRecord): (r: Option<PitchRecord>)
    ensures r.Some?
    ensures prev.None? ==> r == Some(rec)
    ensures prev.Some? ==> r.value.hz <= prev.value.hz && r.value.hz <= rec.hz
    ensures prev.Some? ==> (r == Some(rec) && rec.hz < prev.value.hz) || (r == prev && prev.value.hz <= rec.hz)
  {
    if prev.None? || rec.hz < prev.value.hz then Some(rec) else prev
  }

  /** The same for the maximum, on a strictly higher frequency. */
  function NewMax(prev: Option<PitchRecord>, rec: PitchRecord): (r: Option<PitchRecord>)
    ensures r.Some?
    ensures prev.None? ==> r == Some(rec)
    ensures prev.Some? ==> prev.value.hz <= r.value.hz && rec.hz <= r.value.hz
    ensures prev.Some? ==> (r == Some(rec) && rec.hz > prev.value.hz) || (r == prev && prev.value.hz >= rec.hz)
  {
    if prev.None? || rec.hz > prev.value.hz then Some(rec) else prev
  }

  /** A lower bound on every element bounds the sum from below by |s| times it. */
  lemma {:induction false} SumAtLeast(s: seq<real>, lo: real)
    requires forall i :: 0 <= i < |s| ==> lo <= s[i]
    ensures (|s| as real) * lo <= Sum(s)
  {
    if s != [] {
      var init := s[..|s| - 1];
      assert forall i :: 0 <= i < |init| ==> init[i] == s[i];
      SumAtLeast(init, lo);
      assert (|s| as real) * lo == (|init| as real) * lo + lo;
    }
  }

  /** An upper bound on every element bounds the sum from above by |s| times it. */
  lemma {:induction false} SumAtMost(s: seq<real>, hi: real)
    requires forall i :: 0 <= i < |s| ==> s[i] <= hi
    ensures Sum(s) <= (|s| as real) * hi
  {
    if s != [] {
      var init := s[..|s| - 1];
      assert forall i :: 0 <= i < |init| ==> init[i] == s[i];
      SumAtMost(init, hi);
      assert (|s| as real) * hi == (|init| as real) * hi + hi;
    }
  }

  lemma DivideBounds(a: real, n: real, lo: real, hi: real)
    requires n > 0.0
    requires n * lo <= a <= n * hi
    ensures lo <= a / n <= hi
  {
    assert (a / n) * n == a;
  }

  /** The mean of the recorded frequencies lies between the least and the greatest of them. */
  lemma MeanBetweenMinAndMax(s: seq<real>)
    requires s != []
    ensures SeqMin(s) <= Mean(s) <= SeqMax(s)
  {
    SumAtLeast(s, SeqMin(s));
    SumAtMost(s, SeqMax(s));
    DivideBounds(Sum(s), |s| as real, SeqMin(s), SeqMax(s));
  }

  lemma SeqMinAppend(s: seq<real>, x: real)
    requires s != []
    ensures SeqMin(s + [x]) == if x < SeqMin(s) then x else SeqMin(s)
    ensures SeqMax(s + [x]) == if x > SeqMax(s) then x else SeqMax(s)
  {
    assert (s + [x])[..|s|] == s;
  }

  lemma SumAppend(s: seq<real>, x: real)
    ensures Sum(s + [x]) == Sum(s) + x
  {
    assert (s + [x])[..|s|] == s;
  }

  /**
   * Every recorded frequency is positive; with none recorded there is no minimum or
   * maximum and the average is 0; otherwise the records hold the least and greatest
   * recorded frequency and the average is their mean.
   */
  ghost predicate Consistent(minPitch: Option<PitchRecord>, maxPitch: Option<PitchRecord>, avgPitch: real, allPitches: seq<real>)
  {
    && (forall i :: 0 <= i < |allPitches| ==> allPitches[i] > 0.0)
    && (allPitches == [] ==> minPitch == None && maxPitch == None && avgPitch == 0.0)
    && (allPitches != [] ==>
          && minPitch.Some? && minPitch.value.hz == SeqMin(allPitches)
          && maxPitch.Some? && maxPitch.value.hz == SeqMax(allPitches)
          && avgPitch == Mean(allPitches))
  }

  /** Recording a positive frequency by the strict min/max rules and the new mean keeps the invariant. */
  lemma RecordKeepsConsistent(minPitch: Option<PitchRecord>, maxPitch: Option<PitchRecord>, avgPitch: real,
                              allPitches: seq<real>, rec: PitchRecord)
    requires Consistent(minPitch, maxPitch, avgPitch, allPitches)
    requires rec.hz > 0.0
    ensures Consistent(NewMin(minPitch, rec), NewMax(maxPitch, rec), Mean(allPitches + [rec.hz]), allPitches + [rec.hz])
  {
    var all := allPitches + [rec.hz];
    assert forall i :: 0 <= i < |allPitches| ==> all[i] == allPitches[i];
    if allPitches != [] {
      SeqMinAppend(allPitches, rec.hz);
    } else {
      assert all == [rec.hz];
    }
  }

  /** The session aggregator. All four fields are replaced together by the program's setters. */
  class VocalMetrics {
    var minPitch: Option<PitchRecord>
    var maxPitch: Option<PitchRecord>
    var avgPitch: real
    var allPitches: seq<real>

    /** The aggregator's invariant, on its four fields. */
    ghost predicate Valid()
      reads this
    {
      Consistent(minPitch, maxPitch, avgPitch, allPitches)
    }

    constructor ()
      ensures Valid()
      ensures minPitch == None && maxPitch == None && avgPitch == 0.0 && allPitches == []
    {
      minPitch, maxPitch, avgPitch, allPitches := None, None, 0.0, [];
    }

    /** updateVocalMetrics: a non-positive frequency is ignored; any other is recorded. */
    method Update(hz: real, note: Option<string>, octave: int)
      requires Valid()
      modifies this
      ensures Valid()
      ensures hz <= 0.0 ==>
        minPitch == old(minPitch) && maxPitch == old(maxPitch) &&
        avgPitch == old(avgPitch) && allPitches == old(allPitches)
      ensures hz > 0.0 ==>
        && minPitch == NewMin(old(minPitch), PitchRecord(hz, note, octave))
        && maxPitch == NewMax(old(maxPitch), PitchRecord(hz, note, octave))
        && allPitches == old(allPitches) + [hz]
        && avgPitch == Mean(allPitches)
    {
      if hz > 0.0 {
        var rec := PitchRecord(hz, note, octave);
        var min0, max0, avg0, all0 := minPitch, maxPitch, avgPitch, allPitches;
        minPitch := NewMin(min0, rec);
        maxPitch := NewMax(max0, rec);
        allPitches := all0 + [hz];
        avgPitch := Sum(allPitches) / (|allPitches| as real);
        RecordKeepsConsistent(min0, max0, avg0, all0, rec);
        assert Consistent(minPitch, maxPitch, avgPitch, allPitches);
      }
    }

    /** The metric part of resetMetrics. */
    method Reset()
      modifies this
      ensures Valid()
      ensures minPitch == None && maxPitch == None && avgPitch == 0.0 && allPitches == []
    {
      minPitch, maxPitch, avgPitch, allPitches := None, None, 0.0, [];
    }

    /** Once anything is recorded, min.hz <= avg <= max.hz. */
    lemma RangeOrdered()
      requires Valid()
      requires allPitches != []
      ensures minPitch.Some? && maxPitch.Some?
      ensures minPitch.value.hz <= avgPitch <= maxPitch.value.hz
      ensures minPitch.value.hz <= maxPitch.value.hz
    {
      MeanBetweenMinAndMax(allPitches);
    }
  }

  /** Recording 100, 50 and 200 Hz gives min 50, max 200 and mean 350/3. */
  method SessionExample()
  {
    var m := new VocalMetrics();
    m.Update(100.0, Some("G#"), 2);
    m.Update(50.0, None, 0);
    m.Update(200.0, Some("G"), 3);
    assert m.allPitches == [100.0, 50.0, 200.0];
    SumAppend([], 100.0);
    SumAppend([100.0], 50.0);
    SumAppend([100.0, 50.0], 200.0);
    assert m.minPitch == Some(PitchRecord(50.0, None, 0));
    assert m.maxPitch == Some(PitchRecord(200.0, Some("G"), 3));
    assert Sum(m.allPitches) == 350.0;
    assert m.avgPitch == 350.0 / 3.0;
    m.Update(0.0, None, 0);
    assert m.allPitches == [100.0, 50.0, 200.0];
  }
}
