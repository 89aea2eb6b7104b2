/**
 * The rule-based transport-mode detector's movement analysis and its
 * stop-based trip segmentation.
 */
module ModeDetector {
  import opened Common
  import opened Movement

  datatype Analysis = Analysis(
    avgSpeed: real,
    maxSpeed: real,
    stopsCount: nat,
    directionChanges: nat,
    smoothnessScore: real)

  /** `1 / (1 + 0.1 * changes)`: 1 for a straight track, falling with every turn. */
  function Smoothness(changes: nat): (r: real)
    ensures 0.0 < r <= 1.0
    ensures r == 1.0 <==> changes == 0
  {
    1.0 / (1.0 + changes as real * 0.1)
  }

  /** Number of entries of `s` below `bound`. */
  function CountBelow(s: seq<real>, bound: real): nat
  {
    if s == [] then 0 else CountBelow(s[..|s| - 1], bound) + (if s[|s| - 1] < bound then 1 else 0)
  }

  /** The stop count is the number of recorded speeds below 1 km/h. */
  lemma {:induction false} SlowStepsAreSlowSpeeds(w: seq<GpsPoint>, n: nat, dist: Distance)
    requires n <= |w|
    ensures SlowSteps(w, n, dist) == CountBelow(Speeds(w, n, dist), 1.0)
  {
    if n > 1 {
      SlowStepsAreSlowSpeeds(w, n - 1, dist);
      var s := Speeds(w, n, dist);
      if Gap(w, n - 1) > 0 {
        assert s[..|s| - 1] == Speeds(w, n - 1, dist);
      } else {
        assert s == Speeds(w, n - 1, dist);
      }
    }
  }

  /**
   * Speeds over steps with a positive gap, stops among them, and turns
   * sharper than 45 degrees; fewer than two fixes give the neutral result.
   */
  method AnalyzeWaypoints(w: seq<GpsPoint>, dist: Distance, bearing: Bearing) returns (a: Analysis)
    ensures |w| < 2 ==> a == Analysis(0.0, 0.0, 0, 0, 0.5)
    ensures |w| >= 2 ==>
      a.avgSpeed == Mean(Speeds(w, |w|, dist)) &&
      a.maxSpeed == MaxOrZero(Speeds(w, |w|, dist)) &&
      a.stopsCount == SlowSteps(w, |w|, dist) &&
      a.directionChanges == Turns(w, |w|, bearing) &&
      a.smoothnessScore == Smoothness(a.directionChanges)
  {
    if |w| < 2 {
      return Analysis(0.0, 0.0, 0, 0, 0.5);
    }
    var speeds: seq<real> := [];
    var stopsCount := 0;
    var i := 1;
    while i < |w|
      invariant 1 <= i <= |w|
      invariant speeds == Speeds(w, i, dist)
      invariant stopsCount == SlowSteps(w, i, dist)
    {
      var distance := dist(w[i - 1], w[i]);
      var timeDiff := (w[i].timestamp - w[i - 1].timestamp) as real / 3600.0;
      if timeDiff > 0.0 {
        var speed := distance / timeDiff;
        SpeedForms(distance, Gap(w, i));
        speeds := speeds + [speed];
        if speed < 1.0 {
          stopsCount := stopsCount + 1;
        }
      }
      i := i + 1;
    }
    var changes := CountDirectionChanges(w, bearing);
    a := Analysis(Mean(speeds), MaxOrZero(speeds), stopsCount, changes, Smoothness(changes));
  }

  datatype Segment = Segment(startIdx: int, endIdx: int, waypoints: seq<GpsPoint>)

  function RangesOf(segs: seq<Segment>): (r: seq<Range>)
    ensures |r| == |segs|
    ensures forall k :: 0 <= k < |segs| ==> r[k] == Range(segs[k].startIdx, segs[k].endIdx)
  {
    if segs == [] then [] else RangesOf(segs[..|segs| - 1]) + [Range(segs[|segs| - 1].startIdx, segs[|segs| - 1].endIdx)]
  }

  /** A segment within the track holding the fixes of its range. */
  predicate Covers(w: seq<GpsPoint>, seg: Segment)
  {
    0 <= seg.startIdx < seg.endIdx < |w| && seg.waypoints == w[seg.startIdx..seg.endIdx + 1]
  }

  /** Attaches to each range the fixes it covers. */
  function WithWaypoints(w: seq<GpsPoint>, ranges: seq<Range>): (segs: seq<Segment>)
    requires forall k :: 0 <= k < |ranges| ==> 0 <= ranges[k].startIdx < ranges[k].endIdx < |w|
    ensures RangesOf(segs) == ranges
    ensures forall k :: 0 <= k < |segs| ==> Covers(w, segs[k])
  {
    var segs := seq(|ranges|, k requires 0 <= k < |ranges| =>
      Segment(ranges[k].startIdx, ranges[k].endIdx, w[ranges[k].startIdx..ranges[k].endIdx + 1]));
    assert RangesOf(segs) == ranges;
    segs
  }

  /**
   * Splits a track at stops of at least `minStop` seconds; a step without
   * a positive time gap counts as a stop step. Each segment carries exactly
   * the fixes of its inclusive index range.
   */
  method DetectTripSegments(w: seq<GpsPoint>, minStop: int, dist: Distance) returns (segs: seq<Segment>)
    ensures |w| < 2 ==> segs == []
    ensures SegmentationOf(w, RangesOf(segs), minStop, dist, true)
    ensures forall k :: 0 <= k < |segs| ==> Covers(w, segs[k])
  {
    if |w| < 2 {
      return [];
    }
    var ranges := SegmentRanges(w, minStop, dist, true);
    TilesBounds(ranges, ranges[|ranges| - 1].endIdx);
    segs := WithWaypoints(w, ranges);
  }
}
