/**
 * GPS fixes and the movement measures both transport-mode detectors
 * compute from them. Great-circle distance and bearing are floating-point
 * trigonometry and enter as function parameters.
 */
module Movement {
  import opened Common

  datatype GpsPoint = GpsPoint(lat: real, lng: real, timestamp: Instant)

  /** Great-circle distance in kilometres between two fixes. */
  type Distance = (GpsPoint, GpsPoint) -> real

  /** Initial bearing in degrees from the first fix to the second. */
  type Bearing = (GpsPoint, GpsPoint) -> real

  /** Seconds elapsed over step `i`, the step from fix `i - 1` to fix `i`. */
  function Gap(w: seq<GpsPoint>, i: int): int
    requires 1 <= i < |w|
  {
    w[i].timestamp - w[i - 1].timestamp
  }

  /** Speed in km/h over step `i`, defined for a positive gap. */
  function StepSpeed(w: seq<GpsPoint>, i: int, dist: Distance): real
    requires 1 <= i < |w| && Gap(w, i) > 0
  {
    dist(w[i - 1], w[i]) * 3600.0 / Gap(w, i) as real
  }

  /** Distance over hours and distance over seconds times 3600 are the same speed. */
  lemma SpeedForms(d: real, g: int)
    requires g > 0
    ensures d / (g as real / 3600.0) == d * 3600.0 / g as real
    ensures d / g as real * 3600.0 == d * 3600.0 / g as real
  {
  }

  predicate IsSlowStep(w: seq<GpsPoint>, i: int, dist: Distance)
    requires 1 <= i < |w|
  {
    Gap(w, i) > 0 && StepSpeed(w, i, dist) < 1.0
  }

  // ---------------------------------------------------------------------
  // Speeds and stops
  // ---------------------------------------------------------------------

  /** The speeds of steps `1 .. n - 1` that have a positive time gap, in order. */
  function Speeds(w: seq<GpsPoint>, n: nat, dist: Distance): (r: seq<real>)
    requires n <= |w|
    ensures |r| <= if n == 0 then 0 else n - 1
  {
    if n <= 1 then []
    else Speeds(w, n - 1, dist) + (if Gap(w, n - 1) > 0 then [StepSpeed(w, n - 1, dist)] else [])
  }

  /** Number of steps `1 .. n - 1` with a positive gap and a speed below 1 km/h. */
  function SlowSteps(w: seq<GpsPoint>, n: nat, dist: Distance): (r: nat)
    requires n <= |w|
    ensures r <= |Speeds(w, n, dist)|
  {
    if n <= 1 then 0
    else SlowSteps(w, n - 1, dist) + (if IsSlowStep(w, n - 1, dist) then 1 else 0)
  }

  function Mean(s: seq<real>): (r: real)
    ensures s == [] ==> r == 0.0
  {
    if s == [] then 0.0 else SumOf(s, x => x) / |s| as real
  }

  /** `max(s) if s else 0`. */
  function MaxOrZero(s: seq<real>): (r: real)
    ensures s == [] ==> r == 0.0
    ensures s != [] ==> r in s
    ensures forall i :: 0 <= i < |s| ==> s[i] <= r
  {
    if s == [] then 0.0
    else if |s| == 1 then s[0]
    else
      var m := MaxOrZero(s[..|s| - 1]);
      assert forall i :: 0 <= i < |s| - 1 ==> s[i] == s[..|s| - 1][i];
      if s[|s| - 1] > m then s[|s| - 1] else m
  }

  /** The mean never exceeds the maximum, and both are 0 for no values. */
  lemma MeanAtMostMax(s: seq<real>)
    ensures Mean(s) <= MaxOrZero(s)
  {
    if s != [] {
      var n, m := |s| as real, MaxOrZero(s);
      SumOfAtMost(s, x => x, m);
      QuotientAtMost(SumOf(s, x => x), n, m);
    }
  }

  lemma QuotientAtMost(a: real, n: real, m: real)
    requires n > 0.0 && a <= n * m
    ensures a / n <= m
  {
    assert a / n * n == a;
    assert (a / n - m) * n <= 0.0;
  }

  /** The mean of non-negative values is non-negative. */
  lemma MeanNonNegative(s: seq<real>)
    requires forall i :: 0 <= i < |s| ==> s[i] >= 0.0
    ensures Mean(s) >= 0.0
  {
    SumOfNonNegative(s, x => x);
  }

  function Abs(x: real): real
  {
    if x < 0.0 then -x else x
  }

  // ---------------------------------------------------------------------
  // Direction changes
  // ---------------------------------------------------------------------

  /** Folds an absolute bearing difference onto the smaller angle between the two headings. */
  function FoldAngle(d: real): (r: real)
    ensures 0.0 <= d <= 360.0 ==> 0.0 <= r <= 180.0
    ensures r == d || r == 360.0 - d
    ensures d <= 180.0 ==> r == d
  {
    if d > 180.0 then 360.0 - d else d
  }

  /** Turn at fix `i - 1`, between the heading into it and the heading out of it. */
  function TurnAngle(w: seq<GpsPoint>, i: int, bearing: Bearing): real
    requires 2 <= i < |w|
  {
    FoldAngle(Abs(bearing(w[i - 1], w[i]) - bearing(w[i - 2], w[i - 1])))
  }

  /** Number of triples ending at `2 .. n - 1` whose folded turn exceeds 45 degrees. */
  function Turns(w: seq<GpsPoint>, n: nat, bearing: Bearing): (r: nat)
    requires n <= |w|
    ensures r <= if n < 2 then 0 else n - 2
  {
    if n <= 2 then 0
    else Turns(w, n - 1, bearing) + (if TurnAngle(w, n - 1, bearing) > 45.0 then 1 else 0)
  }

  /**
   * Bearings confined to a window of 360 degrees (`atan2` gives [-180, 180],
   * its normalisation [0, 360)) make every folded turn lie in [0, 180].
   */
  lemma TurnAngleRange(w: seq<GpsPoint>, i: int, bearing: Bearing, lo: real)
    requires 2 <= i < |w|
    requires forall a, b :: lo <= bearing(a, b) <= lo + 360.0
    ensures 0.0 <= TurnAngle(w, i, bearing) <= 180.0
  {
    var b1, b2 := bearing(w[i - 2], w[i - 1]), bearing(w[i - 1], w[i]);
    assert lo <= b1 <= lo + 360.0 && lo <= b2 <= lo + 360.0;
  }

  /** The direction-change loop shared by both detectors. */
  method CountDirectionChanges(w: seq<GpsPoint>, bearing: Bearing) returns (changes: nat)
    ensures changes == Turns(w, |w|, bearing)
  {
    changes := 0;
    if |w| >= 3 {
      var i := 2;
      while i < |w|
        invariant 2 <= i <= |w|
        invariant changes == Turns(w, i, bearing)
      {
        var angle := Abs(bearing(w[i - 1], w[i]) - bearing(w[i - 2], w[i - 1]));
        if angle > 180.0 {
          angle := 360.0 - angle;
        }
        if angle > 45.0 {
          changes := changes + 1;
        }
        i := i + 1;
      }
    }
  }

  // ---------------------------------------------------------------------
  // Stop-based segmentation
  // ---------------------------------------------------------------------

  /**
   * How the segmentation loop treats a step: below 1 km/h is a stop step,
   * anything faster ends a stop. A step without a positive gap is a stop
   * step for the basic detector and ignored by the advanced one.
   */
  datatype StepKind = Slow | Fast | Skip

  function Kind(w: seq<GpsPoint>, i: int, dist: Distance, zeroGapIsStop: bool): StepKind
    requires 1 <= i < |w|
  {
    if Gap(w, i) > 0 then (if StepSpeed(w, i, dist) < 1.0 then Slow else Fast)
    else if zeroGapIsStop then Slow
    else Skip
  }

  /**
   * The stop in progress after steps `1 .. m`: the index of the fix at
   * which it began (the fix before its first slow step), if any.
   */
  function StopStart(w: seq<GpsPoint>, m: nat, dist: Distance, zeroGapIsStop: bool): (r: Option<nat>)
    requires m < |w|
    ensures r.Some? ==> r.value < m
  {
    if m == 0 then None
    else NextStop(Kind(w, m, dist, zeroGapIsStop), StopStart(w, m - 1, dist, zeroGapIsStop), m)
  }

  /** A slow step `m` opens a stop at fix `m - 1` unless one is open; a fast step closes it. */
  function NextStop(kind: StepKind, stop: Option<nat>, m: nat): Option<nat>
    requires m >= 1
  {
    match kind
    case Slow => if stop.None? then Some(m - 1) else stop
    case Fast => None
    case Skip => stop
  }

  /**
   * Step `i` cuts the track: it is fast, it ends a stop, and that stop
   * lasted at least `minStop` seconds up to fix `i - 1`.
   */
  predicate Cut(w: seq<GpsPoint>, i: int, minStop: int, dist: Distance, zeroGapIsStop: bool)
  {
    1 <= i < |w| && Kind(w, i, dist, zeroGapIsStop) == Fast &&
    var s := StopStart(w, i - 1, dist, zeroGapIsStop);
    s.Some? && w[i - 1].timestamp - w[s.value].timestamp >= minStop
  }

  /** An inclusive range of fix indices. */
  datatype Range = Range(startIdx: int, endIdx: int)

  /** The ranges tile `[0, hi]`: they start at 0, each has two fixes or more, and each starts right after the previous one. */
  predicate Tiles(segs: seq<Range>, hi: int)
  {
    segs != [] &&
    segs[0].startIdx == 0 &&
    segs[|segs| - 1].endIdx == hi &&
    (forall k :: 0 <= k < |segs| ==> segs[k].startIdx < segs[k].endIdx) &&
    (forall k :: 0 <= k < |segs| - 1 ==> segs[k + 1].startIdx == segs[k].endIdx + 1)
  }

  /** Tiling ranges are increasing and lie within `[0, hi]`. */
  lemma {:induction false} TilesBounds(segs: seq<Range>, hi: int)
    requires Tiles(segs, hi)
    ensures forall k :: 0 <= k < |segs| ==> 0 <= segs[k].startIdx < segs[k].endIdx <= hi
    ensures forall j, k :: 0 <= j < k < |segs| ==> segs[j].endIdx < segs[k].startIdx
  {
    if |segs| > 1 {
      var init := segs[..|segs| - 1];
      TilesBounds(init, init[|init| - 1].endIdx);
    }
  }

  /** Every range starts at 0 or at a cut and holds no cut past its first fix. */
  predicate CutsRespected(w: seq<GpsPoint>, segs: seq<Range>, minStop: int, dist: Distance, zeroGapIsStop: bool)
  {
    (forall k :: 0 <= k < |segs| && segs[k].startIdx > 0 ==> Cut(w, segs[k].startIdx, minStop, dist, zeroGapIsStop)) &&
    (forall k, i :: 0 <= k < |segs| && segs[k].startIdx < i <= segs[k].endIdx ==> !Cut(w, i, minStop, dist, zeroGapIsStop))
  }

  /** Closing the open range `[currentStart, e]` keeps the tiling. */
  lemma TilesExtend(segs: seq<Range>, currentStart: int, e: int)
    requires segs == [] <==> currentStart == 0
    requires segs != [] ==> Tiles(segs, currentStart - 1)
    requires 0 <= currentStart < e
    ensures Tiles(segs + [Range(currentStart, e)], e)
  {
  }

  /** Closing the open range keeps every range aligned with the cuts. */
  lemma CutsRespectedExtend(w: seq<GpsPoint>, segs: seq<Range>, currentStart: int, e: int,
                            minStop: int, dist: Distance, zeroGapIsStop: bool)
    requires CutsRespected(w, segs, minStop, dist, zeroGapIsStop)
    requires currentStart > 0 ==> Cut(w, currentStart, minStop, dist, zeroGapIsStop)
    requires forall m :: currentStart < m <= e ==> !Cut(w, m, minStop, dist, zeroGapIsStop)
    ensures CutsRespected(w, segs + [Range(currentStart, e)], minStop, dist, zeroGapIsStop)
  {
  }

  /**
   * The state of the segmentation loop before step `i`: `stop` is the stop
   * in progress, `currentStart` the last cut (or 0), no cut lies after it,
   * and the closed ranges tile `[0, currentStart - 1]` along the cuts.
   */
  ghost predicate Progress(w: seq<GpsPoint>, segs: seq<Range>, currentStart: int, i: int, stop: Option<nat>,
                           minStop: int, dist: Distance, zeroGapIsStop: bool)
  {
    1 <= i <= |w| && 0 <= currentStart <= i - 1 &&
    stop == StopStart(w, i - 1, dist, zeroGapIsStop) &&
    (stop.Some? ==> currentStart <= stop.value) &&
    (currentStart > 0 ==> Cut(w, currentStart, minStop, dist, zeroGapIsStop)) &&
    (forall m :: currentStart < m < i ==> !Cut(w, m, minStop, dist, zeroGapIsStop)) &&
    (segs == [] <==> currentStart == 0) &&
    (segs != [] ==> Tiles(segs, currentStart - 1)) &&
    CutsRespected(w, segs, minStop, dist, zeroGapIsStop)
  }

  /** A step that does not end a long enough stop only moves the stop marker. */
  lemma ProgressNoCut(w: seq<GpsPoint>, segs: seq<Range>, currentStart: int, i: int, stop: Option<nat>,
                      minStop: int, dist: Distance, zeroGapIsStop: bool)
    requires Progress(w, segs, currentStart, i, stop, minStop, dist, zeroGapIsStop) && i < |w|
    requires !(Kind(w, i, dist, zeroGapIsStop) == Fast && stop.Some? &&
               w[i - 1].timestamp - w[stop.value].timestamp >= minStop)
    ensures Progress(w, segs, currentStart, i + 1, NextStop(Kind(w, i, dist, zeroGapIsStop), stop, i),
                     minStop, dist, zeroGapIsStop)
  {
  }

  /** A step that ends a long enough stop closes the open range, which has two fixes or more. */
  lemma ProgressCut(w: seq<GpsPoint>, segs: seq<Range>, currentStart: int, i: int, stop: Option<nat>,
                    minStop: int, dist: Distance, zeroGapIsStop: bool)
    requires Progress(w, segs, currentStart, i, stop, minStop, dist, zeroGapIsStop) && i < |w|
    requires Kind(w, i, dist, zeroGapIsStop) == Fast && stop.Some? &&
             w[i - 1].timestamp - w[stop.value].timestamp >= minStop
    ensures currentStart < i - 1
    ensures Progress(w, segs + [Range(currentStart, i - 1)], i, i + 1, None, minStop, dist, zeroGapIsStop)
  {
    assert Cut(w, i, minStop, dist, zeroGapIsStop);
    TilesExtend(segs, currentStart, i - 1);
    CutsRespectedExtend(w, segs, currentStart, i - 1, minStop, dist, zeroGapIsStop);
  }

  /**
   * What the segmentation loop promises: no ranges for fewer than two
   * fixes; otherwise ranges that tile the track from fix 0 and reach its
   * last fix unless the last step is a cut; every range starts at 0 or at
   * a cut and contains no other cut.
   */
  predicate SegmentationOf(w: seq<GpsPoint>, segs: seq<Range>, minStop: int, dist: Distance, zeroGapIsStop: bool)
  {
    (|w| < 2 <==> segs == []) &&
    (|w| >= 2 ==>
      Tiles(segs, segs[|segs| - 1].endIdx) &&
      (segs[|segs| - 1].endIdx == |w| - 1 ||
       (segs[|segs| - 1].endIdx == |w| - 2 && Cut(w, |w| - 1, minStop, dist, zeroGapIsStop)))) &&
    CutsRespected(w, segs, minStop, dist, zeroGapIsStop)
  }

  /** After the last step the open range is closed when it has two fixes or more. */
  lemma ProgressFinish(w: seq<GpsPoint>, segs: seq<Range>, currentStart: int, stop: Option<nat>,
                       minStop: int, dist: Distance, zeroGapIsStop: bool)
    requires Progress(w, segs, currentStart, |w|, stop, minStop, dist, zeroGapIsStop) && |w| >= 2
    ensures currentStart < |w| - 1 ==>
      SegmentationOf(w, segs + [Range(currentStart, |w| - 1)], minStop, dist, zeroGapIsStop)
    ensures currentStart >= |w| - 1 ==> SegmentationOf(w, segs, minStop, dist, zeroGapIsStop)
  {
    if currentStart < |w| - 1 {
      TilesExtend(segs, currentStart, |w| - 1);
      CutsRespectedExtend(w, segs, currentStart, |w| - 1, minStop, dist, zeroGapIsStop);
    }
  }

  /**
   * One pass of the segmentation loop's body, for step `i`: a slow step
   * opens a stop, a fast step closes it, and closing a stop of at least
   * `minStop` seconds closes the open range and starts the next at fix `i`.
   */
  method SegmentStep(w: seq<GpsPoint>, minStop: int, dist: Distance, zeroGapIsStop: bool, i: int,
                     segs: seq<Range>, currentStart: int, inStop: bool, stopStartTime: Instant, ghost stop: Option<nat>)
    returns (segs': seq<Range>, currentStart': int, inStop': bool, stopStartTime': Instant, ghost stop': Option<nat>)
    requires Progress(w, segs, currentStart, i, stop, minStop, dist, zeroGapIsStop) && i < |w|
    requires inStop == stop.Some?
    requires stop.Some? ==> stop.value < |w| && stopStartTime == w[stop.value].timestamp
    ensures Progress(w, segs', currentStart', i + 1, stop', minStop, dist, zeroGapIsStop)
    ensures inStop' == stop'.Some?
    ensures stop'.Some? ==> stop'.value < |w| && stopStartTime' == w[stop'.value].timestamp
  {
    segs', currentStart', inStop', stopStartTime' := segs, currentStart, inStop, stopStartTime;
    stop' := NextStop(Kind(w, i, dist, zeroGapIsStop), stop, i);
    var kind := Kind(w, i, dist, zeroGapIsStop);
    if kind == Slow {
      ProgressNoCut(w, segs, currentStart, i, stop, minStop, dist, zeroGapIsStop);
      if !inStop {
        inStop' := true;
        stopStartTime' := w[i - 1].timestamp;
      }
    } else if kind == Fast {
      if inStop {
        var stopDuration := w[i - 1].timestamp - stopStartTime;
        if stopDuration >= minStop {
          ProgressCut(w, segs, currentStart, i, stop, minStop, dist, zeroGapIsStop);
          if currentStart < i - 1 {
            segs' := segs + [Range(currentStart, i - 1)];
          }
          currentStart' := i;
        } else {
          ProgressNoCut(w, segs, currentStart, i, stop, minStop, dist, zeroGapIsStop);
        }
        inStop' := false;
      } else {
        ProgressNoCut(w, segs, currentStart, i, stop, minStop, dist, zeroGapIsStop);
      }
    } else {
      ProgressNoCut(w, segs, currentStart, i, stop, minStop, dist, zeroGapIsStop);
    }
  }

  /**
   * The segmentation loop of both detectors. The ranges cover the track
   * from fix 0 without gaps or overlap, a new range begins exactly at each
   * cut, and only the last fix can be left out, when the last step is a cut.
   */
  method SegmentRanges(w: seq<GpsPoint>, minStop: int, dist: Distance, zeroGapIsStop: bool)
    returns (segs: seq<Range>)
    ensures SegmentationOf(w, segs, minStop, dist, zeroGapIsStop)
  {
    if |w| < 2 {
      return [];
    }
    segs := [];
    var currentStart := 0;
    var inStop := false;
    var stopStartTime := 0;
    ghost var stop: Option<nat> := None;
    var i := 1;
    while i < |w|
      invariant Progress(w, segs, currentStart, i, stop, minStop, dist, zeroGapIsStop)
      invariant inStop == stop.Some?
      invariant stop.Some? ==> stop.value < |w| && stopStartTime == w[stop.value].timestamp
    {
      segs, currentStart, inStop, stopStartTime, stop :=
        SegmentStep(w, minStop, dist, zeroGapIsStop, i, segs, currentStart, inStop, stopStartTime, stop);
      i := i + 1;
    }
    ProgressFinish(w, segs, currentStart, stop, minStop, dist, zeroGapIsStop);
    if currentStart < |w| - 1 {
      segs := segs + [Range(currentStart, |w| - 1)];
    }
  }
}
