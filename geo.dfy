/**
 * Trip statistics over a recorded trace: the total distance is the sum of
 * the distances between consecutive samples and the average speed divides it
 * by the time elapsed since the journey started. The great-circle distance
 * itself (the haversine formula on a sphere of radius 6371 km) is a parameter
 * `dist`; the properties below assume only that it is non-negative and
 * symmetric.
 */
module Geo {

  datatype Point = Point(latitude: real, longitude: real)

  /** One coordinate of a trace; `timestamp` is in milliseconds since the epoch. */
  datatype Sample = Sample(latitude: real, longitude: real, timestamp: int)

  function PositionOf(s: Sample): Point {
    Point(s.latitude, s.longitude)
  }

  ghost predicate NonNegative(dist: (Point, Point) -> real) {
    forall p, q :: dist(p, q) >= 0.0
  }

  ghost predicate Symmetric(dist: (Point, Point) -> real) {
    forall p, q :: dist(p, q) == dist(q, p)
  }

  /** The distance of consecutive legs summed in trace order: the sum of dist(t[i-1], t[i]) for 1 <= i < |t|. */
  function PathLength(t: seq<Sample>, dist: (Point, Point) -> real): real {
    if |t| < 2 then 0.0
    else PathLength(t[..|t| - 1], dist) + dist(PositionOf(t[|t| - 2]), PositionOf(t[|t| - 1]))
  }

  /** Seconds from the journey's start to the last sample (not from the first sample). */
  function DurationSeconds(t: seq<Sample>, startTime: int): real
    requires |t| > 0
  {
    (t[|t| - 1].timestamp - startTime) as real / 1000.0
  }

  /** `durationSeconds > 0 ? totalDistance / durationSeconds : 0`. */
  function AverageSpeed(totalDistance: real, durationSeconds: real): (r: real)
    ensures durationSeconds <= 0.0 ==> r == 0.0
    ensures durationSeconds > 0.0 ==> r * durationSeconds == totalDistance
  {
    if durationSeconds > 0.0 then totalDistance / durationSeconds else 0.0
  }

  /**
   * `calculateTripStatistics`: the loop adds up the legs in order; the
   * average speed is zero unless the duration is positive. An empty trace is
   * excluded because the source reads its last element.
   */
  method CalculateTripStatistics(coords: seq<Sample>, startTime: int, dist: (Point, Point) -> real)
    returns (totalDistance: real, avgSpeed: real)
    requires |coords| > 0
    ensures totalDistance == PathLength(coords, dist)
    ensures avgSpeed == AverageSpeed(totalDistance, DurationSeconds(coords, startTime))
  {
    totalDistance := 0.0;
    for i := 1 to |coords|
      invariant totalDistance == PathLength(coords[..i], dist)
    {
      totalDistance := totalDistance + dist(PositionOf(coords[i - 1]), PositionOf(coords[i]));
      assert coords[..i + 1][..i] == coords[..i];
    }
    assert coords[..|coords|] == coords;
    var startTimeMs := startTime;
    var endTime := coords[|coords| - 1].timestamp;
    var durationSeconds := (endTime - startTimeMs) as real / 1000.0;
    avgSpeed := if durationSeconds > 0.0 then totalDistance / durationSeconds else 0.0;
  }

  function Reverse<T>(s: seq<T>): (r: seq<T>)
    ensures |r| == |s|
    ensures forall k :: 0 <= k < |s| ==> r[k] == s[|s| - 1 - k]
  {
    if |s| == 0 then [] else [s[|s| - 1]] + Reverse(s[..|s| - 1])
  }

  /** With non-negative legs the total distance is non-negative. */
  lemma {:induction false} PathLengthNonNegative(t: seq<Sample>, dist: (Point, Point) -> real)
    requires NonNegative(dist)
    ensures PathLength(t, dist) >= 0.0
    decreases |t|
  {
    if |t| >= 2 {
      PathLengthNonNegative(t[..|t| - 1], dist);
    }
  }

  /** With non-negative legs the average speed is non-negative, whatever the timestamps. */
  lemma AverageSpeedNonNegative(t: seq<Sample>, startTime: int, dist: (Point, Point) -> real)
    requires NonNegative(dist) && |t| > 0
    ensures AverageSpeed(PathLength(t, dist), DurationSeconds(t, startTime)) >= 0.0
  {
    PathLengthNonNegative(t, dist);
  }

  /** A single-sample trace has total distance zero. */
  lemma SingleSampleTrace(s: Sample, dist: (Point, Point) -> real)
    ensures PathLength([s], dist) == 0.0
  {
  }

  /** Putting a sample in front adds the leg from it to the old first sample. */
  lemma {:induction false} PathLengthPrepend(x: Sample, t: seq<Sample>, dist: (Point, Point) -> real)
    requires |t| > 0
    ensures PathLength([x] + t, dist) == dist(PositionOf(x), PositionOf(t[0])) + PathLength(t, dist)
    decreases |t|
  {
    var xt := [x] + t;
    if |t| >= 2 {
      assert xt[..|xt| - 1] == [x] + t[..|t| - 1];
      PathLengthPrepend(x, t[..|t| - 1], dist);
    } else {
      assert xt == [x, t[0]];
      assert xt[..1] == [x];
    }
  }

  /** Travelling the trace backwards covers the same distance when the legs are symmetric. */
  lemma {:induction false} PathLengthReverse(t: seq<Sample>, dist: (Point, Point) -> real)
    requires Symmetric(dist)
    ensures PathLength(Reverse(t), dist) == PathLength(t, dist)
    decreases |t|
  {
    if |t| >= 2 {
      var p := t[..|t| - 1];
      PathLengthReverse(p, dist);
      assert Reverse(t) == [t[|t| - 1]] + Reverse(p);
      PathLengthPrepend(t[|t| - 1], Reverse(p), dist);
      assert Reverse(p)[0] == t[|t| - 2];
    } else if |t| == 1 {
      assert Reverse(t) == t;
    }
  }
}
