/** The per-poll summary, the bounded time series of samples it feeds, and the vertical
    scale of the chart drawn from that series. */
module Series {
  import opened Js

  /** The four counts shown on the page (`SessionData` without its records). */
  datatype Summary = Summary(total: real, high: real, medium: real, low: real)

  /** The counts before the first poll and right after a start. */
  const ZeroSummary: Summary := Summary(0.0, 0.0, 0.0, 0.0)

  /** `v || 0` for a count: a number is kept (0 stays 0), anything else reads as 0. */
  function CountOrZero(v: Value): (c: real)
    ensures v.Num? ==> c == v.x
    ensures !v.Num? ==> c == 0.0
  {
    NumberOr(v, 0.0)
  }

  /** The summary read from a poll's body; `None` when the body is null, whose
      `data.totalPedestrians` read throws. */
  function ReadSummary(data: Value): (r: Option<Summary>)
    ensures r.None? <==> Nullish(data)
    ensures r.Some? ==> r.value == Summary(
      CountOrZero(Field(data, "totalPedestrians")), CountOrZero(Field(data, "highRisk")),
      CountOrZero(Field(data, "mediumRisk")), CountOrZero(Field(data, "lowRisk")))
  {
    match Get(data, "totalPedestrians")
    case None => None
    case Some(total) => Some(Summary(
      CountOrZero(total), CountOrZero(Field(data, "highRisk")),
      CountOrZero(Field(data, "mediumRisk")), CountOrZero(Field(data, "lowRisk"))))
  }

  /** One sample of the chart; `time` is the poll's local time of day. */
  datatype TimePoint = TimePoint(time: string, total: real, high: real, medium: real, low: real)

  /** The sample taken in the same poll as the summary carries exactly its counts. */
  function Sample(s: Summary, time: string): (p: TimePoint)
    ensures p.time == time
    ensures Summary(p.total, p.high, p.medium, p.low) == s
  {
    TimePoint(time, s.total, s.high, s.medium, s.low)
  }

  /** How many samples the chart keeps. */
  const Capacity: nat := 20

  /** The last `Capacity` elements of `u`, or all of them when there are fewer. */
  function Latest(u: seq<TimePoint>): (r: seq<TimePoint>)
    ensures |r| == if |u| <= Capacity then |u| else Capacity
    ensures r == u[|u| - |r|..]
  {
    if |u| <= Capacity then u else u[|u| - Capacity..]
  }

  /** The updater handed to `setTimeSeriesData`: append the new sample and keep the
      last twenty (`slice(-20)`) once there are more. */
  function Window(prev: seq<TimePoint>, p: TimePoint): (r: seq<TimePoint>)
    ensures |r| == if |prev| < Capacity then |prev| + 1 else Capacity
    ensures r[|r| - 1] == p
    ensures |prev| < Capacity ==> r == prev + [p]
    ensures |prev| >= Capacity ==> r == prev[|prev| - Capacity + 1..] + [p]
  {
    var u := prev + [p];
    if |u| > Capacity then
      assert u[|u| - Capacity..] == prev[|prev| - Capacity + 1..] + [p];
      u[|u| - Capacity..]
    else u
  }

  /** One poll after another: the series after the samples `ps` arrive in order. */
  function Feed(s: seq<TimePoint>, ps: seq<TimePoint>): seq<TimePoint>
    decreases |ps|
  {
    if ps == [] then s else Feed(Window(s, ps[0]), ps[1..])
  }

  /** One poll on a series of at most twenty samples keeps the latest of them and the new one. */
  lemma WindowIsLatest(s: seq<TimePoint>, p: TimePoint)
    requires |s| <= Capacity
    ensures Window(s, p) == Latest(s + [p])
  {
    if |s| == Capacity {
      assert (s + [p])[|s + [p]| - Capacity..] == s[1..] + [p];
    }
  }

  lemma AppendFirst(s: seq<TimePoint>, ps: seq<TimePoint>)
    requires ps != []
    ensures s + [ps[0]] + ps[1..] == s + ps
  {
    assert [ps[0]] + ps[1..] == ps;
  }

  /** Dropping old samples first does not change which samples are the latest. */
  lemma LatestAbsorbs(u: seq<TimePoint>, v: seq<TimePoint>)
    ensures Latest(Latest(u) + v) == Latest(u + v)
  {
    if |u| > Capacity {
      var a := u[|u| - Capacity..];
      var l1, l2 := Latest(a + v), Latest(u + v);
      assert |l1| == Capacity && |l2| == Capacity;
      forall i | 0 <= i < Capacity ensures l1[i] == l2[i] {
        assert l1[i] == (a + v)[|v| + i];
        assert l2[i] == (u + v)[|u| + |v| - Capacity + i];
      }
    }
  }

  /** A series of at most twenty samples fed any number of samples holds exactly the
      last twenty of everything seen, in arrival order; so the series never exceeds
      twenty entries. */
  lemma {:induction false} FeedKeepsLatest(s: seq<TimePoint>, ps: seq<TimePoint>)
    requires |s| <= Capacity
    ensures Feed(s, ps) == Latest(s + ps)
    ensures |Feed(s, ps)| <= Capacity
    decreases |ps|
  {
    if ps != [] {
      var p, rest := ps[0], ps[1..];
      var w := Window(s, p);
      WindowIsLatest(s, p);
      FeedKeepsLatest(w, rest);
      LatestAbsorbs(s + [p], rest);
      AppendFirst(s, ps);
      assert Feed(s, ps) == Feed(w, rest);
    }
  }

  /** Twenty-five samples fed one at a time into an empty series leave the last twenty. */
  lemma TwentyFiveSamples(ps: seq<TimePoint>)
    requires |ps| == 25
    ensures Feed([], ps) == ps[5..]
  {
    FeedKeepsLatest([], ps);
    assert [] + ps == ps;
  }

  function Max(a: real, b: real): (m: real)
    ensures m >= a && m >= b && (m == a || m == b)
  {
    if a >= b then a else b
  }

  /** `Math.max(point.total, point.high, point.medium, point.low)` */
  function Peak(p: TimePoint): (m: real)
    ensures m >= p.total && m >= p.high && m >= p.medium && m >= p.low
    ensures m == p.total || m == p.high || m == p.medium || m == p.low
  {
    Max(Max(p.total, p.high), Max(p.medium, p.low))
  }

  /** The smallest scale the chart uses. */
  const ScaleFloor: real := 5.0

  /** `maxTimeSeriesValue`: the least value that is at least 5 and at least every count
      of every sample. */
  function MaxValue(series: seq<TimePoint>): (r: real)
    ensures r >= ScaleFloor
    ensures forall k :: 0 <= k < |series| ==> Peak(series[k]) <= r
    ensures r == ScaleFloor || exists k :: 0 <= k < |series| && Peak(series[k]) == r
  {
    if series == [] then ScaleFloor
    else Max(MaxValue(series[..|series| - 1]), Peak(series[|series| - 1]))
  }

  /** An empty series, or one whose counts never exceed 5 (an all-zero series among
      them), is drawn on the scale 5. */
  lemma QuietSeriesScale(series: seq<TimePoint>)
    requires forall k :: 0 <= k < |series| ==> Peak(series[k]) <= ScaleFloor
    ensures MaxValue(series) == ScaleFloor
  {
  }
}
