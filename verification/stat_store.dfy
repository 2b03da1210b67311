/**
 * The in-memory statistics accumulator of lib/statStore.ts: three append-only
 * logs (points, serves, trajectories). The module-level singleton becomes an
 * explicit `Store` value and `Date.now()` becomes the parameter `now`.
 */
module StatStore {
  import opened Wrappers

  /** A point's timing; `end` is absent while the point is being played. */
  datatype PointRecord = PointRecord(start: int, end: Option<int>)

  /** A detected serve: speed in km/h and the time it was recorded. */
  datatype ServeRecord = ServeRecord(speed: int, timestamp: int)

  datatype Position = Position(x: real, y: real, time: int)

  /** A shot trajectory: an ordered sequence of positions. */
  datatype TrajectoryRecord = TrajectoryRecord(positions: seq<Position>)

  datatype Store = Store(points: seq<PointRecord>, serves: seq<ServeRecord>, trajectories: seq<TrajectoryRecord>)

  /** The store as it is created at start-up. */
  const Empty: Store := Store([], [], [])

  /**
   * `endPoint` tests `!p.end`, JavaScript truthiness: a missing end and an end
   * of 0 are both "not yet closed".
   */
  predicate IsOpen(p: PointRecord) {
    p.end.None? || p.end.value == 0
  }

  /** `startPoint`: open a new point at `now`. */
  function StartPoint(s: Store, now: int): (r: Store)
    ensures |r.points| == |s.points| + 1
    ensures r.points[..|s.points|] == s.points
    ensures r.points[|s.points|].start == now && r.points[|s.points|].end.None?
    ensures r.serves == s.serves && r.trajectories == s.trajectories
  {
    s.(points := s.points + [PointRecord(now, None)])
  }

  /**
   * `endPoint`: close the most recent point at `now` if it is still open;
   * otherwise (no points, or last one already closed) nothing changes.
   */
  function EndPoint(s: Store, now: int): (r: Store)
    ensures |r.points| == |s.points|
    ensures r.serves == s.serves && r.trajectories == s.trajectories
    ensures forall i :: 0 <= i < |s.points| - 1 ==> r.points[i] == s.points[i]
    ensures |s.points| == 0 ==> r == s
    ensures |s.points| > 0 && !IsOpen(s.points[|s.points| - 1]) ==> r == s
    ensures |s.points| > 0 && IsOpen(s.points[|s.points| - 1]) ==>
              r.points[|s.points| - 1] == PointRecord(s.points[|s.points| - 1].start, Some(now))
  {
    if |s.points| == 0 then s
    else
      var last := s.points[|s.points| - 1];
      if IsOpen(last) then s.(points := s.points[..|s.points| - 1] + [last.(end := Some(now))])
      else s
  }

  /** `recordServe`: log a serve of the given speed at `now`. */
  function RecordServe(s: Store, speed: int, now: int): (r: Store)
    ensures r.serves == s.serves + [ServeRecord(speed, now)]
    ensures r.points == s.points && r.trajectories == s.trajectories
  {
    s.(serves := s.serves + [ServeRecord(speed, now)])
  }

  /** `recordTrajectory`: log the given positions verbatim. */
  function RecordTrajectory(s: Store, positions: seq<Position>): (r: Store)
    ensures |r.trajectories| == |s.trajectories| + 1
    ensures r.trajectories[..|s.trajectories|] == s.trajectories
    ensures r.trajectories[|s.trajectories|].positions == positions
    ensures r.points == s.points && r.serves == s.serves
  {
    s.(trajectories := s.trajectories + [TrajectoryRecord(positions)])
  }

  /**
   * A second `endPoint` changes nothing, whatever the clock says then, as
   * long as the first one did not stamp the point with time 0 (which the
   * truthiness test would read as still open).
   */
  lemma EndPointIdempotent(s: Store, now: int, later: int)
    requires now != 0
    ensures EndPoint(EndPoint(s, now), later) == EndPoint(s, now)
  {
  }

  /** With an end of 0 the truthiness test reopens the point: the second call overwrites it. */
  lemma EndPointAtZeroIsOverwritten(s: Store, later: int)
    requires |s.points| > 0 && IsOpen(s.points[|s.points| - 1])
    requires later != 0
    ensures EndPoint(EndPoint(s, 0), later) != EndPoint(s, 0)
  {
    var r := EndPoint(EndPoint(s, 0), later);
    assert r.points[|s.points| - 1].end == Some(later);
  }

  /** `endPoint` only ever closes the newest record: an older open point stays open. */
  lemma EndPointNeverClosesEarlier(s: Store, t1: int, t2: int, t3: int)
    ensures var r := EndPoint(StartPoint(StartPoint(s, t1), t2), t3);
            && |r.points| == |s.points| + 2
            && r.points[|s.points|] == PointRecord(t1, None)
            && r.points[|s.points| + 1] == PointRecord(t2, Some(t3))
  {
  }

  /** `startPoint` then `endPoint` yields exactly one new record, closed at the later time. */
  lemma StartThenEndClosesNewPoint(s: Store, t1: int, t2: int)
    requires t1 < t2
    ensures var r := EndPoint(StartPoint(s, t1), t2);
            && |r.points| == |s.points| + 1
            && r.points[..|s.points|] == s.points
            && r.points[|s.points|].end.Some?
            && r.points[|s.points|].end.value > r.points[|s.points|].start
  {
  }
}
