/**
 * The route tracker of `route_manager.py`: installing a route, matching the
 * GPS position to the nearest step, the distance left to the current step,
 * the distance to the route polyline, deviation thresholds, and the guarded
 * recalculation that turns a directions-provider reply back into the route
 * message format.
 *
 * Time is a `now` parameter, the haversine distance is the `Metric` the
 * manager is built with, and the HTTP exchange is a `ProviderOutcome` input.
 */
module Routes {
  import opened Options
  import opened Text
  import opened Geo
  import Gps

  // ---------------------------------------------------------------------------
  // Route messages and steps
  // ---------------------------------------------------------------------------

  /** A step's `maneuver`: type, modifier and the optional `bearing`. */
  datatype Maneuver = Maneuver(kind: string, modifier: string, bearing: Option<real>)

  /** A step's `coordinates`: the optional `start`/`end` anchors and the step's own polyline, as (lat, lng). */
  datatype StepCoordinates = StepCoordinates(start: Option<Point>, end: Option<Point>, geometry: seq<Point>)

  /** One entry of a route message's `steps` list. */
  datatype StepData = StepData(
    instruction: string, distance: real, duration: real, maneuver: Maneuver, icon: string,
    coordinates: StepCoordinates)

  /** `RouteStep`: a step as the tracker stores it. */
  datatype RouteStep = RouteStep(
    index: nat, instruction: string, distance: real, duration: int, maneuver: Maneuver, icon: string,
    coordinates: StepCoordinates, bearing: Option<real>)

  /** The `old_route` reference a recalculated route carries. */
  datatype OldRoute = OldRoute(origin: Option<string>, destination: Option<string>)

  /** A route message (`type`, `destCoords`, `routeGeometry`, `steps`, ...). */
  datatype RouteData = RouteData(
    kind: string, origin: Option<string>, originCoords: Option<Point>, destination: Option<string>,
    destCoords: Option<Point>, totalDistance: real, totalDuration: real, routeGeometry: seq<Point>,
    steps: seq<StepData>, recalculated: bool, oldRoute: Option<OldRoute>)

  /** `RouteDeviation`. */
  datatype RouteDeviation = RouteDeviation(
    distance: real, thresholdWarning: real, thresholdRecalculate: real, isDeviated: bool, timestamp: real)

  /** The manager's `stats` dictionary. */
  datatype RouteStats = RouteStats(
    stepUpdates: nat, deviationChecks: nat, warnings: nat, recalculateRequests: nat,
    recalculateSuccess: nat, recalculateFailed: nat, lastUpdate: Option<real>)

  /** What `update_position` returns; `recalculateNeeded` is false where the key is absent. */
  datatype UpdateResult = UpdateResult(
    stepUpdated: bool, currentStep: Option<RouteStep>, deviation: Option<RouteDeviation>,
    remainingDistance: Option<real>, recalculateNeeded: bool, deviationDistance: Option<real>)

  /** The `route_manager` and `mapbox` settings the manager reads. */
  datatype RouteConfig = RouteConfig(
    stepUpdateInterval: real, deviationThresholdWarning: real, deviationThresholdRecalculate: real,
    mapboxEnabled: bool, mapboxAccessToken: Option<string>)

  /** The defaults used when the configuration leaves a setting out. */
  const DefaultRouteConfig: RouteConfig := RouteConfig(5.0, 50.0, 100.0, true, None)

  /** The settings as `__init__` reads them with `.get(key, default)`: a given setting is kept, a missing one defaults. */
  function ReadRouteConfig(
    stepInterval: Option<real>, warning: Option<real>, recalc: Option<real>, enabled: Option<bool>,
    token: Option<string>): (c: RouteConfig)
    ensures stepInterval.Some? ==> c.stepUpdateInterval == stepInterval.value
    ensures warning.Some? ==> c.deviationThresholdWarning == warning.value
    ensures recalc.Some? ==> c.deviationThresholdRecalculate == recalc.value
    ensures enabled.Some? ==> c.mapboxEnabled == enabled.value
    ensures c.mapboxAccessToken == token
    ensures stepInterval.None? && warning.None? && recalc.None? && enabled.None? && token.None?
            ==> c == DefaultRouteConfig
  {
    RouteConfig(stepInterval.GetOr(DefaultRouteConfig.stepUpdateInterval),
                warning.GetOr(DefaultRouteConfig.deviationThresholdWarning),
                recalc.GetOr(DefaultRouteConfig.deviationThresholdRecalculate),
                enabled.GetOr(DefaultRouteConfig.mapboxEnabled), token)
  }

  /** The step-tracking fields of the manager: index, step, time of the last step change, counters. */
  datatype StepState = StepState(index: int, step: Option<RouteStep>, since: real, stats: RouteStats)

  /** Seconds between two recalculations. */
  const RecalculateCooldown: real := 30.0

  // ---------------------------------------------------------------------------
  // Python's int() and round() on floats
  // ---------------------------------------------------------------------------

  /** `int(x)` for a float: truncation toward zero. */
  function TruncToInt(x: real): (r: int)
    ensures x >= 0.0 ==> r as real <= x < r as real + 1.0
    ensures x < 0.0 ==> r as real - 1.0 < x <= r as real
  {
    if x >= 0.0 then x.Floor else -((-x).Floor)
  }

  /** `round(x)`: the nearest integer, halves going to the even neighbour. */
  function RoundHalfEven(x: real): (r: int)
    ensures x - 0.5 <= r as real <= x + 0.5
    ensures (r as real == x - 0.5 || r as real == x + 0.5) ==> r % 2 == 0
  {
    var f := x.Floor;
    var fraction := x - f as real;
    if fraction < 0.5 then f
    else if fraction > 0.5 then f + 1
    else if f % 2 == 0 then f else f + 1
  }

  /** The two conditions of `RoundHalfEven` pin its value down. */
  lemma RoundHalfEvenUnique(x: real, n: int)
    requires x - 0.5 <= n as real <= x + 0.5
    requires (n as real == x - 0.5 || n as real == x + 0.5) ==> n % 2 == 0
    ensures n == RoundHalfEven(x)
  {
  }

  // ---------------------------------------------------------------------------
  // set_route
  // ---------------------------------------------------------------------------

  /** The `RouteStep` built for entry `index` of a route message. */
  function MakeStep(index: nat, data: StepData): (r: RouteStep)
    ensures r.index == index && r.coordinates == data.coordinates && r.bearing == data.maneuver.bearing
  {
    RouteStep(index, data.instruction, data.distance, TruncToInt(data.duration), data.maneuver, data.icon,
              data.coordinates, data.maneuver.bearing)
  }

  // ---------------------------------------------------------------------------
  // Step anchors
  // ---------------------------------------------------------------------------

  /** A `start` or `end` anchor is taken only when its latitude is truthy (present and non-zero). */
  predicate LatitudeSet(a: Option<Point>) {
    a.Some? && a.value.lat != 0.0
  }

  /** The final check of both anchor searches: neither coordinate may be zero. */
  predicate Usable(p: Point) {
    p.lat != 0.0 && p.lng != 0.0
  }

  /**
   * The anchor `calculate_current_step` measures a step from: `start`, else
   * `end`, else the first geometry point; rejected when either coordinate is 0.
   */
  function MatchingAnchor(c: StepCoordinates): (r: Option<Point>)
    ensures r.Some? ==> Usable(r.value)
    ensures LatitudeSet(c.start) ==> r == if Usable(c.start.value) then c.start else None
    ensures !LatitudeSet(c.start) && LatitudeSet(c.end) ==> r == if Usable(c.end.value) then c.end else None
    ensures !LatitudeSet(c.start) && !LatitudeSet(c.end) ==>
              r == if c.geometry != [] && Usable(c.geometry[0]) then Some(c.geometry[0]) else None
  {
    var anchor :=
      if LatitudeSet(c.start) then c.start
      else if LatitudeSet(c.end) then c.end
      else if c.geometry != [] then Some(c.geometry[0])
      else None;
    if anchor.Some? && Usable(anchor.value) then anchor else None
  }

  /**
   * The anchor `calculate_remaining_distance` measures to: `end`, else the
   * last geometry point, else `start`; rejected when either coordinate is 0.
   */
  function RemainingAnchor(c: StepCoordinates): (r: Option<Point>)
    ensures r.Some? ==> Usable(r.value)
    ensures LatitudeSet(c.end) ==> r == if Usable(c.end.value) then c.end else None
    ensures !LatitudeSet(c.end) && c.geometry != [] && c.geometry[|c.geometry| - 1].lat != 0.0 ==>
              r == var last := c.geometry[|c.geometry| - 1]; if Usable(last) then Some(last) else None
    ensures !LatitudeSet(c.end) && (c.geometry == [] || c.geometry[|c.geometry| - 1].lat == 0.0) ==>
              r == if LatitudeSet(c.start) && Usable(c.start.value) then c.start else None
  {
    var anchor :=
      if LatitudeSet(c.end) then c.end
      else if c.geometry != [] && c.geometry[|c.geometry| - 1].lat != 0.0 then Some(c.geometry[|c.geometry| - 1])
      else if LatitudeSet(c.start) then c.start
      else None;
    if anchor.Some? && Usable(anchor.value) then anchor else None
  }

  // ---------------------------------------------------------------------------
  // Nearest-step matching
  // ---------------------------------------------------------------------------

  /** The angle between course and bearing, folded once at 180 degrees. */
  function BearingDifference(course: real, bearing: real): real {
    var diff := if course >= bearing then course - bearing else bearing - course;
    if diff > 180.0 then 360.0 - diff else diff
  }

  /** For headings in [0, 360] the folded difference is an angle in [0, 180], symmetric in its arguments. */
  lemma BearingDifferenceRange(course: real, bearing: real)
    requires 0.0 <= course <= 360.0 && 0.0 <= bearing <= 360.0
    ensures 0.0 <= BearingDifference(course, bearing) <= 180.0
    ensures BearingDifference(course, bearing) == BearingDifference(bearing, course)
  {
  }

  /** Whether the step points away from the direction of travel: course and bearing both truthy and more than 90 degrees apart. */
  predicate Misaligned(course: real, bearing: Option<real>) {
    course != 0.0 && bearing.Some? && bearing.value != 0.0 && BearingDifference(course, bearing.value) > 90.0
  }

  /** A misaligned step's distance counts one and a half times. */
  function Penalized(course: real, bearing: Option<real>, distance: real): (r: real)
    requires distance >= 0.0
    ensures distance <= r <= 1.5 * distance
    ensures r > distance ==> Misaligned(course, bearing)
    ensures Misaligned(course, bearing) ==> r == 1.5 * distance
  {
    if Misaligned(course, bearing) then 1.5 * distance else distance
  }

  /** How far a step is from `here` for matching, or `None` when it has no usable anchor. */
  function StepCost(step: RouteStep, here: Point, course: real, d: Metric): (r: Option<real>)
    ensures r.Some? <==> MatchingAnchor(step.coordinates).Some?
    ensures r.Some? ==> var base := d(here, MatchingAnchor(step.coordinates).value);
                        base <= r.value <= 1.5 * base
  {
    match MatchingAnchor(step.coordinates)
    case Some(anchor) => Some(Penalized(course, step.bearing, d(here, anchor)))
    case None => None
  }

  /**
   * Step `i` is the one the matching loop ends on among the first `n`: it has
   * the least cost, and every earlier step with an anchor costs strictly more.
   */
  predicate BestAmong(steps: seq<RouteStep>, here: Point, course: real, d: Metric, n: nat, i: nat)
    requires n <= |steps|
  {
    i < n && StepCost(steps[i], here, course, d).Some?
    && forall j :: 0 <= j < n && StepCost(steps[j], here, course, d).Some? ==>
         StepCost(steps[i], here, course, d).value <= StepCost(steps[j], here, course, d).value
         && (j < i ==> StepCost(steps[i], here, course, d).value < StepCost(steps[j], here, course, d).value)
  }

  /** The matching loop over the first `n` steps: a later step replaces the best so far only when strictly closer. */
  function ClosestAmong(steps: seq<RouteStep>, here: Point, course: real, d: Metric, n: nat): (r: Option<nat>)
    requires n <= |steps|
    ensures r.Some? ==> r.value < n && StepCost(steps[r.value], here, course, d).Some?
  {
    if n == 0 then None
    else
      var best := ClosestAmong(steps, here, course, d, n - 1);
      match StepCost(steps[n - 1], here, course, d)
      case None => best
      case Some(c) =>
        if best.None? || c < StepCost(steps[best.value], here, course, d).value then Some(n - 1) else best
  }

  function Closest(steps: seq<RouteStep>, here: Point, course: real, d: Metric): Option<nat> {
    ClosestAmong(steps, here, course, d, |steps|)
  }

  /** The loop finds nothing exactly when no step has an anchor, and otherwise the lowest-index step of least cost. */
  lemma {:induction false} ClosestAmongIsBest(steps: seq<RouteStep>, here: Point, course: real, d: Metric, n: nat)
    requires n <= |steps|
    ensures var r := ClosestAmong(steps, here, course, d, n);
            (r.None? <==> forall j :: 0 <= j < n ==> StepCost(steps[j], here, course, d).None?)
            && (r.Some? ==> BestAmong(steps, here, course, d, n, r.value))
  {
    if n > 0 {
      ClosestAmongIsBest(steps, here, course, d, n - 1);
    }
  }

  /** At most one step is best: the tie-break makes the choice unique. */
  lemma BestIsUnique(steps: seq<RouteStep>, here: Point, course: real, d: Metric, n: nat, i: nat, k: nat)
    requires n <= |steps|
    requires BestAmong(steps, here, course, d, n, i) && BestAmong(steps, here, course, d, n, k)
    ensures i == k
  {
  }

  /** The `closest_*` loop of `calculate_current_step`. */
  method FindClosestStep(steps: seq<RouteStep>, here: Point, course: real, d: Metric) returns (found: Option<nat>)
    ensures found == Closest(steps, here, course, d)
    ensures found.None? <==> forall j :: 0 <= j < |steps| ==> StepCost(steps[j], here, course, d).None?
    ensures found.Some? ==> BestAmong(steps, here, course, d, |steps|, found.value)
  {
    found := None;
    var closestDistance := 0.0;  // stands for infinity while nothing is found
    var index := 0;
    while index < |steps|
      invariant 0 <= index <= |steps|
      invariant found == ClosestAmong(steps, here, course, d, index)
      invariant found.Some? ==> closestDistance == StepCost(steps[found.value], here, course, d).value
    {
      var cost := StepCost(steps[index], here, course, d);
      if cost.Some? && (found.None? || cost.value < closestDistance) {
        found := Some(index);
        closestDistance := cost.value;
      }
      index := index + 1;
    }
    ClosestAmongIsBest(steps, here, course, d, |steps|);
  }

  // ---------------------------------------------------------------------------
  // Distance to the route polyline
  // ---------------------------------------------------------------------------

  /** `seg_length_deg ** 2`: the squared length of the segment in degrees. */
  function SquaredLength(a: Point, b: Point): real {
    (b.lat - a.lat) * (b.lat - a.lat) + (b.lng - a.lng) * (b.lng - a.lng)
  }

  /** The projection parameter `t` of `p` onto `a`-`b`, clamped with `max(0, min(1, t))`. */
  function ClampedParameter(p: Point, a: Point, b: Point): (t: real)
    requires SquaredLength(a, b) != 0.0
    ensures 0.0 <= t <= 1.0
    ensures var dot := (p.lat - a.lat) * (b.lat - a.lat) + (p.lng - a.lng) * (b.lng - a.lng);
            (dot <= 0.0 ==> t == 0.0) && (dot >= SquaredLength(a, b) ==> t == 1.0)
  {
    var dot := (p.lat - a.lat) * (b.lat - a.lat) + (p.lng - a.lng) * (b.lng - a.lng);
    var raw := dot / SquaredLength(a, b);
    DivisionBounds(dot, SquaredLength(a, b));
    var upper := if raw < 1.0 then raw else 1.0;
    if upper > 0.0 then upper else 0.0
  }

  lemma DivisionBounds(x: real, y: real)
    requires y > 0.0 || y < 0.0
    ensures y > 0.0 && x <= 0.0 ==> x / y <= 0.0
    ensures y > 0.0 && x >= y ==> x / y >= 1.0
  {
  }

  /** Where on `a`-`b` `_point_to_segment_distance` measures to: the midpoint of a segment under 10 m, `a` for a degenerate one, else the clamped projection. */
  function NearestParameter(p: Point, a: Point, b: Point, d: Metric): (t: real)
    ensures 0.0 <= t <= 1.0
    ensures d(a, b) < 10.0 ==> t == 0.5
    ensures d(a, b) >= 10.0 && SquaredLength(a, b) == 0.0 ==> t == 0.0
    ensures d(a, b) >= 10.0 && SquaredLength(a, b) != 0.0 ==> t == ClampedParameter(p, a, b)
  {
    if d(a, b) < 10.0 then 0.5
    else if SquaredLength(a, b) == 0.0 then 0.0
    else ClampedParameter(p, a, b)
  }

  /** `_point_to_segment_distance`: the distance from `p` to a point of the segment `a`-`b`. */
  function PointToSegmentDistance(p: Point, a: Point, b: Point, d: Metric): (r: real)
    ensures r >= 0.0
    ensures r == d(p, Lerp(a, b, NearestParameter(p, a, b, d)))
  {
    if d(a, b) < 10.0 then
      assert Point((a.lat + b.lat) / 2.0, (a.lng + b.lng) / 2.0) == Lerp(a, b, 0.5);
      d(p, Point((a.lat + b.lat) / 2.0, (a.lng + b.lng) / 2.0))
    else if SquaredLength(a, b) == 0.0 then
      assert Lerp(a, b, 0.0) == a;
      d(p, a)
    else
      d(p, Lerp(a, b, ClampedParameter(p, a, b)))
  }

  /** A point lying behind the start of a segment of 10 m or more is measured to the start. */
  lemma ClampsToStart(p: Point, a: Point, b: Point, d: Metric)
    requires d(a, b) >= 10.0 && SquaredLength(a, b) != 0.0
    requires (p.lat - a.lat) * (b.lat - a.lat) + (p.lng - a.lng) * (b.lng - a.lng) <= 0.0
    ensures PointToSegmentDistance(p, a, b, d) == d(p, a)
  {
    assert Lerp(a, b, 0.0) == a;
  }

  /** A point lying beyond the end of a segment of 10 m or more is measured to the end. */
  lemma ClampsToEnd(p: Point, a: Point, b: Point, d: Metric)
    requires d(a, b) >= 10.0 && SquaredLength(a, b) != 0.0
    requires (p.lat - a.lat) * (b.lat - a.lat) + (p.lng - a.lng) * (b.lng - a.lng) >= SquaredLength(a, b)
    ensures PointToSegmentDistance(p, a, b, d) == d(p, b)
  {
    assert Lerp(a, b, 1.0) == b;
  }

  function SegmentDistance(geometry: seq<Point>, here: Point, d: Metric, i: nat): real
    requires i + 1 < |geometry|
  {
    PointToSegmentDistance(here, geometry[i], geometry[i + 1], d)
  }

  /** The least distance to the first `n` segments of the polyline. */
  function SegmentsMin(geometry: seq<Point>, here: Point, d: Metric, n: nat): (r: real)
    requires 1 <= n < |geometry|
    ensures r >= 0.0
    ensures forall i :: 0 <= i < n ==> r <= SegmentDistance(geometry, here, d, i)
    ensures exists i :: 0 <= i < n && r == SegmentDistance(geometry, here, d, i)
  {
    if n == 1 then SegmentDistance(geometry, here, d, 0)
    else
      var best := SegmentsMin(geometry, here, d, n - 1);
      var last := SegmentDistance(geometry, here, d, n - 1);
      if last < best then last else best
  }

  /** `calculate_route_distance`'s value: 0.0 for fewer than 2 points or an invalid fix, else the least segment distance. */
  function RouteDistance(geometry: seq<Point>, here: Point, valid: bool, d: Metric): (r: real)
    ensures r >= 0.0
    ensures |geometry| < 2 || !valid ==> r == 0.0
    ensures |geometry| >= 2 && valid ==>
              (forall i :: 0 <= i < |geometry| - 1 ==> r <= SegmentDistance(geometry, here, d, i))
              && exists i :: 0 <= i < |geometry| - 1 && r == SegmentDistance(geometry, here, d, i)
  {
    if |geometry| < 2 || !valid then 0.0 else SegmentsMin(geometry, here, d, |geometry| - 1)
  }

  /** The `min_distance` loop of `calculate_route_distance`. */
  method MinSegmentDistance(geometry: seq<Point>, here: Point, d: Metric) returns (m: real)
    requires |geometry| >= 2
    ensures m == SegmentsMin(geometry, here, d, |geometry| - 1)
    ensures forall i :: 0 <= i < |geometry| - 1 ==> m <= SegmentDistance(geometry, here, d, i)
  {
    m := SegmentDistance(geometry, here, d, 0);
    var i := 1;
    while i < |geometry| - 1
      invariant 1 <= i <= |geometry| - 1
      invariant m == SegmentsMin(geometry, here, d, i)
    {
      var segment := SegmentDistance(geometry, here, d, i);
      if segment < m {
        m := segment;
      }
      i := i + 1;
    }
  }

  // ---------------------------------------------------------------------------
  // Deviation bookkeeping
  // ---------------------------------------------------------------------------

  /** `deviation_checks += 1` when `calculate_route_distance` gets past its guards. */
  function CountCheck(stats: RouteStats, counted: bool): (r: RouteStats)
    ensures r.deviationChecks == stats.deviationChecks + (if counted then 1 else 0)
    ensures r == stats.(deviationChecks := r.deviationChecks)
  {
    if counted then stats.(deviationChecks := stats.deviationChecks + 1) else stats
  }

  /** Whether a reading starts a new excursion: deviated, after no deviation or one below the warning threshold. */
  predicate NewExcursion(previous: Option<RouteDeviation>, distance: real, warning: real) {
    distance > warning && (previous.None? || previous.value.distance < warning)
  }

  /** The counters `check_deviation` advances: a warning per new excursion, a request per deviated reading above the recalculation threshold. */
  function Assess(stats: RouteStats, previous: Option<RouteDeviation>, distance: real, warning: real, recalc: real)
    : (r: RouteStats)
    ensures r.warnings == stats.warnings + (if NewExcursion(previous, distance, warning) then 1 else 0)
    ensures r.recalculateRequests == stats.recalculateRequests + (if distance > warning && distance > recalc then 1 else 0)
    ensures r == stats.(warnings := r.warnings, recalculateRequests := r.recalculateRequests)
  {
    var warnings := if NewExcursion(previous, distance, warning) then stats.warnings + 1 else stats.warnings;
    var requests := if distance > warning && distance > recalc then stats.recalculateRequests + 1
                    else stats.recalculateRequests;
    stats.(warnings := warnings, recalculateRequests := requests)
  }

  /** Along one excursion only its first reading is warned about, however long it lasts. */
  lemma {:induction false} OneWarningPerExcursion(
    stats: RouteStats, distances: seq<real>, warning: real, recalc: real, now: real)
    requires warning >= 0.0
    requires |distances| >= 1 && forall i :: 0 <= i < |distances| ==> distances[i] > warning
    ensures Excursion(stats, None, distances, warning, recalc, now).warnings == stats.warnings + 1
  {
    var first := Assess(stats, None, distances[0], warning, recalc);
    var dev := RouteDeviation(distances[0], warning, recalc, true, now);
    StaysWarned(first, dev, distances[1..], warning, recalc, now);
  }

  /**
   * `check_deviation` applied to a run of readings it records, from the deviation
   * `previous`. It records only distances other than 0.0; the lemmas below take
   * readings above a non-negative warning threshold, which are never 0.0.
   */
  function Excursion(
    stats: RouteStats, previous: Option<RouteDeviation>, distances: seq<real>, warning: real, recalc: real, now: real)
    : RouteStats
    decreases |distances|
  {
    if distances == [] then stats
    else
      Excursion(Assess(stats, previous, distances[0], warning, recalc),
                Some(RouteDeviation(distances[0], warning, recalc, distances[0] > warning, now)),
                distances[1..], warning, recalc, now)
  }

  lemma {:induction false} StaysWarned(
    stats: RouteStats, previous: RouteDeviation, distances: seq<real>, warning: real, recalc: real, now: real)
    requires warning >= 0.0 && previous.distance > warning
    requires forall i :: 0 <= i < |distances| ==> distances[i] > warning
    ensures Excursion(stats, Some(previous), distances, warning, recalc, now).warnings == stats.warnings
    decreases |distances|
  {
    if distances != [] {
      var next := Assess(stats, Some(previous), distances[0], warning, recalc);
      var dev := RouteDeviation(distances[0], warning, recalc, true, now);
      StaysWarned(next, dev, distances[1..], warning, recalc, now);
    }
  }

  // ---------------------------------------------------------------------------
  // Directions-provider replies and their conversion
  // ---------------------------------------------------------------------------

  /** A provider coordinate pair, `[lon, lat]`. */
  datatype LonLat = LonLat(lon: real, lat: real)

  datatype ProviderManeuver = ProviderManeuver(
    location: Option<LonLat>, instruction: string, kind: string, modifier: string, bearingAfter: Option<real>)

  datatype ProviderStep = ProviderStep(geometry: seq<LonLat>, maneuver: ProviderManeuver, distance: real, duration: real)

  datatype ProviderLeg = ProviderLeg(steps: seq<ProviderStep>)

  datatype ProviderRoute = ProviderRoute(legs: seq<ProviderLeg>, geometry: seq<LonLat>, distance: real, duration: real)

  datatype DirectionsResponse = DirectionsResponse(routes: seq<ProviderRoute>)

  /** What the HTTP exchange gave: one of the caught exceptions, or a reply with its status code and decoded body. */
  datatype ProviderOutcome =
    | HttpFailure(status: int)
    | ConnectionFailure
    | JsonFailure
    | OtherFailure
    | Reply(code: int, body: DirectionsResponse)

  /** `[lon, lat]` becomes `lat`/`lng`. */
  function ToPoint(c: LonLat): (p: Point)
    ensures p.lat == c.lat && p.lng == c.lon
  {
    Point(c.lat, c.lon)
  }

  function ToPoints(cs: seq<LonLat>): (ps: seq<Point>)
    ensures |ps| == |cs| && forall k :: 0 <= k < |cs| ==> ps[k] == ToPoint(cs[k])
  {
    seq(|cs|, k requires 0 <= k < |cs| => ToPoint(cs[k]))
  }

  function LocationPoint(c: Option<LonLat>): Option<Point> {
    match c
    case Some(v) => Some(ToPoint(v))
    case None => None
  }

  /** The start of step `i`: its first geometry point, else its own maneuver location. */
  function StepStart(steps: seq<ProviderStep>, i: nat): Option<LonLat>
    requires i < |steps|
  {
    if steps[i].geometry != [] then Some(steps[i].geometry[0]) else steps[i].maneuver.location
  }

  /** The end of step `i`: its last geometry point, else the next step's maneuver location, else (for the last step) its own. */
  function StepEnd(steps: seq<ProviderStep>, i: nat): Option<LonLat>
    requires i < |steps|
  {
    if steps[i].geometry != [] then Some(steps[i].geometry[|steps[i].geometry| - 1])
    else if i < |steps| - 1 then steps[i + 1].maneuver.location
    else steps[i].maneuver.location
  }

  /** The route-message entry built for provider step `i`. */
  function ConvertStep(steps: seq<ProviderStep>, i: nat): (r: StepData)
    requires i < |steps|
    ensures r.coordinates.start == LocationPoint(StepStart(steps, i))
    ensures r.coordinates.end == LocationPoint(StepEnd(steps, i))
    ensures r.coordinates.geometry == ToPoints(steps[i].geometry)
    ensures r.icon == [] && r.maneuver.bearing == steps[i].maneuver.bearingAfter
  {
    var m := steps[i].maneuver;
    StepData(m.instruction, RoundHalfEven(steps[i].distance) as real, RoundHalfEven(steps[i].duration / 60.0) as real,
             Maneuver(m.kind, m.modifier, m.bearingAfter), [],
             StepCoordinates(LocationPoint(StepStart(steps, i)), LocationPoint(StepEnd(steps, i)),
                             ToPoints(steps[i].geometry)))
  }

  /** Every provider step converted, in order. */
  function ConvertedSteps(steps: seq<ProviderStep>): (r: seq<StepData>)
    ensures |r| == |steps| && forall i :: 0 <= i < |steps| ==> r[i] == ConvertStep(steps, i)
  {
    seq(|steps|, i requires 0 <= i < |steps| => ConvertStep(steps, i))
  }

  /** The `steps_with_coords` loop of `recalculate_route`. */
  method ConvertSteps(steps: seq<ProviderStep>) returns (converted: seq<StepData>)
    ensures |converted| == |steps|
    ensures forall i :: 0 <= i < |steps| ==> converted[i] == ConvertStep(steps, i)
    ensures converted == ConvertedSteps(steps)
  {
    converted := [];
    var index := 0;
    while index < |steps|
      invariant 0 <= index <= |steps|
      invariant |converted| == index
      invariant forall i :: 0 <= i < index ==> converted[i] == ConvertStep(steps, i)
    {
      converted := converted + [ConvertStep(steps, index)];
      index := index + 1;
    }
  }

  /**
   * A converted step with a polyline is tracked at its ends: matching measures
   * from its first point and the remaining distance runs to its last, once
   * both have non-zero coordinates.
   */
  lemma ConvertedStepAnchors(steps: seq<ProviderStep>, i: nat)
    requires i < |steps| && steps[i].geometry != []
    requires Usable(ToPoint(steps[i].geometry[0]))
    requires Usable(ToPoint(steps[i].geometry[|steps[i].geometry| - 1]))
    ensures MatchingAnchor(ConvertStep(steps, i).coordinates) == Some(ToPoint(steps[i].geometry[0]))
    ensures RemainingAnchor(ConvertStep(steps, i).coordinates)
         == Some(ToPoint(steps[i].geometry[|steps[i].geometry| - 1]))
  {
  }

  /** The route of a reply, when the reply passes the status, `routes` and `legs` checks. */
  function ReplyRoute(outcome: ProviderOutcome): (r: Option<ProviderRoute>)
    ensures r.Some? <==> outcome.Reply? && outcome.code == 200 && outcome.body.routes != []
                         && outcome.body.routes[0].legs != []
    ensures r.Some? ==> r.value == outcome.body.routes[0] && r.value.legs != []
  {
    match outcome
    case Reply(code, body) =>
      if code != 200 || body.routes == [] || body.routes[0].legs == [] then None else Some(body.routes[0])
    case _ => None
  }

  /** `self.destination_address or 'Destinazione'`. */
  function DestinationLabel(destination: Option<string>): string {
    if destination.None? || destination.value == [] then "Destinazione" else destination.value
  }

  /** The `new_route` message built from a reply whose route is `route`. */
  function RecalculatedRoute(
    here: Point, destination: Option<string>, destCoords: Option<Point>, current: Option<RouteData>,
    route: ProviderRoute, steps: seq<StepData>): (r: RouteData)
    ensures r.kind == "route" && r.recalculated
    ensures r.steps == steps && r.routeGeometry == ToPoints(route.geometry)
    ensures r.originCoords == Some(here) && r.destCoords == destCoords
    ensures r.oldRoute.Some? <==> current.Some?
  {
    RouteData("route", None, Some(here), Some(DestinationLabel(destination)), destCoords,
              RoundHalfEven(route.distance) as real, RoundHalfEven(route.duration) as real,
              ToPoints(route.geometry), steps, true,
              if current.Some? then Some(OldRoute(current.value.origin, destination)) else None)
  }

  function PositionPoint(pos: Gps.GpsPosition): Point {
    Point(pos.latitude, pos.longitude)
  }

  // ---------------------------------------------------------------------------
  // The manager object
  // ---------------------------------------------------------------------------

  class RouteManager {
    var currentRoute: Option<RouteData>
    var routeSteps: seq<RouteStep>
    var routeGeometry: seq<Point>
    var destinationCoords: Option<Point>
    var destinationAddress: Option<string>
    var currentStepIndex: int
    var currentStep: Option<RouteStep>
    var lastStepUpdateTime: real
    var deviation: Option<RouteDeviation>
    var recalculating: bool
    var lastRecalculateTime: real
    var stats: RouteStats
    /** The routes handed to `on_route_recalculated`. */
    var announced: seq<RouteData>

    const stepUpdateInterval: real
    const deviationThresholdWarning: real
    const deviationThresholdRecalculate: real
    const mapboxEnabled: bool
    const mapboxAccessToken: Option<string>
    const recalculateCooldown: real
    /** Whether an `on_route_recalculated` callback is registered. */
    const notifyRecalculated: bool
    /** `calculate_distance`. */
    const dist: Metric

    /** The current step is none (index -1) or step `currentStepIndex` of the route; steps are numbered in order. */
    predicate Valid()
      reads this`routeSteps, this`currentStepIndex, this`currentStep
    {
      (forall k :: 0 <= k < |routeSteps| ==> routeSteps[k].index == k)
      && ((currentStepIndex == -1 && currentStep.None?)
          || (0 <= currentStepIndex < |routeSteps| && currentStep == Some(routeSteps[currentStepIndex])))
    }

    constructor (config: RouteConfig, dist: Metric, notifyRecalculated: bool)
      ensures Valid()
      ensures currentRoute.None? && routeSteps == [] && routeGeometry == [] && destinationCoords.None?
      ensures destinationAddress.None?
      ensures currentStepIndex == -1 && currentStep.None? && lastStepUpdateTime == 0.0 && deviation.None?
      ensures !recalculating && lastRecalculateTime == 0.0 && recalculateCooldown == RecalculateCooldown
      ensures stats == RouteStats(0, 0, 0, 0, 0, 0, None) && announced == []
      ensures stepUpdateInterval == config.stepUpdateInterval
      ensures deviationThresholdWarning == config.deviationThresholdWarning
      ensures deviationThresholdRecalculate == config.deviationThresholdRecalculate
      ensures mapboxEnabled == config.mapboxEnabled && mapboxAccessToken == config.mapboxAccessToken
      ensures this.dist == dist && this.notifyRecalculated == notifyRecalculated
    {
      currentRoute := None;
      routeSteps := [];
      routeGeometry := [];
      destinationCoords := None;
      destinationAddress := None;
      currentStepIndex := -1;
      currentStep := None;
      lastStepUpdateTime := 0.0;
      stepUpdateInterval := config.stepUpdateInterval;
      deviationThresholdWarning := config.deviationThresholdWarning;
      deviationThresholdRecalculate := config.deviationThresholdRecalculate;
      deviation := None;
      mapboxEnabled := config.mapboxEnabled;
      mapboxAccessToken := config.mapboxAccessToken;
      recalculating := false;
      lastRecalculateTime := 0.0;
      recalculateCooldown := RecalculateCooldown;
      stats := RouteStats(0, 0, 0, 0, 0, 0, None);
      announced := [];
      this.dist := dist;
      this.notifyRecalculated := notifyRecalculated;
    }

    /** `set_route`: refused without data or with a `type` other than `route`; otherwise installs it and resets tracking. */
    method SetRoute(data: Option<RouteData>) returns (ok: bool)
      requires Valid()
      modifies this`currentRoute, this`routeSteps, this`routeGeometry, this`destinationCoords,
               this`destinationAddress, this`currentStepIndex, this`currentStep, this`deviation
      ensures Valid()
      ensures ok <==> data.Some? && data.value.kind == "route"
      ensures !ok ==> currentRoute == old(currentRoute) && routeSteps == old(routeSteps)
                      && routeGeometry == old(routeGeometry) && destinationCoords == old(destinationCoords)
                      && destinationAddress == old(destinationAddress) && currentStepIndex == old(currentStepIndex)
                      && currentStep == old(currentStep) && deviation == old(deviation)
      ensures ok ==> currentRoute == data && routeGeometry == data.value.routeGeometry
                     && destinationCoords == data.value.destCoords && destinationAddress == data.value.destination
                     && currentStepIndex == -1 && currentStep.None? && deviation.None?
      ensures ok ==> |routeSteps| == |data.value.steps|
                     && forall k :: 0 <= k < |routeSteps| ==> routeSteps[k] == MakeStep(k, data.value.steps[k])
    {
      if data.None? || data.value.kind != "route" {
        return false;
      }
      var route := data.value;
      routeSteps := [];
      currentStepIndex := -1;
      currentStep := None;
      var index := 0;
      while index < |route.steps|
        invariant 0 <= index <= |route.steps|
        invariant |routeSteps| == index
        invariant forall k :: 0 <= k < index ==> routeSteps[k] == MakeStep(k, route.steps[k])
        invariant currentStepIndex == -1 && currentStep.None?
      {
        routeSteps := routeSteps + [MakeStep(index, route.steps[index])];
        index := index + 1;
      }
      currentRoute := data;
      routeGeometry := route.routeGeometry;
      destinationCoords := route.destCoords;
      destinationAddress := route.destination;
      deviation := None;
      return true;
    }

    /** `clear_route`. */
    method ClearRoute()
      modifies this`currentRoute, this`routeSteps, this`routeGeometry, this`destinationCoords,
               this`destinationAddress, this`currentStepIndex, this`currentStep, this`deviation
      ensures Valid()
      ensures currentRoute.None? && routeSteps == [] && routeGeometry == [] && currentStepIndex == -1
      ensures currentStep.None? && deviation.None? && destinationCoords.None? && destinationAddress.None?
    {
      currentRoute := None;
      routeSteps := [];
      routeGeometry := [];
      currentStepIndex := -1;
      currentStep := None;
      deviation := None;
      destinationCoords := None;
      destinationAddress := None;
    }

    /** Whether `calculate_current_step` gets past its first guards: a route with steps and a valid fix. */
    predicate Tracking(pos: Gps.GpsPosition)
      reads this`currentRoute, this`routeSteps
    {
      currentRoute.Some? && routeSteps != [] && pos.isValid
    }

    /** Whether the current step is kept without looking for a closer one. */
    predicate Throttled(now: real)
      reads this`currentStep, this`lastStepUpdateTime
    {
      currentStep.Some? && now - lastStepUpdateTime < stepUpdateInterval
    }

    /** The step-tracking fields as one value. */
    function CurrentStepState(): StepState
      reads this`currentStepIndex, this`currentStep, this`lastStepUpdateTime, this`stats
    {
      StepState(currentStepIndex, currentStep, lastStepUpdateTime, stats)
    }

    /** The step-tracking fields `calculate_current_step` leaves behind, from the current ones. */
    function NextStepState(pos: Gps.GpsPosition, now: real): StepState
      reads this`currentRoute, this`routeSteps, this`routeGeometry, this`currentStepIndex, this`currentStep,
            this`lastStepUpdateTime, this`stats
    {
      if !Tracking(pos) || Throttled(now) then CurrentStepState()
      else
        var found := Closest(routeSteps, PositionPoint(pos), pos.course, dist);
        if found.Some? && found.value != currentStepIndex then
          StepState(found.value, Some(routeSteps[found.value]), now, stats.(stepUpdates := stats.stepUpdates + 1))
        else
          StepState(currentStepIndex, currentStep, lastStepUpdateTime,
                    CountCheck(stats, found.None? && |routeGeometry| >= 2))
    }

    /** `calculate_current_step`. */
    method CalculateCurrentStep(pos: Gps.GpsPosition, now: real) returns (r: Option<RouteStep>)
      requires Valid()
      modifies this`currentStepIndex, this`currentStep, this`lastStepUpdateTime, this`stats
      ensures Valid()
      ensures !Tracking(pos) ==> r.None?
      ensures Tracking(pos) ==> r == currentStep
      ensures !Tracking(pos) || old(Throttled(now)) ==>
                currentStepIndex == old(currentStepIndex) && currentStep == old(currentStep)
                && lastStepUpdateTime == old(lastStepUpdateTime) && stats == old(stats)
      ensures Tracking(pos) && !old(Throttled(now)) ==>
                var found := Closest(routeSteps, PositionPoint(pos), pos.course, dist);
                if found.Some? && found.value != old(currentStepIndex) then
                  currentStepIndex == found.value && currentStep == Some(routeSteps[found.value])
                  && lastStepUpdateTime == now && stats == old(stats).(stepUpdates := old(stats).stepUpdates + 1)
                else
                  currentStepIndex == old(currentStepIndex) && currentStep == old(currentStep)
                  && lastStepUpdateTime == old(lastStepUpdateTime)
                  && stats == CountCheck(old(stats), found.None? && |routeGeometry| >= 2)
      ensures CurrentStepState() == old(NextStepState(pos, now))
    {
      if currentRoute.None? || routeSteps == [] {
        return None;
      }
      if !pos.isValid {
        return None;
      }
      if currentStep.Some? && now - lastStepUpdateTime < stepUpdateInterval {
        return currentStep;
      }
      r := FollowClosest(pos, now);
    }

    /** The part of `calculate_current_step` past its guards: move to the closest step if it changed. */
    method FollowClosest(pos: Gps.GpsPosition, now: real) returns (r: Option<RouteStep>)
      requires Valid() && pos.isValid
      modifies this`currentStepIndex, this`currentStep, this`lastStepUpdateTime, this`stats
      ensures Valid() && r == currentStep
      ensures var found := Closest(routeSteps, PositionPoint(pos), pos.course, dist);
              if found.Some? && found.value != old(currentStepIndex) then
                currentStepIndex == found.value && currentStep == Some(routeSteps[found.value])
                && lastStepUpdateTime == now && stats == old(stats).(stepUpdates := old(stats).stepUpdates + 1)
              else
                currentStepIndex == old(currentStepIndex) && currentStep == old(currentStep)
                && lastStepUpdateTime == old(lastStepUpdateTime)
                && stats == CountCheck(old(stats), found.None? && |routeGeometry| >= 2)
    {
      var closest := FindClosestStep(routeSteps, PositionPoint(pos), pos.course, dist);
      if closest.Some? {
        if closest.value != currentStepIndex {
          currentStepIndex := closest.value;
          currentStep := Some(routeSteps[closest.value]);
          lastStepUpdateTime := now;
          stats := stats.(stepUpdates := stats.stepUpdates + 1);
        }
      } else if routeGeometry != [] {
        var _ := CalculateRouteDistance(pos);
      }
      return currentStep;
    }

    /** `calculate_remaining_distance`: the distance to the current step's arrival anchor. */
    function RemainingDistance(pos: Gps.GpsPosition): (r: Option<real>)
      reads this`currentStep
      ensures r.Some? <==> currentStep.Some? && pos.isValid && RemainingAnchor(currentStep.value.coordinates).Some?
      ensures r.Some? ==> r.value == dist(PositionPoint(pos), RemainingAnchor(currentStep.value.coordinates).value)
    {
      if currentStep.None? || !pos.isValid then None
      else match RemainingAnchor(currentStep.value.coordinates)
        case Some(anchor) => Some(dist(PositionPoint(pos), anchor))
        case None => None
    }

    /** `calculate_route_distance`. */
    method CalculateRouteDistance(pos: Gps.GpsPosition) returns (r: real)
      modifies this`stats
      ensures r == RouteDistance(routeGeometry, PositionPoint(pos), pos.isValid, dist)
      ensures stats == CountCheck(old(stats), |routeGeometry| >= 2 && pos.isValid)
    {
      if |routeGeometry| < 2 || !pos.isValid {
        return 0.0;
      }
      r := MinSegmentDistance(routeGeometry, PositionPoint(pos), dist);
      stats := stats.(deviationChecks := stats.deviationChecks + 1);
    }

    /** The deviation record for a distance: deviated exactly when above the warning threshold. */
    function DeviationAt(distance: real, now: real): (r: RouteDeviation)
      ensures r.isDeviated <==> distance > deviationThresholdWarning
      ensures r.distance == distance && r.timestamp == now
    {
      RouteDeviation(distance, deviationThresholdWarning, deviationThresholdRecalculate,
                     distance > deviationThresholdWarning, now)
    }

    /** The counters once `check_deviation` has run on `s`, after the deviation `previous`. */
    function DeviationStats(s: RouteStats, previous: Option<RouteDeviation>, pos: Gps.GpsPosition): (r: RouteStats)
      reads this`currentRoute, this`routeGeometry
      ensures r.stepUpdates == s.stepUpdates && r.lastUpdate == s.lastUpdate
    {
      if currentRoute.None? then s
      else
        var checked := CountCheck(s, |routeGeometry| >= 2 && pos.isValid);
        var distance := RouteDistance(routeGeometry, PositionPoint(pos), pos.isValid, dist);
        if distance == 0.0 then checked
        else Assess(checked, previous, distance, deviationThresholdWarning, deviationThresholdRecalculate)
    }

    /** `check_deviation`. */
    method CheckDeviation(pos: Gps.GpsPosition, now: real) returns (r: Option<RouteDeviation>)
      modifies this`deviation, this`stats
      ensures currentRoute.None? ==> r.None? && deviation == old(deviation) && stats == old(stats)
      ensures currentRoute.Some? ==>
                var distance := RouteDistance(routeGeometry, PositionPoint(pos), pos.isValid, dist);
                var checked := CountCheck(old(stats), |routeGeometry| >= 2 && pos.isValid);
                if distance == 0.0 then r.None? && deviation == old(deviation) && stats == checked
                else r == Some(DeviationAt(distance, now)) && deviation == r
                     && stats == Assess(checked, old(deviation), distance, deviationThresholdWarning,
                                        deviationThresholdRecalculate)
    {
      if currentRoute.None? {
        return None;
      }
      var distance := CalculateRouteDistance(pos);
      if distance == 0.0 {
        return None;
      }
      var current := DeviationAt(distance, now);
      var previous := deviation;
      deviation := Some(current);
      if current.isDeviated {
        if previous.None? || previous.value.distance < deviationThresholdWarning {
          stats := stats.(warnings := stats.warnings + 1);
        }
        if distance > deviationThresholdRecalculate {
          stats := stats.(recalculateRequests := stats.recalculateRequests + 1);
        }
      }
      return Some(current);
    }

    /** `update_position`. */
    method UpdatePosition(pos: Gps.GpsPosition, now: real) returns (result: UpdateResult)
      requires Valid()
      modifies this`currentStepIndex, this`currentStep, this`lastStepUpdateTime, this`stats, this`deviation
      ensures Valid()
      ensures result.currentStep == if Tracking(pos) then currentStep else None
      ensures result.stepUpdated <==> result.currentStep.Some? && currentStepIndex != old(currentStepIndex)
      ensures result.remainingDistance == if result.currentStep.Some? then RemainingDistance(pos) else None
      ensures result.deviation
           == if currentRoute.Some? && RouteDistance(routeGeometry, PositionPoint(pos), pos.isValid, dist) != 0.0
              then deviation else None
      ensures result.recalculateNeeded
          <==> result.deviation.Some? && result.deviation.value.distance > deviationThresholdRecalculate
      ensures result.deviationDistance == if result.recalculateNeeded then Some(result.deviation.value.distance) else None
      ensures result.recalculateNeeded
          <==> var distance := RouteDistance(routeGeometry, PositionPoint(pos), pos.isValid, dist);
               currentRoute.Some? && distance != 0.0 && distance > deviationThresholdRecalculate
      ensures var next := old(NextStepState(pos, now));
              currentStepIndex == next.index && currentStep == next.step && lastStepUpdateTime == next.since
      ensures var distance := RouteDistance(routeGeometry, PositionPoint(pos), pos.isValid, dist);
              deviation == if currentRoute.Some? && distance != 0.0 then Some(DeviationAt(distance, now))
                           else old(deviation)
      ensures stats == DeviationStats(old(NextStepState(pos, now)).stats, old(deviation), pos).(lastUpdate := Some(now))
    {
      ghost var next := NextStepState(pos, now);
      ghost var previous := deviation;
      var oldIndex := currentStepIndex;
      var step := CalculateCurrentStep(pos, now);
      var stepUpdated := false;
      var remaining := None;
      if step.Some? {
        stepUpdated := oldIndex != currentStepIndex;
        remaining := RemainingDistance(pos);
      }
      var found := CheckDeviation(pos, now);
      var needed := found.Some? && found.value.distance > found.value.thresholdRecalculate;
      result := UpdateResult(stepUpdated, step, found, remaining, needed,
                             if needed then Some(found.value.distance) else None);
      stats := stats.(lastUpdate := Some(now));
    }

    /** Every guard of `recalculate_route` before it marks itself busy. */
    predicate RecalculationAllowed(pos: Gps.GpsPosition, now: real)
      reads this`destinationCoords, this`recalculating, this`lastRecalculateTime
    {
      mapboxEnabled && mapboxAccessToken.Some? && Strip(mapboxAccessToken.value) != []
      && destinationCoords.Some? && pos.isValid && !recalculating
      && now - lastRecalculateTime >= recalculateCooldown
    }

    /** The route a successful reply yields: converted steps, `recalculated` set, never installed. */
    function Recalculation(pos: Gps.GpsPosition, route: ProviderRoute): (r: RouteData)
      requires route.legs != []
      reads this`destinationAddress, this`destinationCoords, this`currentRoute
      ensures r.kind == "route" && r.recalculated
      ensures r.steps == ConvertedSteps(route.legs[0].steps)
    {
      RecalculatedRoute(PositionPoint(pos), destinationAddress, destinationCoords, currentRoute, route,
                        ConvertedSteps(route.legs[0].steps))
    }

    /**
     * `recalculate_route`. Each guard returns `None` untouched; past them the
     * call is stamped with `now`, ends not busy, and counts one success or one
     * failure. The new route is returned (and announced), never installed:
     * steps, current step and current route stay as they were.
     */
    method RecalculateRoute(pos: Gps.GpsPosition, now: real, outcome: ProviderOutcome) returns (r: Option<RouteData>)
      modifies this`recalculating, this`lastRecalculateTime, this`stats, this`announced
      ensures !old(RecalculationAllowed(pos, now)) ==>
                r.None? && recalculating == old(recalculating) && lastRecalculateTime == old(lastRecalculateTime)
                && stats == old(stats) && announced == old(announced)
      ensures old(RecalculationAllowed(pos, now)) ==> !recalculating && lastRecalculateTime == now
      ensures old(RecalculationAllowed(pos, now)) && ReplyRoute(outcome).None? ==>
                r.None? && stats == old(stats).(recalculateFailed := old(stats).recalculateFailed + 1)
                && announced == old(announced)
      ensures old(RecalculationAllowed(pos, now)) && ReplyRoute(outcome).Some? ==>
                r == Some(Recalculation(pos, ReplyRoute(outcome).value))
                && stats == old(stats).(recalculateSuccess := old(stats).recalculateSuccess + 1)
                && announced == old(announced) + (if notifyRecalculated then [r.value] else [])
      ensures r.Some? ==> now - old(lastRecalculateTime) >= recalculateCooldown
      ensures routeSteps == old(routeSteps) && currentStep == old(currentStep) && currentRoute == old(currentRoute)
    {
      if !mapboxEnabled {
        return None;
      }
      if mapboxAccessToken.None? || Strip(mapboxAccessToken.value) == [] {
        return None;
      }
      if destinationCoords.None? {
        return None;
      }
      if !pos.isValid {
        return None;
      }
      if recalculating {
        return None;
      }
      if now - lastRecalculateTime < recalculateCooldown {
        return None;
      }
      recalculating := true;
      lastRecalculateTime := now;
      r := Request(pos, outcome);
      recalculating := false;
    }

    /** The body of the `try` in `recalculate_route`: one reply, one counter. */
    method Request(pos: Gps.GpsPosition, outcome: ProviderOutcome) returns (r: Option<RouteData>)
      modifies this`stats, this`announced
      ensures ReplyRoute(outcome).None? ==>
                r.None? && stats == old(stats).(recalculateFailed := old(stats).recalculateFailed + 1)
                && announced == old(announced)
      ensures ReplyRoute(outcome).Some? ==>
                r == Some(Recalculation(pos, ReplyRoute(outcome).value))
                && stats == old(stats).(recalculateSuccess := old(stats).recalculateSuccess + 1)
                && announced == old(announced) + (if notifyRecalculated then [r.value] else [])
    {
      var reply := ReplyRoute(outcome);
      if reply.None? {
        stats := stats.(recalculateFailed := stats.recalculateFailed + 1);
        return None;
      }
      var route := reply.value;
      var steps := ConvertSteps(route.legs[0].steps);
      var newRoute := RecalculatedRoute(PositionPoint(pos), destinationAddress, destinationCoords, currentRoute,
                                        route, steps);
      stats := stats.(recalculateSuccess := stats.recalculateSuccess + 1);
      if notifyRecalculated {
        announced := announced + [newRoute];
      }
      r := Some(newRoute);
    }
  }
}
