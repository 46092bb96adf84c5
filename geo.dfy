/**
 * Geographic points and the great-circle distance of `calculate_distance`.
 *
 * The haversine formula needs trigonometry, which the model does not have, so
 * the distance is a parameter of type `Metric`: any function from two points to
 * metres that is never negative. Every statement about routes holds for every
 * such function, and therefore for the haversine one.
 */
module Geo {
  /** A point as (latitude, longitude) in decimal degrees. */
  datatype Point = Point(lat: real, lng: real)

  /** A distance in metres between two points; only non-negativity is assumed. */
  type Metric = d: (Point, Point) -> real | forall p: Point, q: Point :: d(p, q) >= 0.0
    witness (p: Point, q: Point) => 0.0

  /** The point a fraction `t` of the way from `a` to `b`, in degree coordinates. */
  function Lerp(a: Point, b: Point, t: real): Point {
    Point(a.lat + t * (b.lat - a.lat), a.lng + t * (b.lng - a.lng))
  }
}
