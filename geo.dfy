/**
 * Screen and geographic coordinates, the map's projection as seen by the box
 * zoom handler, the bounds it commits and the overlay quad it draws.
 *
 * Coordinates are exact reals: the model says nothing about floating-point
 * rounding, and `project`/`unproject` are left uninterpreted.
 */
module Geo {

  /** A position in pixels relative to the canvas container, as `DOM.mousePos` returns it. */
  datatype Point = Point(x: real, y: real)

  /** A geographic coordinate (`LngLat`); longitude first, as in the map library. */
  datatype LngLat = LngLat(lng: real, lat: real)

  /**
   * The camera of the map at the moment an event is handled: `map.project`
   * and `map.unproject`. Both are arbitrary total functions; nothing is
   * assumed about how they relate to each other.
   */
  datatype Camera = Camera(project: LngLat -> Point, unproject: Point -> LngLat)

  /** `LngLatBounds`: empty as constructed with no arguments, otherwise a south-west and a north-east corner. */
  datatype LngLatBounds = Empty | Bounds(sw: LngLat, ne: LngLat)

  /** `Math.min` and `Math.max` on the reals (no NaN). */
  function Min(a: real, b: real): real { if a <= b then a else b }
  function Max(a: real, b: real): real { if a <= b then b else a }

  /** The bounds are non-empty and contain `p`. */
  predicate Covers(b: LngLatBounds, p: LngLat) {
    b.Bounds? && b.sw.lng <= p.lng <= b.ne.lng && b.sw.lat <= p.lat <= b.ne.lat
  }

  /**
   * `LngLatBounds.extend` with a single `LngLat`: an empty bounds becomes the
   * point itself, a non-empty one grows to the least box holding both it and
   * the point.
   */
  function Extend(b: LngLatBounds, p: LngLat): (r: LngLatBounds)
    ensures Covers(r, p)
    ensures b.Bounds? ==>
              r.sw.lng <= b.sw.lng && r.sw.lat <= b.sw.lat && b.ne.lng <= r.ne.lng && b.ne.lat <= r.ne.lat
    // every side of the result comes either from the point or from the old bounds
    ensures r.sw.lng == p.lng || (b.Bounds? && r.sw.lng == b.sw.lng)
    ensures r.sw.lat == p.lat || (b.Bounds? && r.sw.lat == b.sw.lat)
    ensures r.ne.lng == p.lng || (b.Bounds? && r.ne.lng == b.ne.lng)
    ensures r.ne.lat == p.lat || (b.Bounds? && r.ne.lat == b.ne.lat)
  {
    match b
    case Empty => Bounds(p, p)
    case Bounds(sw, ne) =>
      Bounds(LngLat(Min(p.lng, sw.lng), Min(p.lat, sw.lat)),
             LngLat(Max(p.lng, ne.lng), Max(p.lat, ne.lat)))
  }

  /** The north/south/east/west extremes the move handler computes from two geographic points. */
  datatype Envelope = Envelope(north: real, south: real, east: real, west: real)

  predicate InEnvelope(env: Envelope, g: LngLat) {
    env.south <= g.lat <= env.north && env.west <= g.lng <= env.east
  }

  /** The envelope of two geographic points: the tightest lat/lng box holding both. */
  function EnvelopeOf(g0: LngLat, g1: LngLat): (env: Envelope)
    ensures env.south <= env.north && env.west <= env.east
    ensures InEnvelope(env, g0) && InEnvelope(env, g1)
    ensures env.north == g0.lat || env.north == g1.lat
    ensures env.south == g0.lat || env.south == g1.lat
    ensures env.east == g0.lng || env.east == g1.lng
    ensures env.west == g0.lng || env.west == g1.lng
  {
    Envelope(Max(g0.lat, g1.lat), Min(g0.lat, g1.lat), Max(g0.lng, g1.lng), Min(g0.lng, g1.lng))
  }

  /**
   * The bounds a release commits: an empty `LngLatBounds` extended by the
   * unprojection of the start point and then of the end point.
   */
  function CommittedBounds(cam: Camera, p0: Point, p1: Point): (b: LngLatBounds)
    ensures Covers(b, cam.unproject(p0)) && Covers(b, cam.unproject(p1))
    ensures var env := EnvelopeOf(cam.unproject(p0), cam.unproject(p1));
            b == Bounds(LngLat(env.west, env.south), LngLat(env.east, env.north))
  {
    Extend(Extend(Empty, cam.unproject(p0)), cam.unproject(p1))
  }

  /** The screen positions of the four overlay markers: north-west, south-east, south-west, north-east. */
  datatype Quad = Quad(nw: Point, se: Point, sw: Point, ne: Point)

  /**
   * The overlay corners for a drag from `p0` to `p1`: the projections of the
   * corners of the geographic envelope of the two unprojected points, which
   * under rotation or pitch are not the corners of the screen rectangle.
   */
  function OverlayCorners(cam: Camera, p0: Point, p1: Point): (q: Quad)
    // the markers sit exactly on the corners of the bounds a release here would commit
    ensures var b := CommittedBounds(cam, p0, p1);
            && q.sw == cam.project(b.sw)
            && q.ne == cam.project(b.ne)
            && q.nw == cam.project(LngLat(b.sw.lng, b.ne.lat))
            && q.se == cam.project(LngLat(b.ne.lng, b.sw.lat))
  {
    var env := EnvelopeOf(cam.unproject(p0), cam.unproject(p1));
    Quad(cam.project(LngLat(env.west, env.north)),
         cam.project(LngLat(env.east, env.south)),
         cam.project(LngLat(env.west, env.south)),
         cam.project(LngLat(env.east, env.north)))
  }

  /** The envelope does not depend on which endpoint the drag started from. */
  lemma EnvelopeSymmetric(g0: LngLat, g1: LngLat)
    ensures EnvelopeOf(g0, g1) == EnvelopeOf(g1, g0)
  {
  }

  /** Dragging north-east to south-west commits the same bounds as dragging south-west to north-east. */
  lemma CommittedBoundsSymmetric(cam: Camera, p0: Point, p1: Point)
    ensures CommittedBounds(cam, p0, p1) == CommittedBounds(cam, p1, p0)
    ensures var b := CommittedBounds(cam, p0, p1); b.sw.lat <= b.ne.lat && b.sw.lng <= b.ne.lng
  {
  }

  /** The overlay quad does not depend on the drag direction either. */
  lemma OverlayCornersSymmetric(cam: Camera, p0: Point, p1: Point)
    ensures OverlayCorners(cam, p0, p1) == OverlayCorners(cam, p1, p0)
  {
  }
}
