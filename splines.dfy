/**
 * The spline containers: a `Spline` keeps its animation time and its
 * control points exactly as given, and the two curve kinds differ only in
 * name. Neither curve evaluator is written yet: both `pos_at` methods
 * return the origin.
 */
module Splines {
  import V = Vectors

  /** `CatmullRomSpline` or `UniformBSpline`, the two subclasses of `Spline`. */
  datatype SplineKind = CatmullRom | UniformB

  /** `spline_type(ani_time, *ctrl_pts)`: the time and the points, in order. */
  datatype Spline = Spline(kind: SplineKind, aniTime: real, ctrlPts: seq<V.Vec3>)

  /** `pos_at(t)`: the origin, for either kind, every spline and every `t`. */
  function PosAt(sp: Spline, t: real): (p: V.Vec3)
    ensures p == V.Origin
  {
    match sp.kind
    case CatmullRom => V.Vec3(0.0, 0.0, 0.0)
    case UniformB => V.Vec3(0.0, 0.0, 0.0)
  }
}
