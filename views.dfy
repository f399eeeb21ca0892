/** View parameters of the renderer: the settled and pending parameter objects,
    the partial updates that the parameter-change event merges in, and the
    snapshot a render takes of the pending parameters. */
module Views {

  datatype Option<T> = None | Some(value: T) {
    function GetOr(default: T): T {
      match this
      case Some(v) => v
      case None => default
    }
  }

  /** A point of the complex plane. */
  datatype Complex = Complex(re: real, im: real)

  /** The gradient a snapshot takes when the parameters name none. */
  const DefaultGradient: string := "classic"

  /** A parameter object: `gradient` is absent until some update supplies one,
      as in the initial object of the renderer. */
  datatype ViewParams = ViewParams(zoom: real, centerX: real, centerY: real, maxIter: int, gradient: Option<string>)

  /** The parameters the renderer starts with (zoom 1 at -0.5 + 0i, 100 iterations). */
  const InitialParams: ViewParams := ViewParams(1.0, -0.5, 0.0, 100, None)

  /** The payload of a parameter-change event: any subset of the five fields. */
  datatype ParamsUpdate = ParamsUpdate(zoom: Option<real>, centerX: Option<real>, centerY: Option<real>,
                                       maxIter: Option<int>, gradient: Option<string>)

  /** A zoom that the transforms can divide by. */
  predicate ValidZoom(u: ParamsUpdate) {
    u.zoom.Some? ==> u.zoom.value > 0.0
  }

  /** Copying the fields an update carries over the pending parameters. */
  function Merge(p: ViewParams, u: ParamsUpdate): ViewParams {
    ViewParams(u.zoom.GetOr(p.zoom), u.centerX.GetOr(p.centerX), u.centerY.GetOr(p.centerY),
               u.maxIter.GetOr(p.maxIter), if u.gradient.Some? then u.gradient else p.gradient)
  }

  /** The gradient a render uses: the named one, or the default. */
  function GradientName(p: ViewParams): string {
    p.gradient.GetOr(DefaultGradient)
  }

  /** The copy of the pending parameters a render works from. */
  function Snapshot(p: ViewParams): ViewParams {
    p.(gradient := Some(GradientName(p)))
  }

  /** The staleness test at the end of a render: the four numeric fields agree.
      The gradient is not part of it. */
  predicate SameKey(a: ViewParams, b: ViewParams) {
    a.zoom == b.zoom && a.centerX == b.centerX && a.centerY == b.centerY && a.maxIter == b.maxIter
  }

  /** Merging an update changes exactly the fields it carries and keeps the
      others. */
  lemma MergeCarriesUpdate(p: ViewParams, u: ParamsUpdate)
    ensures var m := Merge(p, u);
      && (u.zoom.Some? ==> m.zoom == u.zoom.value) && (u.zoom.None? ==> m.zoom == p.zoom)
      && (u.centerX.Some? ==> m.centerX == u.centerX.value) && (u.centerX.None? ==> m.centerX == p.centerX)
      && (u.centerY.Some? ==> m.centerY == u.centerY.value) && (u.centerY.None? ==> m.centerY == p.centerY)
      && (u.maxIter.Some? ==> m.maxIter == u.maxIter.value) && (u.maxIter.None? ==> m.maxIter == p.maxIter)
      && (u.gradient.Some? ==> m.gradient == u.gradient) && (u.gradient.None? ==> m.gradient == p.gradient)
  {
  }

  /** A snapshot keeps every field but fills in the default gradient. */
  lemma SnapshotFillsGradient(p: ViewParams)
    ensures SameKey(p, Snapshot(p)) && Snapshot(p).gradient.Some?
    ensures p.gradient.None? ==> Snapshot(p).gradient == Some("classic")
    ensures p.gradient.Some? ==> Snapshot(p) == p
  {
  }

  /** A change of gradient alone never makes a render stale. */
  lemma GradientOutsideStalenessKey(p: ViewParams, g: string)
    ensures SameKey(p.(gradient := Some(g)), Snapshot(p))
  {
  }
}
