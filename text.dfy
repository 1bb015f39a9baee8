/** The glyph assembler of `src/sdf_ui/text.py`. The contour points a font
    query returns are completed with the implied midpoints, cut into
    three-point strokes, and each stroke is drawn as a quadratic curve or a
    segment and merged into one distance field. The font query itself
    (ttfquery) belongs to the caller, who passes the flagged contours. */
module Text {
  import opened Common
  import Util
  import opened RenderContext
  import Shaders
  import Core

  // ---- middle ----

  /** `middle(x1, y1, x2, y2)`. */
  function Middle(x1: real, y1: real, x2: real, y2: real): (m: Point)
    ensures m.x == (x1 + x2) / 2.0 && m.y == (y1 + y2) / 2.0
  {
    Point(x1 + 0.5 * (x2 - x1), y1 + 0.5 * (y2 - y1))
  }

  /** The midpoint does not depend on the order of the two points. */
  lemma MiddleSymmetric(x1: real, y1: real, x2: real, y2: real)
    ensures Middle(x1, y1, x2, y2) == Middle(x2, y2, x1, y1)
  {
  }

  /** The midpoint of a point and itself is that point. */
  lemma MiddleSame(x: real, y: real)
    ensures Middle(x, y, x, y) == Point(x, y)
  {
  }

  // ---- contour interpolation ----

  /** A contour point as the font query returns it: `((x, y), flag)`. */
  datatype FlaggedPoint = FlaggedPoint(p: Point, flag: int)

  /** Points i - 1 and i carry the same flag, so a midpoint goes between them. */
  predicate SameFlag(c: seq<FlaggedPoint>, i: int)
    requires 1 <= i < |c|
  {
    c[i].flag == c[i - 1].flag
  }

  /** The midpoint of points i - 1 and i. */
  function MidBefore(c: seq<FlaggedPoint>, i: int): Point
    requires 1 <= i < |c|
  {
    Middle(c[i - 1].p.x, c[i - 1].p.y, c[i].p.x, c[i].p.y)
  }

  /** `interpolated_points` once points 1 .. n - 1 have been handled. */
  function InterpPrefix(c: seq<FlaggedPoint>, n: nat): seq<Point>
    requires 1 <= n <= |c|
  {
    if n == 1 then [c[0].p]
    else InterpPrefix(c, n - 1) + (if SameFlag(c, n - 1) then [MidBefore(c, n - 1)] else []) + [c[n - 1].p]
  }

  /** The interpolated contour. */
  function Interpolated(c: seq<FlaggedPoint>): seq<Point>
    requires |c| >= 1
  {
    InterpPrefix(c, |c|)
  }

  /** How many of the pairs (j - 1, j) with 1 <= j < n have equal flags. */
  function Inserted(c: seq<FlaggedPoint>, n: nat): nat
    requires 1 <= n <= |c|
  {
    if n == 1 then 0 else Inserted(c, n - 1) + (if SameFlag(c, n - 1) then 1 else 0)
  }

  /** Where point i lands in the interpolated contour: after itself, the
      points before it and the midpoints inserted up to it. */
  function Pos(c: seq<FlaggedPoint>, i: nat): nat
    requires i < |c|
  {
    i + Inserted(c, i + 1)
  }

  /** Point i follows point i - 1 directly when their flags differ, and with
      exactly one point in between when they are equal. */
  lemma PosStep(c: seq<FlaggedPoint>, i: nat)
    requires 1 <= i < |c|
    ensures Pos(c, i) == Pos(c, i - 1) + (if SameFlag(c, i) then 2 else 1)
  {
  }

  /** The interpolated prefix holds the n points and one midpoint per pair
      of equal flags. */
  lemma {:induction false} InterpLength(c: seq<FlaggedPoint>, n: nat)
    requires 1 <= n <= |c|
    ensures |InterpPrefix(c, n)| == n + Inserted(c, n)
  {
    if n > 1 {
      InterpLength(c, n - 1);
    }
  }

  /** Extending the prefix by point n - 1 keeps what was there. */
  lemma InterpExtends(c: seq<FlaggedPoint>, n: nat, p: nat)
    requires 2 <= n <= |c| && p < |InterpPrefix(c, n - 1)|
    ensures p < |InterpPrefix(c, n)| && InterpPrefix(c, n)[p] == InterpPrefix(c, n - 1)[p]
  {
  }

  /** Every original point sits at its position, in order. */
  lemma {:induction false} InterpPoints(c: seq<FlaggedPoint>, n: nat)
    requires 1 <= n <= |c|
    ensures forall i :: 0 <= i < n ==> Pos(c, i) < |InterpPrefix(c, n)| && InterpPrefix(c, n)[Pos(c, i)] == c[i].p
  {
    if n > 1 {
      InterpPoints(c, n - 1);
      InterpLength(c, n - 1);
      forall i | 0 <= i < n
        ensures Pos(c, i) < |InterpPrefix(c, n)| && InterpPrefix(c, n)[Pos(c, i)] == c[i].p
      {
        if i < n - 1 {
          InterpExtends(c, n, Pos(c, i));
        } else {
          InterpLength(c, n);
          assert Pos(c, i) == |InterpPrefix(c, n)| - 1;
        }
      }
    }
  }

  /** A midpoint sits just before each point whose flag repeats its
      predecessor's. */
  lemma {:induction false} InterpMidpoints(c: seq<FlaggedPoint>, n: nat)
    requires 1 <= n <= |c|
    ensures forall i :: 1 <= i < n && SameFlag(c, i) ==>
              1 <= Pos(c, i) < |InterpPrefix(c, n)| && InterpPrefix(c, n)[Pos(c, i) - 1] == MidBefore(c, i)
  {
    if n > 1 {
      InterpMidpoints(c, n - 1);
      InterpLength(c, n - 1);
      forall i | 1 <= i < n && SameFlag(c, i)
        ensures 1 <= Pos(c, i) < |InterpPrefix(c, n)| && InterpPrefix(c, n)[Pos(c, i) - 1] == MidBefore(c, i)
      {
        if i < n - 1 {
          InterpExtends(c, n, Pos(c, i) - 1);
          InterpExtends(c, n, Pos(c, i));
        } else {
          InterpLength(c, n);
          assert Pos(c, i) - 1 == |InterpPrefix(c, n - 1)|;
        }
      }
    }
  }

  /** The shape of the interpolated prefix: every original point sits at its
      position, in order, a midpoint sits just before each point whose flag
      repeats its predecessor's, and the length is the number of points plus
      the number of such pairs. With PosStep, nothing else is inserted. */
  lemma InterpShape(c: seq<FlaggedPoint>, n: nat)
    requires 1 <= n <= |c|
    ensures |InterpPrefix(c, n)| == n + Inserted(c, n)
    ensures forall i :: 0 <= i < n ==> Pos(c, i) < |InterpPrefix(c, n)| && InterpPrefix(c, n)[Pos(c, i)] == c[i].p
    ensures forall i :: 1 <= i < n && SameFlag(c, i) ==>
              1 <= Pos(c, i) < |InterpPrefix(c, n)| && InterpPrefix(c, n)[Pos(c, i) - 1] == MidBefore(c, i)
  {
    InterpLength(c, n);
    InterpPoints(c, n);
    InterpMidpoints(c, n);
  }

  /** The interpolated contour starts with the contour's first point. */
  lemma InterpolatedStart(c: seq<FlaggedPoint>)
    requires |c| >= 1
    ensures Interpolated(c)[0] == c[0].p
  {
    InterpShape(c, |c|);
    assert Pos(c, 0) == 0;
  }

  /** The first loop of `get_glyph` for one contour; an empty contour has no
      `contour[0]` and raises IndexError. */
  method InterpolateContour(c: seq<FlaggedPoint>) returns (r: Result<seq<Point>>)
    ensures |c| == 0 ==> r == Failure(IndexError)
    ensures |c| > 0 ==> r == Success(Interpolated(c))
  {
    if |c| == 0 {
      return Failure(IndexError);
    }
    var points := [c[0].p];
    var i := 1;
    while i < |c|
      invariant 1 <= i <= |c|
      invariant points == InterpPrefix(c, i)
    {
      if c[i].flag == c[i - 1].flag {
        points := points + [Middle(c[i - 1].p.x, c[i - 1].p.y, c[i].p.x, c[i].p.y)];
      }
      points := points + [c[i].p];
      i := i + 1;
    }
    return Success(points);
  }

  // ---- chunking ----

  /** `[contour[i:i + 3] for i in range(0, len(contour) - 1, 2)]`: the range
      has `len // 2` members. */
  function Windows(pts: seq<Point>): seq<seq<Point>> {
    seq(|pts| / 2, k requires 0 <= k < |pts| / 2 => Slice(pts, 2 * k, 2 * k + 3))
  }

  /** Window k starts at point 2k; every window has three points except
      possibly the last, which has two exactly when the contour has an even
      number of points; consecutive windows share an end point. */
  lemma WindowsShape(pts: seq<Point>)
    ensures var ws := Windows(pts);
            && |ws| == |pts| / 2
            && (forall k :: 0 <= k < |ws| ==> 2 <= |ws[k]| <= 3 && ws[k][0] == pts[2 * k] && ws[k][1] == pts[2 * k + 1])
            && (forall k :: 0 <= k < |ws| ==> (|ws[k]| == 2 <==> k == |ws| - 1 && |pts| % 2 == 0))
            && (forall k :: 0 <= k < |ws| && |ws[k]| == 3 ==> ws[k][2] == pts[2 * k + 2])
            && (forall k :: 0 <= k < |ws| - 1 ==> |ws[k]| == 3 && ws[k][2] == ws[k + 1][0])
  {
    var ws := Windows(pts);
    forall k | 0 <= k < |ws|
      ensures ws[k] == pts[2 * k .. Min(2 * k + 3, |pts|)]
    {
    }
  }

  /** The second loop of `get_glyph` for one contour. */
  method ChunkContour(pts: seq<Point>) returns (ws: seq<seq<Point>>)
    ensures ws == Windows(pts)
  {
    ws := [];
    var i := 0;
    while i < |pts| - 1
      invariant 0 <= i <= |pts| && i % 2 == 0
      invariant |ws| == i / 2
      invariant forall k :: 0 <= k < |ws| ==> ws[k] == Slice(pts, 2 * k, 2 * k + 3)
    {
      ws := ws + [Slice(pts, i, i + 3)];
      i := i + 2;
    }
  }

  // ---- get_glyph ----

  /** `get_glyph` once the font query has produced `contours`: one window
      list per contour, in contour order; an empty contour raises IndexError. */
  function GlyphWindows(contours: seq<seq<FlaggedPoint>>): Result<seq<seq<seq<Point>>>> {
    if exists k :: 0 <= k < |contours| && contours[k] == [] then Failure(IndexError)
    else Success(seq(|contours|, k requires 0 <= k < |contours| => Windows(Interpolated(contours[k]))))
  }

  /** `get_glyph`, from the font query's contours on: all contours are
      interpolated first, then all are cut into windows. */
  method GetGlyph(contours: seq<seq<FlaggedPoint>>) returns (r: Result<seq<seq<seq<Point>>>>)
    ensures r == GlyphWindows(contours)
  {
    var interpolated: seq<seq<Point>> := [];
    var k := 0;
    while k < |contours|
      invariant 0 <= k <= |contours|
      invariant forall j :: 0 <= j < k ==> contours[j] != []
      invariant |interpolated| == k
      invariant forall j :: 0 <= j < k ==> interpolated[j] == Interpolated(contours[j])
    {
      var points := InterpolateContour(contours[k]);
      if points.Failure? {
        return Failure(points.error);
      }
      interpolated := interpolated + [points.value];
      k := k + 1;
    }
    var controlPoints: seq<seq<seq<Point>>> := [];
    k := 0;
    while k < |interpolated|
      invariant 0 <= k <= |interpolated|
      invariant |controlPoints| == k
      invariant forall j :: 0 <= j < k ==> controlPoints[j] == Windows(interpolated[j])
    {
      var ws := ChunkContour(interpolated[k]);
      controlPoints := controlPoints + [ws];
      k := k + 1;
    }
    assert controlPoints == seq(|contours|, j requires 0 <= j < |contours| => Windows(Interpolated(contours[j])));
    return Success(controlPoints);
  }

  // ---- glyph_sdf ----

  /** What one window is drawn as: `bezier(ctx, a, b, c)`, or `line(ctx, a, c)`
      when the three points are collinear. */
  datatype Stroke = Curve(a: Point, b: Point, c: Point) | Segment(a: Point, c: Point) {
    function Kernel(): string {
      if Curve? then Shaders.Bezier else Shaders.Line
    }

    function Uniforms(): map<string, Uniform> {
      if Curve? then Core.BezierUniforms(a, b, c) else Core.LineUniforms(a, c)
    }
  }

  /** `(x * scale + ox, y * scale + oy)`. */
  function Place(p: Point, scale: real, ox: real, oy: real): Point {
    Point(p.x * scale + ox, p.y * scale + oy)
  }

  /** The stroke drawn for window `w`. */
  function StrokeOf(w: seq<Point>, scale: real, ox: real, oy: real): Stroke
    requires |w| >= 3
  {
    var a := Place(w[0], scale, ox, oy);
    var b := Place(w[1], scale, ox, oy);
    var c := Place(w[2], scale, ox, oy);
    if Util.Collinear(a.x, a.y, b.x, b.y, c.x, c.y) then Segment(a, c) else Curve(a, b, c)
  }

  /** Placing maps midpoints to midpoints. */
  lemma PlaceMiddle(p: Point, q: Point, scale: real, ox: real, oy: real)
    ensures Place(Middle(p.x, p.y, q.x, q.y), scale, ox, oy)
            == (var p', q' := Place(p, scale, ox, oy), Place(q, scale, ox, oy); Middle(p'.x, p'.y, q'.x, q'.y))
  {
    var m := Middle(p.x, p.y, q.x, q.y);
    var p', q' := Place(p, scale, ox, oy), Place(q, scale, ox, oy);
    var m' := Middle(p'.x, p'.y, q'.x, q'.y);
    assert m.x == (p.x + q.x) / 2.0 && m.y == (p.y + q.y) / 2.0;
    HalfScaled(p.x, q.x, scale, ox);
    HalfScaled(p.y, q.y, scale, oy);
    assert Place(m, scale, ox, oy).x == m'.x;
    assert Place(m, scale, ox, oy).y == m'.y;
  }

  lemma HalfScaled(a: real, b: real, s: real, o: real)
    ensures ((a + b) / 2.0) * s + o == ((a * s + o) + (b * s + o)) / 2.0
  {
    assert (a + b) * s == a * s + b * s;
  }

  /** A window whose middle point is the midpoint of its ends (as for the
      midpoint inserted between two points with equal flags) is drawn as
      the segment between its ends. */
  lemma StraightStroke(w: seq<Point>, scale: real, ox: real, oy: real)
    requires |w| >= 3 && w[1] == Middle(w[0].x, w[0].y, w[2].x, w[2].y)
    ensures StrokeOf(w, scale, ox, oy) == Segment(Place(w[0], scale, ox, oy), Place(w[2], scale, ox, oy))
  {
    var a, c := Place(w[0], scale, ox, oy), Place(w[2], scale, ox, oy);
    PlaceMiddle(w[0], w[2], scale, ox, oy);
    var b := Place(w[1], scale, ox, oy);
    assert b == Middle(a.x, a.y, c.x, c.y);
    MidpointArea(a.x, a.y, c.x, c.y);
  }

  lemma MidpointArea(x1: real, y1: real, x3: real, y3: real)
    ensures Util.Area2(x1, y1, (x1 + x3) / 2.0, (y1 + y3) / 2.0, x3, y3) == 0.0
  {
    var xm, ym := (x1 + x3) / 2.0, (y1 + y3) / 2.0;
    assert x1 * (ym - y3) == x1 * (y1 - y3) / 2.0;
    assert xm * (y3 - y1) == (x1 + x3) * (y3 - y1) / 2.0;
    assert x3 * (y1 - ym) == x3 * (y1 - y3) / 2.0;
  }

  /** The windows of all shapes in the order the two loops visit them. */
  function Flatten(shapes: seq<seq<seq<Point>>>): seq<seq<Point>> {
    if shapes == [] then [] else shapes[0] + Flatten(shapes[1..])
  }

  /** Shape by shape: the strokes of `a + b` are those of `a`, then those of `b`. */
  lemma {:induction false} FlattenAppend(a: seq<seq<seq<Point>>>, b: seq<seq<seq<Point>>>)
    ensures Flatten(a + b) == Flatten(a) + Flatten(b)
  {
    if a == [] {
      assert a + b == b;
    } else {
      assert (a + b)[1..] == a[1..] + b;
      FlattenAppend(a[1..], b);
    }
  }

  /** The index of the first window with fewer than three points (where
      `stroke[2]` raises IndexError), or the number of windows. */
  function FirstShort(flat: seq<seq<Point>>): (e: nat)
    ensures e <= |flat|
    ensures forall k :: 0 <= k < e ==> |flat[k]| >= 3
    ensures e < |flat| ==> |flat[e]| < 3
  {
    if flat == [] then 0 else if |flat[0]| < 3 then 0 else 1 + FirstShort(flat[1..])
  }

  /** The strokes `glyph_sdf` draws, in order, and how it ends. */
  datatype Plan = Plan(strokes: seq<Stroke>, outcome: Result<()>)

  /** Windows are drawn in order until one is short (IndexError). The first
      stroke starts the union only when it belongs to the first shape
      (`ix == 0 and iy == 0`); otherwise `union_sdf` is still None and the
      `union` call raises AttributeError right after that stroke is drawn. */
  function PlanOf(shapes: seq<seq<seq<Point>>>, scale: real, ox: real, oy: real): Plan {
    var flat := Flatten(shapes);
    var e := FirstShort(flat);
    var strokes := seq(e, k requires 0 <= k < e => StrokeOf(flat[k], scale, ox, oy));
    if e > 0 && |shapes| > 0 && shapes[0] == [] then Plan(strokes[..1], Failure(AttributeError))
    else if e < |flat| then Plan(strokes, Failure(IndexError))
    else Plan(strokes, Success(()))
  }

  /** One turn of the loop: the stroke drawn into `t` and, after the first,
      the union of the previous result `prev` with it into `u`. */
  datatype FoldStep = First(stroke: Stroke, t: Texture) | Then(stroke: Stroke, t: Texture, prev: Texture, u: Texture) {
    /** The texture of `union_sdf` after this step. */
    function Acc(): Texture {
      if First? then t else u
    }

    function Dispatches(): seq<Dispatch> {
      [Dispatch(stroke.Kernel(), [Binding0(t)], stroke.Uniforms())]
      + (if Then? then [Dispatch(Shaders.Union, [Binding0(u), ReadOnly(1, prev), ReadOnly(2, t)], Core.SdfPair)] else [])
    }
  }

  /** A left fold: the first step starts it, every later one unites the
      previous result with its stroke. */
  predicate Chained(steps: seq<FoldStep>) {
    |steps| > 0 ==>
      steps[0].First? && forall k :: 1 <= k < |steps| ==> steps[k].Then? && steps[k].prev == steps[k - 1].Acc()
  }

  function StrokesOf(steps: seq<FoldStep>): seq<Stroke> {
    seq(|steps|, k requires 0 <= k < |steps| => steps[k].stroke)
  }

  /** The runs of a sequence of steps. */
  function Log(steps: seq<FoldStep>): seq<Dispatch> {
    if steps == [] then [] else Log(steps[..|steps| - 1]) + steps[|steps| - 1].Dispatches()
  }

  /** The fold `s1.union(s2).union(s3)...` of n strokes runs 2n - 1 kernels:
      the strokes at even positions 0, 1, 3, 5, ..., and the `n - 1` unions,
      each uniting the previous result (unit 1) with the stroke just drawn
      (unit 2). */
  lemma {:induction false} LogShape(steps: seq<FoldStep>)
    requires Chained(steps) && |steps| >= 1
    ensures |Log(steps)| == 2 * |steps| - 1
    ensures Log(steps)[0] == Dispatch(steps[0].stroke.Kernel(), [Binding0(steps[0].t)], steps[0].stroke.Uniforms())
    ensures forall k :: 1 <= k < |steps| ==>
              Log(steps)[2 * k - 1] == Dispatch(steps[k].stroke.Kernel(), [Binding0(steps[k].t)], steps[k].stroke.Uniforms())
              && Log(steps)[2 * k] == Dispatch(Shaders.Union, [Binding0(steps[k].u), ReadOnly(1, steps[k - 1].Acc()), ReadOnly(2, steps[k].t)], Core.SdfPair)
  {
    var n := |steps|;
    if n > 1 {
      var init := steps[..n - 1];
      assert Chained(init) by {
        forall k | 1 <= k < |init|
          ensures init[k].Then? && init[k].prev == init[k - 1].Acc()
        {
          assert init[k] == steps[k] && init[k - 1] == steps[k - 1];
        }
      }
      LogShape(init);
      var log := Log(steps);
      assert log == Log(init) + steps[n - 1].Dispatches();
      forall k | 1 <= k < n
        ensures log[2 * k - 1] == Dispatch(steps[k].stroke.Kernel(), [Binding0(steps[k].t)], steps[k].stroke.Uniforms())
        ensures log[2 * k] == Dispatch(Shaders.Union, [Binding0(steps[k].u), ReadOnly(1, steps[k - 1].Acc()), ReadOnly(2, steps[k].t)], Core.SdfPair)
      {
        if k < n - 1 {
          assert init[k] == steps[k] && init[k - 1] == steps[k - 1];
        }
      }
    } else {
      assert Log(steps) == Log([]) + steps[0].Dispatches();
    }
  }

  /** Live textures, above the starting count, after k loop turns. */
  function Live(k: nat): nat {
    if k == 0 then 0 else if k == 1 then 1 else 2
  }

  /** The most textures alive at once, above the starting count, during k turns. */
  function Peak(k: nat): nat {
    if k == 0 then 0 else if k == 1 then 1 else 3
  }

  /** `bezier(ctx, a, b, c)` or `line(ctx, a, c)`, as the stroke says. */
  method DrawStroke(ctx: Context, s: Stroke) returns (r: Core.SDFTexture)
    requires ctx.Valid()
    modifies ctx, ctx.registry
    ensures Core.Drawn(ctx, s.Kernel(), s.Uniforms(), r)
  {
    match s
    case Curve(a, b, c) =>
      r := Core.Bezier(ctx, a, b, c);
    case Segment(a, c) =>
      r := Core.Line(ctx, a, c);
  }

  /** The rest of a loop turn after the stroke `s` was drawn: rebinding
      `bezier_sdf` drops the previous stroke `last` (still alive when it is
      the union itself), then `union_sdf = union_sdf.union(bezier_sdf)`
      drops the previous union `u`. */
  method Accumulate(ctx: Context, u: Core.SDFTexture, last: Core.SDFTexture, s: Core.SDFTexture)
    returns (nu: Core.SDFTexture)
    requires ctx.Valid() && u.ctx == ctx && last.ctx == ctx && s.ctx == ctx
    requires s.tex != u.tex && s.tex != last.tex && (last == u || last.tex != u.tex)
    modifies ctx, ctx.registry, u.tex, last.tex
    ensures Core.NewField(nu, ctx) && u.tex.released && last.tex.released
    ensures ctx.Ran([Dispatch(Shaders.Union, [Binding0(nu.tex), ReadOnly(1, u.tex), ReadOnly(2, s.tex)], Core.SdfPair)])
    ensures ctx.Cached({Shaders.Union})
    ensures last == u ==> ctx.registry.Bumped(0, 1)
    ensures last != u ==> ctx.registry.Bumped(-1, 0)
  {
    if last != u {
      last.Release();
    }
    var n := u.Union(Core.FieldVal(s));
    nu := n.value;
    u.Release();
  }

  /** The state of `glyph_sdf` after the turns `steps`, counted from the
      dispatch log `d0` and the registry value `v0` and peak `m0` it started
      with: the log holds the fold's runs, `u` is the running union and
      `last` the stroke just drawn (the same object after one turn), both
      alive, and the registry holds `Live` more textures. */
  ghost predicate Folded(ctx: Context, d0: seq<Dispatch>, v0: int, m0: int, steps: seq<FoldStep>,
                         u: Core.SDFTexture, last: Core.SDFTexture)
    reads ctx, ctx.registry, u, last, u.tex, last.tex
  {
    && ctx.Valid() && ctx.dispatches == d0 + Log(steps)
    && |steps| >= 1 && Chained(steps)
    && u.ctx == ctx && last.ctx == ctx
    && u.tex == steps[|steps| - 1].Acc() && last.tex == steps[|steps| - 1].t
    && !u.tex.released && !last.tex.released
    && (|steps| == 1 ==> last == u) && (|steps| > 1 ==> last != u && last.tex != u.tex)
    && ctx.registry.value == v0 + Live(|steps|) && ctx.registry.max == Max(m0, v0 + Peak(|steps|))
  }

  /** The compile cache after the turns `steps`, from the cache `c0` and
      the compile record `s0` the fold started with: the cache grew by
      exactly the kernels the turns ran, and the record only at its end. */
  ghost predicate CacheOf(ctx: Context, c0: set<string>, s0: seq<string>, steps: seq<FoldStep>)
    reads ctx
  {
    ctx.compiled == c0 + KernelsOf(Log(steps)) && s0 <= ctx.compilations
  }

  /** The first turn: the stroke drawn becomes the union. */
  method Start(ctx: Context, stroke: Stroke, ghost d0: seq<Dispatch>, ghost v0: int, ghost m0: int, ghost c0: set<string>, ghost s0: seq<string>)
    returns (s: Core.SDFTexture, ghost steps: seq<FoldStep>)
    requires ctx.Valid() && ctx.dispatches == d0 && ctx.registry.value == v0 && ctx.registry.max == m0 && ctx.compiled == c0 && ctx.compilations == s0
    modifies ctx, ctx.registry
    ensures fresh(s.tex) && steps == [First(stroke, s.tex)]
    ensures Folded(ctx, d0, v0, m0, steps, s, s) && CacheOf(ctx, c0, s0, steps)
  {
    s := DrawStroke(ctx, stroke);
    steps := [First(stroke, s.tex)];
    assert Log(steps) == Log([]) + steps[0].Dispatches();
    assert KernelsOf(Log(steps)) == {stroke.Kernel()};
  }

  /** A later turn: draw the stroke and unite it with the running union. */
  method Extend(ctx: Context, stroke: Stroke, u: Core.SDFTexture, last: Core.SDFTexture,
                ghost steps: seq<FoldStep>, ghost d0: seq<Dispatch>, ghost v0: int, ghost m0: int)
    returns (nu: Core.SDFTexture, s: Core.SDFTexture, ghost next: seq<FoldStep>)
    requires Folded(ctx, d0, v0, m0, steps, u, last)
    modifies ctx, ctx.registry, u.tex, last.tex
    ensures fresh(nu.tex) && fresh(s.tex)
    ensures next == steps + [Then(stroke, s.tex, u.tex, nu.tex)]
    ensures Folded(ctx, d0, v0, m0, next, nu, s)
    ensures ctx.compiled == old(ctx.compiled) + {stroke.Kernel()} + {Shaders.Union}
    ensures old(ctx.compilations) <= ctx.compilations
  {
    s := DrawStroke(ctx, stroke);
    ghost var q := ctx.compilations;
    nu := Accumulate(ctx, u, last, s);
    next := steps + [Then(stroke, s.tex, u.tex, nu.tex)];
    assert next[..|steps|] == steps;
    Core.PrefixTrans(old(ctx.compilations), q, ctx.compilations);
  }

  /** A later turn compiles (if not cached yet) its stroke's kernel and
      the union kernel, the two kernels it runs. */
  lemma ExtendKernels(c0: set<string>, s0: seq<string>, steps: seq<FoldStep>, step: FoldStep,
                      k1: set<string>, k2: set<string>, q1: seq<string>, q2: seq<string>)
    requires step.Then?
    requires k1 == c0 + KernelsOf(Log(steps)) && s0 <= q1
    requires k2 == k1 + {step.stroke.Kernel()} + {Shaders.Union} && q1 <= q2
    ensures k2 == c0 + KernelsOf(Log(steps + [step])) && s0 <= q2
  {
    var next := steps + [step];
    assert next[..|steps|] == steps;
    KernelsOfAppend(Log(steps), step.Dispatches());
    assert KernelsOf(step.Dispatches()) == {step.stroke.Kernel(), Shaders.Union};
    Core.PrefixTrans(s0, q1, q2);
  }

  /** One turn of the loop: the first stroke starts the union, every later
      one is united with it. */
  method Turn(ctx: Context, stroke: Stroke, u: Core.SDFTexture?, last: Core.SDFTexture?,
              ghost steps: seq<FoldStep>, ghost d0: seq<Dispatch>, ghost v0: int, ghost m0: int, ghost c0: set<string>, ghost s0: seq<string>)
    returns (nu: Core.SDFTexture, nlast: Core.SDFTexture, ghost next: seq<FoldStep>)
    requires u == null ==>
               steps == [] && ctx.Valid() && ctx.dispatches == d0 && ctx.registry.value == v0 && ctx.registry.max == m0 && ctx.compiled == c0 && ctx.compilations == s0
    requires u != null ==> last != null && Folded(ctx, d0, v0, m0, steps, u, last) && CacheOf(ctx, c0, s0, steps)
    modifies ctx, ctx.registry, if u != null && last != null then {u.tex, last.tex} else {}
    ensures fresh(nu.tex) && fresh(nlast.tex)
    ensures u == null ==> next == [First(stroke, nlast.tex)]
    ensures u != null ==> next == steps + [Then(stroke, nlast.tex, u.tex, nu.tex)]
    ensures Folded(ctx, d0, v0, m0, next, nu, nlast) && CacheOf(ctx, c0, s0, next)
  {
    if u == null {
      nu, next := Start(ctx, stroke, d0, v0, m0, c0, s0);
      nlast := nu;
    } else {
      ghost var k1, q1 := ctx.compiled, ctx.compilations;
      nu, nlast, next := Extend(ctx, stroke, u, last, steps, d0, v0, m0);
      ExtendKernels(c0, s0, steps, next[|steps|], k1, ctx.compiled, q1, ctx.compilations);
    }
  }

  /** A plan that stops at the first short window, which is not the first
      window of the glyph, raises IndexError after the strokes before it. */
  lemma PlanShort(shapes: seq<seq<seq<Point>>>, scale: real, ox: real, oy: real, strokes: seq<Stroke>)
    requires var flat := Flatten(shapes);
             |strokes| < |flat| && |flat[|strokes|]| < 3
             && (forall j :: 0 <= j < |strokes| ==> |flat[j]| >= 3 && strokes[j] == StrokeOf(flat[j], scale, ox, oy))
             && (|strokes| > 0 ==> |shapes| > 0 && shapes[0] != [])
    ensures PlanOf(shapes, scale, ox, oy) == Plan(strokes, Failure(IndexError))
  {
    var flat := Flatten(shapes);
    var e := FirstShort(flat);
    assert e == |strokes|;
  }

  /** A plan whose first window is drawn while the first shape is empty
      raises AttributeError after that one stroke. */
  lemma PlanNoUnion(shapes: seq<seq<seq<Point>>>, scale: real, ox: real, oy: real)
    requires var flat := Flatten(shapes);
             |flat| > 0 && |flat[0]| >= 3 && |shapes| > 0 && shapes[0] == []
    ensures PlanOf(shapes, scale, ox, oy)
            == Plan([StrokeOf(Flatten(shapes)[0], scale, ox, oy)], Failure(AttributeError))
  {
    var flat := Flatten(shapes);
    assert FirstShort(flat) > 0;
  }

  /** A plan without short windows draws every window and succeeds. */
  lemma PlanComplete(shapes: seq<seq<seq<Point>>>, scale: real, ox: real, oy: real, strokes: seq<Stroke>)
    requires var flat := Flatten(shapes);
             |strokes| == |flat|
             && (forall j :: 0 <= j < |strokes| ==> |flat[j]| >= 3 && strokes[j] == StrokeOf(flat[j], scale, ox, oy))
             && (|strokes| > 0 ==> |shapes| > 0 && shapes[0] != [])
    ensures PlanOf(shapes, scale, ox, oy) == Plan(strokes, Success(()))
  {
    var flat := Flatten(shapes);
    var e := FirstShort(flat);
    assert e == |flat|;
    assert seq(e, k requires 0 <= k < e => StrokeOf(flat[k], scale, ox, oy)) == strokes;
  }

  /** What the loop of `glyph_sdf` leaves behind for the windows of
      `shapes`, from the dispatch log `d0` and the registry value `v0` and
      peak `m0` it started with: the plan's strokes, the fold's runs and
      registry balance, and the running union (None without strokes). */
  ghost predicate FoldedFrom(ctx: Context, d0: seq<Dispatch>, v0: int, m0: int, c0: set<string>, s0: seq<string>,
                             shapes: seq<seq<seq<Point>>>, scale: real, ox: real, oy: real,
                             r: Result<Core.SDFTexture?>, steps: seq<FoldStep>)
    reads ctx, ctx.registry, if r.Success? && r.value != null then {r.value, r.value.tex} else {}
  {
    var plan := PlanOf(shapes, scale, ox, oy);
    && Chained(steps) && StrokesOf(steps) == plan.strokes
    && ctx.Valid() && ctx.dispatches == d0 + Log(steps)
    && ctx.compiled == c0 + KernelsOf(Log(steps)) && s0 <= ctx.compilations
    && (r.Failure? <==> plan.outcome.Failure?)
    && (r.Failure? ==> r.error == plan.outcome.error)
    && (r.Success? ==> (r.value == null <==> steps == []))
    && (r.Success? && steps != [] ==>
          r.value != null && r.value.ctx == ctx && r.value.tex == steps[|steps| - 1].Acc() && !r.value.tex.released)
    && (steps == [] ==> ctx.registry.value == v0 && ctx.registry.max == m0 && ctx.compiled == c0 && ctx.compilations == s0)
    && (steps != [] ==>
          && ctx.registry.value == v0 + (if r.Success? then 1 else Live(|steps|))
          && ctx.registry.max == Max(m0, v0 + Peak(|steps|)))
  }

  /** The same, from the state before the call. */
  twostate predicate FoldedPlan(ctx: Context, shapes: seq<seq<seq<Point>>>, scale: real, ox: real, oy: real,
                                new r: Result<Core.SDFTexture?>, new steps: seq<FoldStep>)
    reads ctx, ctx.registry, if r.Success? && r.value != null then {r.value, r.value.tex} else {}
  {
    FoldedFrom(ctx, old(ctx.dispatches), old(ctx.registry.value), old(ctx.registry.max),
               old(ctx.compiled), old(ctx.compilations), shapes, scale, ox, oy, r, steps)
  }

  /** The loop stopped before drawing anything. */
  lemma FoldEmpty(ctx: Context, d0: seq<Dispatch>, v0: int, m0: int, c0: set<string>, s0: seq<string>,
                  shapes: seq<seq<seq<Point>>>, scale: real, ox: real, oy: real, r: Result<Core.SDFTexture?>)
    requires ctx.Valid() && ctx.dispatches == d0 && ctx.registry.value == v0 && ctx.registry.max == m0 && ctx.compiled == c0 && ctx.compilations == s0
    requires PlanOf(shapes, scale, ox, oy).strokes == []
    requires r.Failure? <==> PlanOf(shapes, scale, ox, oy).outcome.Failure?
    requires r.Failure? ==> r.error == PlanOf(shapes, scale, ox, oy).outcome.error
    requires r.Success? ==> r.value == null
    ensures FoldedFrom(ctx, d0, v0, m0, c0, s0, shapes, scale, ox, oy, r, [])
  {
    assert Log([]) == [];
  }

  /** The loop raised `e` after the turns `steps`. */
  lemma FoldFailed(ctx: Context, d0: seq<Dispatch>, v0: int, m0: int, c0: set<string>, s0: seq<string>,
                   shapes: seq<seq<seq<Point>>>, scale: real, ox: real, oy: real,
                   steps: seq<FoldStep>, u: Core.SDFTexture, last: Core.SDFTexture, e: Error)
    requires Folded(ctx, d0, v0, m0, steps, u, last) && CacheOf(ctx, c0, s0, steps)
    requires PlanOf(shapes, scale, ox, oy) == Plan(StrokesOf(steps), Failure(e))
    ensures FoldedFrom(ctx, d0, v0, m0, c0, s0, shapes, scale, ox, oy, Failure(e), steps)
  {
  }

  /** The loop drew every stroke; the last stroke drawn has been dropped. */
  lemma FoldDone(ctx: Context, d0: seq<Dispatch>, v0: int, m0: int, c0: set<string>, s0: seq<string>,
                 shapes: seq<seq<seq<Point>>>, scale: real, ox: real, oy: real,
                 steps: seq<FoldStep>, u: Core.SDFTexture)
    requires ctx.Valid() && ctx.dispatches == d0 + Log(steps)
    requires ctx.compiled == c0 + KernelsOf(Log(steps)) && s0 <= ctx.compilations
    requires |steps| >= 1 && Chained(steps)
    requires u.ctx == ctx && u.tex == steps[|steps| - 1].Acc() && !u.tex.released
    requires ctx.registry.value == v0 + 1 && ctx.registry.max == Max(m0, v0 + Peak(|steps|))
    requires PlanOf(shapes, scale, ox, oy) == Plan(StrokesOf(steps), Success(()))
    ensures FoldedFrom(ctx, d0, v0, m0, c0, s0, shapes, scale, ox, oy, Success(u), steps)
  {
  }

  /** The state of the loop of `glyph_sdf` before window k: the k windows
      before it were long enough and drawn in order, and the fold is as
      `Folded` describes (nothing has happened yet when k is 0). */
  ghost predicate Looping(ctx: Context, d0: seq<Dispatch>, v0: int, m0: int, c0: set<string>, s0: seq<string>, shapes: seq<seq<seq<Point>>>,
                          scale: real, ox: real, oy: real, k: nat, steps: seq<FoldStep>,
                          u: Core.SDFTexture?, last: Core.SDFTexture?)
    reads ctx, ctx.registry, u, last, if u != null then {u.tex} else {}, if last != null then {last.tex} else {}
  {
    var flat := Flatten(shapes);
    && k <= |flat| && |steps| == k
    && (forall j :: 0 <= j < k ==> |flat[j]| >= 3 && steps[j].stroke == StrokeOf(flat[j], scale, ox, oy))
    && (k > 0 ==> |shapes| > 0 && shapes[0] != [])
    && (k == 0 ==> u == null && ctx.Valid() && ctx.dispatches == d0 && ctx.registry.value == v0 && ctx.registry.max == m0 && ctx.compiled == c0 && ctx.compilations == s0)
    && (k > 0 ==> u != null && last != null && Folded(ctx, d0, v0, m0, steps, u, last) && CacheOf(ctx, c0, s0, steps))
  }

  /** One turn of the loop of `glyph_sdf` over window k: a short window
      raises IndexError before anything is drawn; otherwise the stroke is
      drawn and folded in, and a first stroke outside the first shape
      raises AttributeError. */
  method Step(ctx: Context, shapes: seq<seq<seq<Point>>>, scale: real, ox: real, oy: real, k: nat,
              u: Core.SDFTexture?, last: Core.SDFTexture?,
              ghost steps: seq<FoldStep>, ghost d0: seq<Dispatch>, ghost v0: int, ghost m0: int, ghost c0: set<string>, ghost s0: seq<string>)
    returns (stop: bool, err: Error, nu: Core.SDFTexture?, nlast: Core.SDFTexture?, ghost next: seq<FoldStep>)
    requires Looping(ctx, d0, v0, m0, c0, s0, shapes, scale, ox, oy, k, steps, u, last) && k < |Flatten(shapes)|
    modifies ctx, ctx.registry, if u != null && last != null then {u.tex, last.tex} else {}
    ensures !stop ==>
              nu != null && nlast != null && fresh(nu.tex) && fresh(nlast.tex)
              && Looping(ctx, d0, v0, m0, c0, s0, shapes, scale, ox, oy, k + 1, next, nu, nlast)
    ensures stop ==> PlanOf(shapes, scale, ox, oy) == Plan(StrokesOf(next), Failure(err))
    ensures stop && next == [] ==>
              ctx.Valid() && ctx.dispatches == d0 && ctx.registry.value == v0 && ctx.registry.max == m0 && ctx.compiled == c0 && ctx.compilations == s0
    ensures stop && next != [] ==> nu != null && nlast != null && Folded(ctx, d0, v0, m0, next, nu, nlast) && CacheOf(ctx, c0, s0, next)
  {
    var flat := Flatten(shapes);
    var w := flat[k];
    if |w| < 3 {
      PlanShort(shapes, scale, ox, oy, StrokesOf(steps));
      return true, IndexError, u, last, steps;
    }
    var stroke := StrokeOf(w, scale, ox, oy);
    var a, b;
    a, b, next := Turn(ctx, stroke, u, last, steps, d0, v0, m0, c0, s0);
    nu, nlast := a, b;
    if k == 0 && shapes[0] == [] {
      PlanNoUnion(shapes, scale, ox, oy);
      assert StrokesOf(next) == [stroke];
      return true, AttributeError, nu, nlast, next;
    }
    stop, err := false, IndexError;
  }

  /** After the last window: the stroke drawn last is dropped unless it is
      the union itself, leaving one texture more than before the fold. */
  method Finish(ctx: Context, k: nat, u: Core.SDFTexture, last: Core.SDFTexture,
                ghost steps: seq<FoldStep>, ghost d0: seq<Dispatch>, ghost v0: int, ghost m0: int, ghost c0: set<string>, ghost s0: seq<string>)
    requires Folded(ctx, d0, v0, m0, steps, u, last) && CacheOf(ctx, c0, s0, steps) && k == |steps|
    modifies last.tex, ctx.registry
    ensures ctx.Valid() && ctx.dispatches == d0 + Log(steps) && |steps| >= 1 && Chained(steps)
    ensures ctx.compiled == c0 + KernelsOf(Log(steps)) && s0 <= ctx.compilations
    ensures u.ctx == ctx && u.tex == steps[|steps| - 1].Acc() && !u.tex.released
    ensures ctx.registry.value == v0 + 1 && ctx.registry.max == Max(m0, v0 + Peak(|steps|))
  {
    if k > 1 {
      last.Release();
    }
  }

  /** The two nested loops of `glyph_sdf` over the windows `get_glyph`
      returned, flattened into one. */
  method FoldStrokes(ctx: Context, shapes: seq<seq<seq<Point>>>, scale: real, ox: real, oy: real)
    returns (r: Result<Core.SDFTexture?>, ghost steps: seq<FoldStep>)
    requires ctx.Valid()
    modifies ctx, ctx.registry
    ensures FoldedPlan(ctx, shapes, scale, ox, oy, r, steps)
  {
    var n := |Flatten(shapes)|;
    ghost var d0, v0, m0, c0, s0 := ctx.dispatches, ctx.registry.value, ctx.registry.max, ctx.compiled, ctx.compilations;
    steps := [];
    var u: Core.SDFTexture? := null;
    var last: Core.SDFTexture? := null;
    var k := 0;
    while k < n
      invariant Looping(ctx, d0, v0, m0, c0, s0, shapes, scale, ox, oy, k, steps, u, last)
      invariant u != null ==> fresh(u.tex)
      invariant last != null ==> fresh(last.tex)
    {
      var stop, err, nu, nlast;
      stop, err, nu, nlast, steps := Step(ctx, shapes, scale, ox, oy, k, u, last, steps, d0, v0, m0, c0, s0);
      if stop {
        if steps == [] {
          FoldEmpty(ctx, d0, v0, m0, c0, s0, shapes, scale, ox, oy, Failure(err));
        } else {
          FoldFailed(ctx, d0, v0, m0, c0, s0, shapes, scale, ox, oy, steps, nu, nlast, err);
        }
        return Failure(err), steps;
      }
      u, last := nu, nlast;
      k := k + 1;
    }
    PlanComplete(shapes, scale, ox, oy, StrokesOf(steps));
    if k == 0 {
      FoldEmpty(ctx, d0, v0, m0, c0, s0, shapes, scale, ox, oy, Success(null));
    } else {
      Finish(ctx, k, u, last, steps, d0, v0, m0, c0, s0);
      FoldDone(ctx, d0, v0, m0, c0, s0, shapes, scale, ox, oy, steps, u);
    }
    return Success(u), steps;
  }

  /** `glyph_sdf(ctx, glyph, scale, ox, oy)` for the contours the font query
      returns for the glyph. The strokes drawn and the exception raised are
      the plan's; the runs are the fold's; the result is the last union
      (None without strokes). An empty contour fails in `get_glyph` before
      anything is drawn. */
  method GlyphSdf(ctx: Context, contours: seq<seq<FlaggedPoint>>, scale: real, ox: real, oy: real)
    returns (r: Result<Core.SDFTexture?>, ghost steps: seq<FoldStep>)
    requires ctx.Valid()
    modifies ctx, ctx.registry
    ensures GlyphWindows(contours).Failure? ==> r == Failure(IndexError) && steps == [] && Core.Untouched(ctx)
    ensures GlyphWindows(contours).Success? ==> FoldedPlan(ctx, GlyphWindows(contours).value, scale, ox, oy, r, steps)
  {
    var g := GetGlyph(contours);
    if g.Failure? {
      return Failure(g.error), [];
    }
    r, steps := FoldStrokes(ctx, g.value, scale, ox, oy);
  }
}
