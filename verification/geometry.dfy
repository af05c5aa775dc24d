/**
 * The plane geometry under the renderer: 4x4 matrices as WebGL reads them
 * (column-major), the camera's cached orthographic projection, texture regions
 * and sprite-sheet grids in UV space, and the letterboxed viewport.
 */
module Geometry {
  import opened Common
  import opened MathUtils

  datatype Point = Point(x: real, y: real)

  /** `Mat4.create`: the identity. */
  const IDENTITY: seq<real> :=
    [1.0, 0.0, 0.0, 0.0,
     0.0, 1.0, 0.0, 0.0,
     0.0, 0.0, 1.0, 0.0,
     0.0, 0.0, 0.0, 1.0]

  /**
   * The x and y the vertex shader gets from multiplying a column-major matrix
   * with the vertex (x, y, 0, 1).
   */
  function Apply(m: seq<real>, p: Point): Point
    requires |m| == 16
  {
    Point(m[0] * p.x + m[4] * p.y + m[12], m[1] * p.x + m[5] * p.y + m[13])
  }

  /** The w the vertex shader gets, which divides x and y. */
  function W(m: seq<real>, p: Point): real
    requires |m| == 16
  {
    m[3] * p.x + m[7] * p.y + m[15]
  }

  /**
   * `Mat4.ortho`: maps the box [left, right] x [bottom, top] onto clip space,
   * (left, bottom) to (-1, -1) and (right, top) to (1, 1). Depth is flattened
   * (entry 10 is 0).
   */
  function Ortho(left: real, right: real, bottom: real, top: real): (m: seq<real>)
    requires left != right && bottom != top
    ensures |m| == 16
    ensures Apply(m, Point(left, bottom)) == Point(-1.0, -1.0)
    ensures Apply(m, Point(right, top)) == Point(1.0, 1.0)
  {
    var lr := 1.0 / (left - right);
    var bt := 1.0 / (bottom - top);
    assert lr * (left - right) == 1.0 && bt * (bottom - top) == 1.0;
    [lr * -2.0, 0.0, 0.0, 0.0,
     0.0, bt * -2.0, 0.0, 0.0,
     0.0, 0.0, 0.0, 0.0,
     (left + right) * lr, (top + bottom) * bt, 0.0, 1.0]
  }

  /**
   * Where `ortho` sends a point: the offset from the box's centre, scaled by
   * half the box. So a point lands in clip space exactly when it lies in the box.
   */
  lemma OrthoMapsBoxToClip(left: real, right: real, bottom: real, top: real, p: Point)
    requires left < right && bottom < top
    ensures var q := Apply(Ortho(left, right, bottom, top), p);
      && q.x * (right - left) == 2.0 * p.x - left - right
      && q.y * (top - bottom) == 2.0 * p.y - bottom - top
      && (-1.0 <= q.x <= 1.0 <==> left <= p.x <= right)
      && (-1.0 <= q.y <= 1.0 <==> bottom <= p.y <= top)
    ensures W(Ortho(left, right, bottom, top), p) == 1.0
  {
    var q := Apply(Ortho(left, right, bottom, top), p);
    var lr := 1.0 / (left - right);
    var bt := 1.0 / (bottom - top);
    assert lr * (left - right) == 1.0 && bt * (bottom - top) == 1.0;
    assert q.x == lr * -2.0 * p.x + (left + right) * lr;
    assert q.x * (right - left) == 2.0 * p.x - left - right;
    assert q.y * (top - bottom) == 2.0 * p.y - bottom - top;
    ClipRange(q.x, right - left, 2.0 * p.x - left - right);
    ClipRange(q.y, top - bottom, 2.0 * p.y - bottom - top);
  }

  /** With `q * d == e` and `d > 0`, `q` lies in [-1, 1] exactly when `e` lies in [-d, d]. */
  lemma ClipRange(q: real, d: real, e: real)
    requires d > 0.0 && q * d == e
    ensures -1.0 <= q <= 1.0 <==> -d <= e <= d
  {
    if q < -1.0 { MulLt(q, -1.0, d); }
    if q > 1.0 { MulLt(1.0, q, d); }
    if -1.0 <= q { MulLe(-1.0, q, d); }
    if q <= 1.0 { MulLe(q, 1.0, d); }
  }

  /** `Mat4.fromTranslation`: the identity with (x, y) in the translation column. */
  function FromTranslation(x: real, y: real): (m: seq<real>)
    ensures |m| == 16
  {
    [1.0, 0.0, 0.0, 0.0,
     0.0, 1.0, 0.0, 0.0,
     0.0, 0.0, 1.0, 0.0,
     x, y, 0.0, 1.0]
  }

  /** A translation moves every point by (x, y) and leaves w at 1. */
  lemma TranslationMoves(x: real, y: real, p: Point)
    ensures Apply(FromTranslation(x, y), p) == Point(p.x + x, p.y + y)
    ensures W(FromTranslation(x, y), p) == 1.0
  {
    var m := FromTranslation(x, y);
    assert m[0] == 1.0 && m[4] == 0.0 && m[12] == x;
    assert m[1] == 0.0 && m[5] == 1.0 && m[13] == y;
  }

  /**
   * `Camera`: a position, a view size, and a projection matrix recomputed lazily
   * when `needsUpdate` is set.
   */
  datatype Camera = Camera(position: Point, vw: real, vh: real, needsUpdate: bool, projection: seq<real>)

  /** The projection the camera's view size calls for. */
  function ViewOrtho(vw: real, vh: real): (m: seq<real>)
    requires vw != 0.0 && vh != 0.0
    ensures |m| == 16
    ensures Apply(m, Point(0.0, 0.0)) == Point(0.0, 0.0)
    ensures Apply(m, Point(vw / 2.0, vh / 2.0)) == Point(1.0, 1.0)
  {
    Ortho(-vw / 2.0, vw / 2.0, -vh / 2.0, vh / 2.0)
  }

  /** The cache is sound: a clean camera holds the projection for its current size. */
  predicate Coherent(c: Camera)
  {
    !c.needsUpdate ==> c.vw != 0.0 && c.vh != 0.0 && c.projection == ViewOrtho(c.vw, c.vh)
  }

  /** `setToOrtho`: a new view size, and the cached projection marked stale. */
  function SetToOrtho(c: Camera, vw: real, vh: real): (r: Camera)
    ensures r.vw == vw && r.vh == vh && r.needsUpdate
    ensures r.position == c.position
    ensures Coherent(r)
  {
    c.(vw := vw, vh := vh, needsUpdate := true)
  }

  /** The constructor: at the origin, with the identity as a stale projection. */
  function NewCamera(vw: real, vh: real): (c: Camera)
    ensures c.position == Point(0.0, 0.0) && c.vw == vw && c.vh == vh
    ensures Coherent(c)
  {
    SetToOrtho(Camera(Point(0.0, 0.0), 0.0, 0.0, true, IDENTITY), vw, vh)
  }

  /** `getProjectionMatrix`: recompute if stale, then hand out the cached matrix. */
  function GetProjection(c: Camera): (res: (Camera, seq<real>))
    requires c.vw != 0.0 && c.vh != 0.0
    ensures Coherent(c) ==> res.1 == ViewOrtho(c.vw, c.vh)
    ensures !res.0.needsUpdate
    ensures Coherent(c) ==> Coherent(res.0)
    ensures res.0.vw == c.vw && res.0.vh == c.vh && res.0.position == c.position
    ensures !c.needsUpdate ==> res.0 == c
  {
    if c.needsUpdate then
      var c' := c.(needsUpdate := false, projection := ViewOrtho(c.vw, c.vh));
      (c', c'.projection)
    else (c, c.projection)
  }

  /** After a resize the next projection fits the new size, and asking again returns the same one. */
  lemma ProjectionFollowsResize(c: Camera, vw: real, vh: real)
    requires vw != 0.0 && vh != 0.0
    ensures GetProjection(SetToOrtho(c, vw, vh)).1 == ViewOrtho(vw, vh)
    ensures GetProjection(GetProjection(SetToOrtho(c, vw, vh)).0).1 == ViewOrtho(vw, vh)
  {
  }

  /** `getViewMatrix`: moves the world so the camera's position is at the origin. */
  function ViewMatrix(c: Camera): (m: seq<real>)
    ensures |m| == 16
    ensures Apply(m, c.position) == Point(0.0, 0.0)
  {
    TranslationMoves(-c.position.x, -c.position.y, c.position);
    FromTranslation(-c.position.x, -c.position.y)
  }

  /**
   * Projection after view: a world point is on screen exactly when it lies within
   * half the view size of the camera's position.
   */
  lemma CameraShowsItsView(c: Camera, p: Point)
    requires c.vw > 0.0 && c.vh > 0.0
    ensures var q := Apply(ViewOrtho(c.vw, c.vh), Apply(ViewMatrix(c), p));
      && (-1.0 <= q.x <= 1.0 <==> c.position.x - c.vw / 2.0 <= p.x <= c.position.x + c.vw / 2.0)
      && (-1.0 <= q.y <= 1.0 <==> c.position.y - c.vh / 2.0 <= p.y <= c.position.y + c.vh / 2.0)
  {
    var v := Apply(ViewMatrix(c), p);
    TranslationMoves(-c.position.x, -c.position.y, p);
    var hw, hh := c.vw / 2.0, c.vh / 2.0;
    OrthoMapsBoxToClip(-hw, hw, -hh, hh, v);
    assert -hw <= v.x <= hw <==> c.position.x - hw <= p.x <= c.position.x + hw;
    assert -hh <= v.y <= hh <==> c.position.y - hh <= p.y <= c.position.y + hh;
  }

  /** `Sprite.coords` before any `setRegion`: the whole texture. */
  const FULL_COORDS: seq<real> := [0.0, 0.0, 1.0, 0.0, 1.0, 1.0, 0.0, 1.0]

  /**
   * `setRegion`: the UVs of the pixel rectangle (x, y, w, h) of a `tw` x `th`
   * texture, corners in the order top-left, top-right, bottom-right, bottom-left.
   * The rectangle can be read back from them.
   */
  function SetRegion(tw: real, th: real, x: real, y: real, w: real, h: real): (coords: seq<real>)
    requires tw != 0.0 && th != 0.0
    ensures |coords| == 8
    ensures coords[0] == coords[6] && coords[2] == coords[4] && coords[1] == coords[3] && coords[5] == coords[7]
    ensures coords[0] * tw == x && coords[1] * th == y
    ensures (coords[2] - coords[0]) * tw == w && (coords[5] - coords[1]) * th == h
  {
    [x / tw, y / th, (x + w) / tw, y / th, (x + w) / tw, (y + h) / th, x / tw, (y + h) / th]
  }

  /** The whole texture as a region gives the default UVs. */
  lemma FullRegionIsDefault(tw: real, th: real)
    requires tw != 0.0 && th != 0.0
    ensures SetRegion(tw, th, 0.0, 0.0, tw, th) == FULL_COORDS
  {
  }

  /** A region inside the texture has every UV in [0, 1]. */
  lemma RegionInsideTexture(tw: real, th: real, x: real, y: real, w: real, h: real)
    requires tw > 0.0 && th > 0.0
    requires 0.0 <= x && 0.0 <= w && x + w <= tw
    requires 0.0 <= y && 0.0 <= h && y + h <= th
    ensures forall k :: 0 <= k < 8 ==> 0.0 <= SetRegion(tw, th, x, y, w, h)[k] <= 1.0
  {
    UnitFraction(x, tw);
    UnitFraction(x + w, tw);
    UnitFraction(y, th);
    UnitFraction(y + h, th);
  }

  lemma UnitFraction(a: real, b: real)
    requires b > 0.0 && 0.0 <= a <= b
    ensures 0.0 <= a / b <= 1.0
  {
    var q := a / b;
    assert q * b == a;
    if q < 0.0 { MulLt(q, 0.0, b); }
    if q > 1.0 { MulLt(1.0, q, b); }
  }

  /** A `tw` x `th` texture cut into cells of `sw` x `sh` pixels. */
  datatype Spritesheet = Spritesheet(tw: nat, th: nat, sw: nat, sh: nat)

  /** `Math.floor(tw / sw)` columns and `Math.floor(th / sh)` rows; a partial cell is dropped. */
  function Columns(s: Spritesheet): (n: nat)
    requires s.sw > 0
    ensures n * s.sw <= s.tw < (n + 1) * s.sw
  {
    s.tw / s.sw
  }

  function Rows(s: Spritesheet): (n: nat)
    requires s.sh > 0
    ensures n * s.sh <= s.th < (n + 1) * s.sh
  {
    s.th / s.sh
  }

  /**
   * `getSprite(x, y)`: the region of cell (x, y). Outside the grid the source
   * yields `undefined` or throws; both are `None` here.
   */
  function GetSprite(s: Spritesheet, x: int, y: int): (r: Option<seq<real>>)
    requires s.sw > 0 && s.sh > 0
    ensures r.Some? <==> 0 <= x < Columns(s) && 0 <= y < Rows(s)
    ensures r.Some? ==> |r.value| == 8
  {
    if 0 <= x < Columns(s) && 0 <= y < Rows(s) then
      Some(SetRegion(s.tw as real, s.th as real, (x * s.sw) as real, (y * s.sh) as real, s.sw as real, s.sh as real))
    else None
  }

  /** Every cell of the grid lies inside the texture. */
  lemma CellsInsideTexture(s: Spritesheet, x: nat, y: nat)
    requires s.sw > 0 && s.sh > 0
    requires x < Columns(s) && y < Rows(s)
    ensures forall k :: 0 <= k < 8 ==> 0.0 <= GetSprite(s, x, y).value[k] <= 1.0
  {
    CellFits(x, Columns(s), s.sw);
    CellFits(y, Rows(s), s.sh);
    RegionInsideTexture(s.tw as real, s.th as real, (x * s.sw) as real, (y * s.sh) as real, s.sw as real, s.sh as real);
  }

  lemma CellFits(i: nat, n: nat, w: nat)
    requires i < n
    ensures i * w + w <= n * w
  {
    assert (i + 1) * w <= n * w by {
      var d := n - (i + 1);
      assert n * w == (i + 1) * w + d * w;
    }
  }

  /** Neighbouring cells share their edge: no gap, no overlap. */
  lemma CellsAbut(s: Spritesheet, x: nat, y: nat)
    requires s.sw > 0 && s.sh > 0
    requires x + 1 < Columns(s) && y + 1 < Rows(s)
    ensures GetSprite(s, x + 1, y).value[0] == GetSprite(s, x, y).value[2]
    ensures GetSprite(s, x, y + 1).value[1] == GetSprite(s, x, y).value[5]
  {
    assert (x + 1) * s.sw == x * s.sw + s.sw;
    assert (y + 1) * s.sh == y * s.sh + s.sh;
  }

  /** `FlappyBird.ASPECT`: the game is 360 wide and 520 high. */
  const ASPECT: real := 360.0 / 520.0

  /** The letterboxed viewport and its centring offsets within the canvas. */
  datatype Viewport = Viewport(offsetX: real, offsetY: real, width: real, height: real)

  /**
   * `onResize` and the offsets computed each frame: the game's aspect ratio is
   * kept, one side fills the canvas, and the picture is centred.
   */
  function Letterbox(sw: nat, sh: nat): (v: Viewport)
    ensures v.width == v.height * ASPECT
    ensures 0.0 <= v.width <= sw as real && 0.0 <= v.height <= sh as real
    ensures v.width == sw as real || v.height == sh as real
    ensures 2.0 * v.offsetX + v.width == sw as real && 2.0 * v.offsetY + v.height == sh as real
  {
    var w := sw as real;
    var h := sh as real;
    var vh := w / ASPECT;
    var (vw', vh') := if vh > h then (h * ASPECT, h) else (w, vh);
    Viewport((w - vw') / 2.0, (h - vh') / 2.0, vw', vh')
  }

  /** No larger picture of the game's shape fits the canvas. */
  lemma LetterboxIsLargest(sw: nat, sh: nat, w: real, h: real)
    requires w == h * ASPECT
    requires 0.0 <= w <= sw as real && 0.0 <= h <= sh as real
    ensures w <= Letterbox(sw, sh).width && h <= Letterbox(sw, sh).height
  {
  }
}
