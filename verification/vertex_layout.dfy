/**
 * The buffer arithmetic of `SpriteBatch`: the static index buffer built by
 * `genIndices`, the interleaved vertex layout written by `genVertices`, and the
 * texture-slot convention shared with the fragment shader. Corner positions come
 * from a scale/rotate/translate transform that is taken here as an input.
 */
module VertexLayout {
  import opened Common
  import opened Batching
  import Render

  const POS_SIZE: nat := 2
  const POS_OFFSET: nat := 0
  const COLOR_SIZE: nat := 4
  const COLOR_OFFSET: nat := POS_SIZE
  const UV_SIZE: nat := 2
  const UV_OFFSET: nat := COLOR_OFFSET + COLOR_SIZE
  const TEX_ID_SIZE: nat := 1
  const TEX_ID_OFFSET: nat := UV_OFFSET + UV_SIZE
  /** Floats per vertex. */
  const VERT_SIZE: nat := POS_SIZE + COLOR_SIZE + UV_SIZE + TEX_ID_SIZE
  /** Floats per sprite: four vertices. */
  const QUAD_FLOATS: nat := 4 * VERT_SIZE

  /** The index buffer is a `Uint16Array`: stored values wrap modulo 2^16. */
  const UINT16_RANGE: nat := 0x1_0000

  /** Two counter-clockwise triangles per quad. */
  const QUAD_PATTERN: seq<nat> := [0, 1, 2, 0, 2, 3]

  /** The layout the attribute pointers declare: position, colour, UV, texture id. */
  lemma LayoutConstants()
    ensures POS_OFFSET == 0 && COLOR_OFFSET == 2 && UV_OFFSET == 6 && TEX_ID_OFFSET == 8
    ensures VERT_SIZE == 9 && QUAD_FLOATS == 36
    ensures POS_OFFSET + POS_SIZE == COLOR_OFFSET && COLOR_OFFSET + COLOR_SIZE == UV_OFFSET
    ensures UV_OFFSET + UV_SIZE == TEX_ID_OFFSET && TEX_ID_OFFSET + TEX_ID_SIZE == VERT_SIZE
  {
  }

  /** Entry `k` of the index buffer, as stored in 16 bits. */
  function IndexAt(k: nat): (v: nat)
    ensures v < UINT16_RANGE
    ensures v % 4 == QUAD_PATTERN[k % 6]
  {
    (QUAD_PATTERN[k % 6] + 4 * (k / 6)) % UINT16_RANGE
  }

  lemma IndexAtQuad(i: nat, j: nat)
    requires j < 6
    ensures IndexAt(6 * i + j) == (QUAD_PATTERN[j] + 4 * i) % UINT16_RANGE
  {
    assert (6 * i + j) % 6 == j && (6 * i + j) / 6 == i;
  }

  /** `genIndices`: for every quad `i < maxSprites`, the six entries `[0,1,2,0,2,3] + 4*i`. */
  method GenIndices(maxSprites: nat) returns (indices: seq<nat>)
    ensures |indices| == 6 * maxSprites
    ensures forall k :: 0 <= k < |indices| ==> indices[k] == IndexAt(k)
    ensures forall k :: 0 <= k < |indices| ==> indices[k] < UINT16_RANGE
  {
    indices := [];
    var i := 0;
    while i < maxSprites
      invariant 0 <= i <= maxSprites
      invariant |indices| == 6 * i
      invariant forall k :: 0 <= k < |indices| ==> indices[k] == IndexAt(k)
    {
      var j := 0;
      while j < 6
        invariant 0 <= j <= 6
        invariant |indices| == 6 * i + j
        invariant forall k :: 0 <= k < |indices| ==> indices[k] == IndexAt(k)
      {
        IndexAtQuad(i, j);
        indices := indices + [(QUAD_PATTERN[j] + i * 4) % UINT16_RANGE];
        j := j + 1;
      }
      i := i + 1;
    }
  }

  /**
   * While `4 * maxSprites` fits in 16 bits nothing wraps: quad `i` is drawn as the
   * triangles (4i, 4i+1, 4i+2) and (4i, 4i+2, 4i+3), and every index names one of
   * the `4 * maxSprites` vertices in the buffer.
   */
  lemma IndicesInRange(maxSprites: nat, k: nat)
    requires 4 * maxSprites <= UINT16_RANGE
    requires k < 6 * maxSprites
    ensures IndexAt(k) == QUAD_PATTERN[k % 6] + 4 * (k / 6)
    ensures 4 * (k / 6) <= IndexAt(k) < 4 * (k / 6) + 4
    ensures IndexAt(k) < 4 * maxSprites
  {
    assert k / 6 < maxSprites;
    assert QUAD_PATTERN[k % 6] <= 3;
  }

  /**
   * `Renderer.MAX_SPRITES` is small enough for 16-bit indices: in every batch the
   * renderer creates, each index names a vertex of its own quad without wrapping.
   */
  lemma RendererCapacityFitsUint16(b: Batch, k: nat)
    requires b.maxSprites == Render.MAX_SPRITES
    requires k < 6 * b.maxSprites
    ensures 4 * Render.MAX_SPRITES <= UINT16_RANGE
    ensures IndexAt(k) == QUAD_PATTERN[k % 6] + 4 * (k / 6)
    ensures IndexAt(k) < 4 * b.maxSprites
  {
    IndicesInRange(b.maxSprites, k);
  }

  /**
   * A draw of `n` sprites uses the first `6 * n` indices, and each of them names a
   * vertex of the first `n` quads: exactly the vertices written this frame.
   */
  lemma DrawTouchesOnlyLiveQuads(maxSprites: nat, n: nat, k: nat)
    requires 4 * maxSprites <= UINT16_RANGE
    requires n <= maxSprites
    requires k < 6 * n
    ensures IndexAt(k) < 4 * n
  {
    IndicesInRange(maxSprites, k);
    assert k / 6 < n;
  }

  datatype Corner = Corner(x: real, y: real)

  /** What one sprite contributes to the vertex buffer. */
  datatype Quad = Quad(corners: seq<Corner>, color: seq<real>, coords: seq<real>, texId: nat)

  predicate QuadShape(q: Quad)
  {
    |q.corners| == 4 && |q.color| == COLOR_SIZE && |q.coords| == 4 * UV_SIZE
  }

  /** The float at field `f` of vertex `v` of the quad. */
  function Field(q: Quad, v: nat, f: nat): real
    requires QuadShape(q) && v < 4 && f < VERT_SIZE
  {
    if f < COLOR_OFFSET then (if f == POS_OFFSET then q.corners[v].x else q.corners[v].y)
    else if f < UV_OFFSET then q.color[f - COLOR_OFFSET]
    else if f < TEX_ID_OFFSET then q.coords[v * UV_SIZE + f - UV_OFFSET]
    else q.texId as real
  }

  /** The float a quad written at `offset` puts at buffer position `k`. */
  function Expected(q: Quad, offset: nat, k: nat): real
    requires QuadShape(q) && offset <= k < offset + QUAD_FLOATS
  {
    Field(q, (k - offset) / VERT_SIZE, (k - offset) % VERT_SIZE)
  }

  lemma ExpectedAt(q: Quad, offset: nat, v: nat, f: nat)
    requires QuadShape(q) && v < 4 && f < VERT_SIZE
    ensures Expected(q, offset, offset + v * VERT_SIZE + f) == Field(q, v, f)
  {
    var m := v * VERT_SIZE + f;
    assert m / VERT_SIZE == v && m % VERT_SIZE == f;
  }

  /**
   * `genVertices`: writes the four vertices of one sprite at `offset` and returns
   * the offset of the next sprite. Nothing outside those 36 floats changes.
   */
  method GenVertices(vertices: seq<real>, offset: nat, q: Quad) returns (out: seq<real>, next: nat)
    requires QuadShape(q)
    requires offset + QUAD_FLOATS <= |vertices|
    ensures next == offset + QUAD_FLOATS
    ensures |out| == |vertices|
    ensures forall k :: 0 <= k < |out| && (k < offset || next <= k) ==> out[k] == vertices[k]
    ensures forall k :: offset <= k < next ==> out[k] == Expected(q, offset, k)
  {
    out := vertices;
    next := offset;
    var i := 0;
    while i < 4
      invariant 0 <= i <= 4
      invariant next == offset + i * VERT_SIZE
      invariant |out| == |vertices|
      invariant forall k :: 0 <= k < |out| && (k < offset || next <= k) ==> out[k] == vertices[k]
      invariant forall k :: offset <= k < next ==> out[k] == Expected(q, offset, k)
    {
      out := WriteVertex(out, offset, i, q);
      next := next + VERT_SIZE;
      i := i + 1;
    }
  }

  /** One pass of the vertex loop of `genVertices`: the nine floats of vertex `i`. */
  method WriteVertex(vertices: seq<real>, offset: nat, i: nat, q: Quad) returns (out: seq<real>)
    requires QuadShape(q) && i < 4
    requires offset + QUAD_FLOATS <= |vertices|
    ensures |out| == |vertices|
    ensures forall k :: 0 <= k < |out| && (k < offset + i * VERT_SIZE || offset + (i + 1) * VERT_SIZE <= k) ==>
      out[k] == vertices[k]
    ensures forall k :: offset + i * VERT_SIZE <= k < offset + (i + 1) * VERT_SIZE ==> out[k] == Expected(q, offset, k)
  {
    var base := offset + i * VERT_SIZE;
    var pos := [q.corners[i].x, q.corners[i].y];
    var uv := q.coords[i * UV_SIZE .. i * UV_SIZE + UV_SIZE];
    var withPos := WriteRun(vertices, base + POS_OFFSET, pos);
    var withColor := WriteRun(withPos, base + COLOR_OFFSET, q.color);
    var withUv := WriteRun(withColor, base + UV_OFFSET, uv);
    out := withUv[base + TEX_ID_OFFSET := q.texId as real];
    forall k | base <= k < base + VERT_SIZE
      ensures out[k] == Expected(q, offset, k)
    {
      var f := k - base;
      ExpectedAt(q, offset, i, f);
      if f < COLOR_OFFSET {
        assert out[k] == withPos[base + POS_OFFSET + f] == pos[f];
      } else if f < UV_OFFSET {
        assert out[k] == withColor[base + COLOR_OFFSET + (f - COLOR_OFFSET)] == q.color[f - COLOR_OFFSET];
      } else if f < TEX_ID_OFFSET {
        assert out[k] == withUv[base + UV_OFFSET + (f - UV_OFFSET)] == uv[f - UV_OFFSET];
      }
    }
  }

  /** One of the field loops of `genVertices`: `vals` copied into the buffer from `start` on. */
  method WriteRun(vertices: seq<real>, start: nat, vals: seq<real>) returns (out: seq<real>)
    requires start + |vals| <= |vertices|
    ensures |out| == |vertices|
    ensures forall k :: 0 <= k < |out| && (k < start || start + |vals| <= k) ==> out[k] == vertices[k]
    ensures forall j :: 0 <= j < |vals| ==> out[start + j] == vals[j]
  {
    out := vertices;
    var j := 0;
    while j < |vals|
      invariant 0 <= j <= |vals|
      invariant |out| == |vertices|
      invariant forall k :: 0 <= k < |out| && (k < start || start + j <= k) ==> out[k] == vertices[k]
      invariant forall m :: 0 <= m < j ==> out[start + m] == vals[m]
    {
      out := out[start + j := vals[j]];
      j := j + 1;
    }
  }

  /** The drawing data of one sprite of a batch at render time. */
  datatype SpriteView = SpriteView(corners: seq<Corner>, color: seq<real>, coords: seq<real>, texture: Option<Texture>)

  predicate ViewShape(w: SpriteView)
  {
    |w.corners| == 4 && |w.color| == COLOR_SIZE && |w.coords| == 4 * UV_SIZE
  }

  /** The quad a sprite becomes, with its texture looked up among the batch's slots. */
  function QuadOf(textures: seq<Texture>, w: SpriteView): (q: Quad)
    ensures ViewShape(w) ==> QuadShape(q)
    ensures q.texId <= |textures|
    ensures q.texId == 0 <==> w.texture.None? || w.texture.value !in textures
    ensures q.texId > 0 ==> textures[q.texId - 1] == w.texture.value
  {
    Quad(w.corners, w.color, w.coords, TexId(textures, w.texture))
  }

  /** The float at position `k` of the buffer of a batch drawing `views`. */
  function Packed(textures: seq<Texture>, views: seq<SpriteView>, k: nat): real
    requires k < QUAD_FLOATS * |views|
    requires forall i :: 0 <= i < |views| ==> ViewShape(views[i])
  {
    var i := k / QUAD_FLOATS;
    Expected(QuadOf(textures, views[i]), i * QUAD_FLOATS, k)
  }

  /**
   * The vertex half of `SpriteBatch.render`: every live sprite, in insertion order,
   * is written at `36 * i`; the rest of the buffer keeps what it held; the draw
   * call covers `spriteCount * 6` indices.
   */
  method PackBatch(b: Batch, views: seq<SpriteView>, vertices: seq<real>) returns (out: seq<real>, drawCount: nat)
    requires WellFormed(b)
    requires |views| == |b.sprites|
    requires forall i :: 0 <= i < |views| ==> ViewShape(views[i])
    requires |vertices| == b.maxSprites * QUAD_FLOATS
    ensures |out| == |vertices|
    ensures forall k :: 0 <= k < QUAD_FLOATS * |views| ==> out[k] == Packed(b.textures, views, k)
    ensures forall k :: QUAD_FLOATS * |views| <= k < |out| ==> out[k] == vertices[k]
    ensures drawCount == 6 * |b.sprites|
    ensures drawCount <= 6 * b.maxSprites
  {
    out := vertices;
    var offset := 0;
    var i := 0;
    while i < |views|
      invariant 0 <= i <= |views|
      invariant offset == i * QUAD_FLOATS
      invariant |out| == |vertices|
      invariant forall k :: 0 <= k < offset ==> out[k] == Packed(b.textures, views, k)
      invariant forall k :: offset <= k < |out| ==> out[k] == vertices[k]
    {
      var q := QuadOf(b.textures, views[i]);
      var prev := out;
      out, offset := GenVertices(out, offset, q);
      forall k | i * QUAD_FLOATS <= k < offset
        ensures out[k] == Packed(b.textures, views, k)
      {
        assert k / QUAD_FLOATS == i;
      }
      i := i + 1;
    }
    drawCount := b.spriteCount * 6;
  }

  /**
   * The fragment shader's `switch (idx)`: slots 1 to 7 sample a texture, anything
   * else (0, and also 8 and up) falls to `default` and draws the tint alone.
   */
  predicate ShaderSamples(texId: nat)
  {
    1 <= texId <= 7
  }

  /** `texSlots = [0..7]`: the sampler in uniform position `i` reads texture unit `i`. */
  const TEX_SLOTS: seq<nat> := [0, 1, 2, 3, 4, 5, 6, 7]

  /** `render` binds the texture at list index `i` to unit `i + 1`. */
  function BoundUnit(i: nat): nat { i + 1 }

  /**
   * A sprite whose texture sits at index `i` of a batch's list is drawn with that
   * very texture exactly when `i < 7`: the shader samples unit `texSlots[texId]`,
   * which is the unit that texture was bound to. From the eighth distinct
   * texture on, the sprite is drawn untextured.
   */
  lemma TextureSlotSemantics(textures: seq<Texture>, i: nat)
    requires Distinct(textures)
    requires i < |textures|
    ensures ShaderSamples(TexId(textures, Some(textures[i]))) <==> i < 7
    ensures i < 7 ==> TEX_SLOTS[TexId(textures, Some(textures[i]))] == BoundUnit(i)
  {
    SlotOfIndex(textures, i);
  }

  /** A batch takes an eighth texture without complaint; a sprite using it draws untextured. */
  lemma EighthTextureDrawsUntextured(b: Batch, s: Sprite)
    requires WellFormed(b) && !b.isFull
    requires |b.textures| == 7
    requires s.texture.Some? && s.texture.value !in b.textures
    ensures var r := AddSprite(b, s);
      && |r.textures| == 8
      && TexId(r.textures, s.texture) == 8
      && !ShaderSamples(TexId(r.textures, s.texture))
  {
    var r := AddSprite(b, s);
    assert r.textures == b.textures + [s.texture.value];
    assert r.textures[7] == s.texture.value;
    SlotOfIndex(r.textures, 7);
  }
}
