/**
 * The bookkeeping half of `SpriteBatch`: a fixed-capacity bucket of sprites that
 * share one z-index, with the list of distinct textures they sample from.
 * The GPU half (vertex array, buffers, draw call) is left out; the buffer
 * arithmetic lives in module VertexLayout.
 */
module Batching {
  import opened Common

  /** A texture is known by its handle; a `null` texture is `None`. */
  type Texture = nat

  /**
   * What a batch knows about a `SpriteRenderer`: its identity (JavaScript object
   * identity), its layer and the texture of its current region.
   */
  datatype Sprite = Sprite(id: nat, zIndex: int, texture: Option<Texture>)

  datatype Batch = Batch(
    maxSprites: nat,
    zIndex: int,
    sprites: seq<Sprite>,
    textures: seq<Texture>,
    spriteCount: int,
    isFull: bool)

  /** The batch the constructor builds: empty, not full. */
  function NewBatch(maxSprites: nat, zIndex: int): (b: Batch)
    ensures maxSprites >= 1 ==> WellFormed(b)
    ensures b.zIndex == zIndex && b.maxSprites == maxSprites && !b.isFull
    ensures forall id :: Count(b.sprites, id) == 0
  {
    Batch(maxSprites, zIndex, [], [], 0, false)
  }

  /** Number of occurrences of the sprite with identity `id`. */
  function Count(sprites: seq<Sprite>, id: nat): nat
  {
    if sprites == [] then 0
    else (if sprites[0].id == id then 1 else 0) + Count(sprites[1..], id)
  }

  /**
   * What every batch the program can build satisfies: the counter agrees with
   * the list and stays within capacity, a batch at capacity is marked full,
   * the texture list has no duplicates and covers the texture of every sprite
   * in the batch.
   */
  predicate WellFormed(b: Batch)
  {
    && b.maxSprites >= 1
    && b.spriteCount == |b.sprites| <= b.maxSprites
    && (|b.sprites| == b.maxSprites ==> b.isFull)
    && Distinct(b.textures)
    && (forall k :: 0 <= k < |b.sprites| && b.sprites[k].texture.Some? ==> b.sprites[k].texture.value in b.textures)
  }

  /** The textures list after a sprite with texture `tex` joins it. */
  function TrackTexture(textures: seq<Texture>, tex: Option<Texture>): (r: seq<Texture>)
    ensures |textures| <= |r| <= |textures| + 1 && r[..|textures|] == textures
    ensures forall t :: t in r <==> t in textures || tex == Some(t)
    ensures Distinct(textures) ==> Distinct(r)
  {
    if tex.Some? && tex.value !in textures then textures + [tex.value] else textures
  }

  /**
   * `addSprite`: nothing happens on a full batch; otherwise the sprite is appended,
   * the counter goes up, the batch becomes full when the counter reaches capacity,
   * and a new non-null texture is appended to the texture list. There is no cap on
   * the number of distinct textures.
   */
  function AddSprite(b: Batch, s: Sprite): (r: Batch)
    ensures b.isFull ==> r == b
    ensures !b.isFull ==> r.sprites == b.sprites + [s] && r.spriteCount == b.spriteCount + 1
    ensures !b.isFull ==> (r.isFull <==> b.spriteCount + 1 >= b.maxSprites)
    ensures r.maxSprites == b.maxSprites && r.zIndex == b.zIndex
    ensures b.textures <= r.textures && |r.textures| <= |b.textures| + 1
    ensures !b.isFull && s.texture.Some? ==> s.texture.value in r.textures
    ensures forall t :: t in r.textures ==> t in b.textures || (!b.isFull && s.texture == Some(t))
    ensures WellFormed(b) ==> WellFormed(r)
  {
    if b.isFull then b
    else
      var count := b.spriteCount + 1;
      b.(spriteCount := count,
         isFull := count >= b.maxSprites,
         sprites := b.sprites + [s],
         textures := TrackTexture(b.textures, s.texture))
  }

  /** `sprites.indexOf(sprite)`: the first position holding that identity, or -1. */
  function IndexOf(sprites: seq<Sprite>, id: nat): (i: int)
    ensures -1 <= i < |sprites|
    ensures i == -1 <==> Count(sprites, id) == 0
    ensures 0 <= i ==> sprites[i].id == id
    ensures 0 <= i ==> forall k :: 0 <= k < i ==> sprites[k].id != id
  {
    if sprites == [] then -1
    else if sprites[0].id == id then 0
    else
      var j := IndexOf(sprites[1..], id);
      if j == -1 then -1 else j + 1
  }

  lemma {:induction false} CountAppend(a: seq<Sprite>, b: seq<Sprite>, id: nat)
    ensures Count(a + b, id) == Count(a, id) + Count(b, id)
    decreases |a|
  {
    if a == [] {
      assert a + b == b;
    } else {
      assert (a + b)[1..] == a[1..] + b;
      CountAppend(a[1..], b, id);
    }
  }

  /** Deleting position `i` takes away one occurrence of that sprite's identity and no other. */
  lemma CountRemoveAt(s: seq<Sprite>, i: nat, id: nat)
    requires i < |s|
    ensures Count(s[..i] + s[i + 1..], id) == Count(s, id) - (if s[i].id == id then 1 else 0)
  {
    assert s == s[..i] + ([s[i]] + s[i + 1..]);
    CountAppend(s[..i], [s[i]] + s[i + 1..], id);
    CountAppend([s[i]], s[i + 1..], id);
    CountAppend(s[..i], s[i + 1..], id);
  }

  /** The outcome of `removeSprite`: whether it found the sprite, and the batch afterwards. */
  datatype Removal = Removal(removed: bool, batch: Batch)

  /**
   * `removeSprite`: deletes the first occurrence of the sprite's identity and
   * reports success; an absent sprite changes nothing. Neither `isFull` nor the
   * texture list is touched, so slots persist for the batch's lifetime.
   */
  function RemoveSprite(b: Batch, s: Sprite): (r: Removal)
    ensures r.removed <==> Count(b.sprites, s.id) > 0
    ensures !r.removed ==> r.batch == b
    ensures r.removed ==> Count(r.batch.sprites, s.id) == Count(b.sprites, s.id) - 1
    ensures r.removed ==> var i := IndexOf(b.sprites, s.id); r.batch.sprites == b.sprites[..i] + b.sprites[i + 1..]
    ensures forall id :: id != s.id ==> Count(r.batch.sprites, id) == Count(b.sprites, id)
    ensures r.removed ==> |r.batch.sprites| == |b.sprites| - 1 && r.batch.spriteCount == b.spriteCount - 1
    ensures forall k :: 0 <= k < |r.batch.sprites| ==> r.batch.sprites[k] in b.sprites
    ensures r.batch.textures == b.textures && r.batch.isFull == b.isFull
    ensures r.batch.maxSprites == b.maxSprites && r.batch.zIndex == b.zIndex
    ensures WellFormed(b) ==> WellFormed(r.batch)
  {
    var idx := IndexOf(b.sprites, s.id);
    if idx != -1 then
      var rest := b.sprites[..idx] + b.sprites[idx + 1..];
      assert forall id :: Count(rest, id) == Count(b.sprites, id) - (if b.sprites[idx].id == id then 1 else 0) by {
        forall id ensures Count(rest, id) == Count(b.sprites, id) - (if b.sprites[idx].id == id then 1 else 0) {
          CountRemoveAt(b.sprites, idx, id);
        }
      }
      assert forall k :: 0 <= k < |rest| ==> rest[k] == (if k < idx then b.sprites[k] else b.sprites[k + 1]);
      Removal(true, b.(spriteCount := b.spriteCount - 1, sprites := rest))
    else
      Removal(false, b)
  }

  /**
   * The 1-based position of `t` in `textures`, 0 when absent: the loop in
   * `genVertices` that finds a sprite's texture slot.
   */
  function Slot(textures: seq<Texture>, t: Texture): (k: nat)
    ensures k <= |textures|
    ensures k == 0 <==> t !in textures
    ensures k > 0 ==> textures[k - 1] == t
    ensures forall j :: 0 <= j < k - 1 ==> textures[j] != t
  {
    if textures == [] then 0
    else if textures[0] == t then 1
    else
      var k := Slot(textures[1..], t);
      if k == 0 then 0 else k + 1
  }

  /**
   * The `texID` stamped on a sprite's vertices: 0 for a null texture or one the
   * batch does not track, otherwise 1 + its index in the texture list.
   */
  function TexId(textures: seq<Texture>, tex: Option<Texture>): (id: nat)
    ensures id <= |textures|
    ensures id == 0 <==> tex.None? || tex.value !in textures
    ensures id > 0 ==> textures[id - 1] == tex.value
  {
    if tex.None? then 0 else Slot(textures, tex.value)
  }

  /** In a duplicate-free list the slot of the texture at index `i` is exactly `i + 1`. */
  lemma SlotOfIndex(textures: seq<Texture>, i: nat)
    requires Distinct(textures)
    requires i < |textures|
    ensures TexId(textures, Some(textures[i])) == i + 1
  {
    var k := Slot(textures, textures[i]);
    assert textures[k - 1] == textures[i];
  }

  /** Adding a sprite never moves a texture that already had a slot. */
  lemma AddKeepsSlots(b: Batch, s: Sprite, t: Texture)
    requires t in b.textures
    ensures TexId(AddSprite(b, s).textures, Some(t)) == TexId(b.textures, Some(t))
  {
    var r := AddSprite(b, s).textures;
    var k := Slot(b.textures, t);
    var k' := Slot(r, t);
    assert r[..|b.textures|] == b.textures;
    assert r[k - 1] == t;
  }

  /**
   * Removing a sprite from a batch that is not full and adding it back restores
   * the counter and leaves the texture list as it was, so the re-added sprite
   * gets the same slot as before.
   */
  lemma RemoveThenAddKeepsTextures(b: Batch, s: Sprite)
    requires WellFormed(b)
    requires !b.isFull
    requires Count(b.sprites, s.id) > 0
    requires forall k :: 0 <= k < |b.sprites| && b.sprites[k].id == s.id ==> b.sprites[k] == s
    ensures AddSprite(RemoveSprite(b, s).batch, s).textures == b.textures
    ensures AddSprite(RemoveSprite(b, s).batch, s).spriteCount == b.spriteCount
  {
    var i := IndexOf(b.sprites, s.id);
    assert b.sprites[i] == s;
  }

  /**
   * Once full, a batch refuses every later sprite even after removals: `isFull`
   * is never cleared.
   */
  lemma FullStaysFull(b: Batch, s: Sprite, t: Sprite)
    requires b.isFull
    ensures RemoveSprite(b, s).batch.isFull
    ensures AddSprite(RemoveSprite(b, s).batch, t) == RemoveSprite(b, s).batch
  {
  }
}
