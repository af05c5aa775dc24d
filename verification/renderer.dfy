/**
 * `Renderer`: an ordered list of sprite batches. A sprite joins the first open
 * batch of its layer, or a fresh batch that is pushed and then stably sorted by
 * z-index; removal stops at the first batch that holds the sprite.
 */
module Render {
  import opened Common
  import opened Batching

  /** `Renderer.MAX_SPRITES`: the capacity of every batch the renderer creates. */
  const MAX_SPRITES: nat := 1000

  datatype Renderer = Renderer(batches: seq<Batch>)

  /** The renderer the game starts with. */
  const Empty: Renderer := Renderer([])

  predicate SortedByZ(bs: seq<Batch>)
  {
    forall i, j :: 0 <= i < j < |bs| ==> bs[i].zIndex <= bs[j].zIndex
  }

  /** Every sprite of the batch lives on the batch's layer. */
  predicate Homogeneous(b: Batch)
  {
    forall k :: 0 <= k < |b.sprites| ==> b.sprites[k].zIndex == b.zIndex
  }

  /** Of the batches of one layer, only the last may still accept sprites. */
  predicate OneOpenPerLayer(bs: seq<Batch>)
  {
    forall i, j :: 0 <= i < j < |bs| && bs[i].zIndex == bs[j].zIndex ==> bs[i].isFull
  }

  predicate GoodBatch(b: Batch)
  {
    WellFormed(b) && Homogeneous(b) && b.maxSprites == MAX_SPRITES
  }

  /** What `add` and `remove` maintain, starting from the empty renderer. */
  predicate Valid(r: Renderer)
  {
    && SortedByZ(r.batches)
    && OneOpenPerLayer(r.batches)
    && forall i :: 0 <= i < |r.batches| ==> GoodBatch(r.batches[i])
  }

  /** How many times the sprite with identity `id` sits in the batches. */
  function Total(bs: seq<Batch>, id: nat): nat
  {
    if bs == [] then 0 else Count(bs[0].sprites, id) + Total(bs[1..], id)
  }

  function Occurrences(r: Renderer, id: nat): nat
  {
    Total(r.batches, id)
  }

  lemma EmptyIsValid()
    ensures Valid(Empty)
    ensures forall id :: Occurrences(Empty, id) == 0
  {
  }

  /** The scan in `add`: the first batch that is not full and is on layer `z`, or -1. */
  function FirstOpen(bs: seq<Batch>, z: int): (i: int)
    ensures -1 <= i < |bs|
    ensures 0 <= i ==> !bs[i].isFull && bs[i].zIndex == z
    ensures 0 <= i ==> forall k :: 0 <= k < i ==> bs[k].isFull || bs[k].zIndex != z
    ensures i == -1 ==> forall k :: 0 <= k < |bs| ==> bs[k].isFull || bs[k].zIndex != z
  {
    if bs == [] then -1
    else if !bs[0].isFull && bs[0].zIndex == z then 0
    else
      var j := FirstOpen(bs[1..], z);
      if j == -1 then -1 else j + 1
  }

  /** Where `InsertByZ` puts the new batch: just past the last batch of layer at most `z`. */
  function LayerEnd(bs: seq<Batch>, z: int): (k: nat)
    ensures k <= |bs|
    ensures forall j :: k <= j < |bs| ==> bs[j].zIndex > z
    ensures SortedByZ(bs) ==> forall j :: 0 <= j < k ==> bs[j].zIndex <= z
    decreases |bs|
  {
    if bs == [] || bs[|bs| - 1].zIndex <= z then |bs|
    else LayerEnd(bs[..|bs| - 1], z)
  }

  /**
   * One step of a stable insertion sort by z-index: `b` goes after every batch
   * whose z-index is not greater than its own, scanning from the back.
   */
  function InsertByZ(bs: seq<Batch>, b: Batch): (r: seq<Batch>)
    ensures |r| == |bs| + 1
    ensures multiset(r) == multiset(bs) + multiset{b}
    ensures SortedByZ(bs) ==> SortedByZ(r)
  {
    var k := LayerEnd(bs, b.zIndex);
    assert bs == bs[..k] + bs[k..];
    InsertAtLayerEndSorted(bs, b);
    bs[..k] + [b] + bs[k..]
  }

  lemma InsertAtLayerEndSorted(bs: seq<Batch>, b: Batch)
    ensures var k := LayerEnd(bs, b.zIndex);
      SortedByZ(bs) ==> SortedByZ(bs[..k] + [b] + bs[k..])
  {
    var k := LayerEnd(bs, b.zIndex);
    var r := bs[..k] + [b] + bs[k..];
    if SortedByZ(bs) {
      forall i, j | 0 <= i < j < |r| ensures r[i].zIndex <= r[j].zIndex {
        InsertedAt(bs, k, b, i);
        InsertedAt(bs, k, b, j);
      }
    }
  }

  /**
   * `batches.sort((a, b) => a.zIndex - b.zIndex)`: JavaScript's sort is stable, and
   * a stable insertion sort is one way to compute it.
   */
  function SortByZ(bs: seq<Batch>): (r: seq<Batch>)
    ensures multiset(r) == multiset(bs)
    ensures SortedByZ(r)
    decreases |bs|
  {
    if bs == [] then []
    else
      assert bs == bs[..|bs| - 1] + [bs[|bs| - 1]];
      InsertByZ(SortByZ(bs[..|bs| - 1]), bs[|bs| - 1])
  }

  lemma {:induction false} SortSortedIsIdentity(bs: seq<Batch>)
    requires SortedByZ(bs)
    ensures SortByZ(bs) == bs
    decreases |bs|
  {
    if bs != [] {
      var init := bs[..|bs| - 1];
      var last := bs[|bs| - 1];
      assert SortedByZ(init);
      SortSortedIsIdentity(init);
      assert LayerEnd(init, last.zIndex) == |init|;
      assert init[..|init|] + [last] + init[|init|..] == bs;
    }
  }

  /**
   * On a sorted list, "push then sort" puts the new batch after every batch of
   * the same or a lower layer and before every higher one, leaving the others
   * in their order.
   */
  lemma PushThenSort(bs: seq<Batch>, b: Batch)
    requires SortedByZ(bs)
    ensures SortByZ(bs + [b]) == bs[..LayerEnd(bs, b.zIndex)] + [b] + bs[LayerEnd(bs, b.zIndex)..]
  {
    var all := bs + [b];
    assert all[..|all| - 1] == bs;
    SortSortedIsIdentity(bs);
  }

  lemma {:induction false} TotalAppend(a: seq<Batch>, b: seq<Batch>, id: nat)
    ensures Total(a + b, id) == Total(a, id) + Total(b, id)
    decreases |a|
  {
    if a == [] {
      assert a + b == b;
    } else {
      assert (a + b)[1..] == a[1..] + b;
      TotalAppend(a[1..], b, id);
    }
  }

  lemma TotalUpdate(bs: seq<Batch>, i: nat, b: Batch, id: nat)
    requires i < |bs|
    ensures Total(bs[i := b], id) == Total(bs, id) - Count(bs[i].sprites, id) + Count(b.sprites, id)
  {
    assert bs == bs[..i] + [bs[i]] + bs[i + 1..];
    assert bs[i := b] == bs[..i] + [b] + bs[i + 1..];
    TotalAppend(bs[..i] + [bs[i]], bs[i + 1..], id);
    TotalAppend(bs[..i], [bs[i]], id);
    TotalAppend(bs[..i] + [b], bs[i + 1..], id);
    TotalAppend(bs[..i], [b], id);
  }

  lemma TotalInsert(bs: seq<Batch>, k: nat, b: Batch, id: nat)
    requires k <= |bs|
    ensures Total(bs[..k] + [b] + bs[k..], id) == Total(bs, id) + Count(b.sprites, id)
  {
    assert bs == bs[..k] + bs[k..];
    TotalAppend(bs[..k], bs[k..], id);
    TotalAppend(bs[..k] + [b], bs[k..], id);
    TotalAppend(bs[..k], [b], id);
  }

  lemma TotalSingle(b: Batch, id: nat)
    ensures Total([b], id) == Count(b.sprites, id)
  {
    assert [b][1..] == [];
  }

  lemma TotalInsertByZ(bs: seq<Batch>, b: Batch, id: nat)
    ensures Total(InsertByZ(bs, b), id) == Total(bs, id) + Count(b.sprites, id)
  {
    TotalInsert(bs, LayerEnd(bs, b.zIndex), b, id);
  }

  /** Sorting moves batches around but neither adds nor loses a sprite. */
  lemma {:induction false} TotalSortByZ(bs: seq<Batch>, id: nat)
    ensures Total(SortByZ(bs), id) == Total(bs, id)
    decreases |bs|
  {
    if bs != [] {
      var init := bs[..|bs| - 1];
      var last := bs[|bs| - 1];
      assert bs == init + [last];
      TotalSortByZ(init, id);
      TotalInsertByZ(SortByZ(init), last, id);
      TotalSingle(last, id);
      TotalAppend(init, [last], id);
    }
  }

  /** The batch `add` creates for a sprite no open batch can take. */
  function Fresh(s: Sprite): (b: Batch)
    ensures GoodBatch(b) && !b.isFull && b.zIndex == s.zIndex
    ensures b.sprites == [s]
  {
    AddSprite(NewBatch(MAX_SPRITES, s.zIndex), s)
  }

  /**
   * `Renderer.add`: the sprite joins the first open batch of its layer; if there
   * is none, a fresh batch holding it is pushed and the list re-sorted by z-index.
   */
  function Add(r: Renderer, s: Sprite): (r': Renderer)
    ensures Occurrences(r', s.id) == Occurrences(r, s.id) + 1
    ensures forall id :: id != s.id ==> Occurrences(r', id) == Occurrences(r, id)
    ensures var i := FirstOpen(r.batches, s.zIndex);
      0 <= i ==> && |r'.batches| == |r.batches|
                 && r'.batches[i].sprites == r.batches[i].sprites + [s]
                 && forall j :: 0 <= j < |r.batches| && j != i ==> r'.batches[j] == r.batches[j]
    ensures FirstOpen(r.batches, s.zIndex) == -1 ==> |r'.batches| == |r.batches| + 1
    ensures Valid(r) ==> Valid(r')
  {
    var i := FirstOpen(r.batches, s.zIndex);
    if 0 <= i then
      AddIntoOpen(r, i, s);
      Renderer(r.batches[i := AddSprite(r.batches[i], s)])
    else
      AddFresh(r, s);
      Renderer(SortByZ(r.batches + [Fresh(s)]))
  }

  lemma AddIntoOpen(r: Renderer, i: nat, s: Sprite)
    requires i < |r.batches|
    requires !r.batches[i].isFull && r.batches[i].zIndex == s.zIndex
    ensures var r' := Renderer(r.batches[i := AddSprite(r.batches[i], s)]);
      && (forall id :: Occurrences(r', id) == Occurrences(r, id) + (if id == s.id then 1 else 0))
      && (Valid(r) ==> Valid(r'))
  {
    var b := r.batches[i];
    var b' := AddSprite(b, s);
    forall id ensures Total(r.batches[i := b'], id) == Total(r.batches, id) + (if id == s.id then 1 else 0) {
      TotalUpdate(r.batches, i, b', id);
      CountAppend(b.sprites, [s], id);
      assert [s][1..] == [];
    }
  }

  lemma AddFresh(r: Renderer, s: Sprite)
    requires FirstOpen(r.batches, s.zIndex) == -1
    ensures var r' := Renderer(SortByZ(r.batches + [Fresh(s)]));
      && (forall id :: Occurrences(r', id) == Occurrences(r, id) + (if id == s.id then 1 else 0))
      && (Valid(r) ==> Valid(r'))
  {
    var bs := r.batches;
    var nb := Fresh(s);
    forall id ensures Total(SortByZ(bs + [nb]), id) == Total(bs, id) + (if id == s.id then 1 else 0) {
      FreshCount(bs, s, id);
    }
    if Valid(r) {
      PushThenSort(bs, nb);
      FreshPlacementValid(bs, s);
    }
  }

  lemma FreshCount(bs: seq<Batch>, s: Sprite, id: nat)
    ensures Total(SortByZ(bs + [Fresh(s)]), id) == Total(bs, id) + (if id == s.id then 1 else 0)
  {
    var nb := Fresh(s);
    TotalSortByZ(bs + [nb], id);
    TotalAppend(bs, [nb], id);
    TotalSingle(nb, id);
    assert [s][1..] == [];
  }

  lemma InsertedAt(bs: seq<Batch>, k: nat, b: Batch, j: nat)
    requires k <= |bs| && j <= |bs|
    ensures (bs[..k] + [b] + bs[k..])[j] == (if j < k then bs[j] else if j == k then b else bs[j - 1])
  {
  }

  lemma FreshPlacementValid(bs: seq<Batch>, s: Sprite)
    requires Valid(Renderer(bs))
    requires FirstOpen(bs, s.zIndex) == -1
    ensures Valid(Renderer(InsertByZ(bs, Fresh(s))))
  {
    var nb := Fresh(s);
    var k := LayerEnd(bs, s.zIndex);
    var r := bs[..k] + [nb] + bs[k..];
    assert r == InsertByZ(bs, nb);
    forall j | 0 <= j < |r| ensures GoodBatch(r[j]) {
      InsertedAt(bs, k, nb, j);
    }
    forall i, j | 0 <= i < j < |r| && r[i].zIndex == r[j].zIndex
      ensures r[i].isFull
    {
      InsertedAt(bs, k, nb, i);
      InsertedAt(bs, k, nb, j);
      if j == k {
        assert r[i] == bs[i];
      } else if k < j {
        assert r[j].zIndex > s.zIndex;
        assert i != k;
      }
    }
  }

  /** The first batch holding the sprite with identity `id`, or -1. */
  function FirstHolder(bs: seq<Batch>, id: nat): (i: int)
    ensures -1 <= i < |bs|
    ensures 0 <= i ==> Count(bs[i].sprites, id) > 0
    ensures 0 <= i ==> forall j :: 0 <= j < i ==> Count(bs[j].sprites, id) == 0
    ensures i == -1 ==> forall j :: 0 <= j < |bs| ==> Count(bs[j].sprites, id) == 0
  {
    if bs == [] then -1
    else if Count(bs[0].sprites, id) > 0 then 0
    else
      var j := FirstHolder(bs[1..], id);
      if j == -1 then -1 else j + 1
  }

  /**
   * The scan in `Renderer.remove`: each batch is asked in order and the scan
   * stops at the first one that removed the sprite. Batches emptied this way
   * stay in the list.
   */
  function RemoveFrom(bs: seq<Batch>, s: Sprite): (r: seq<Batch>)
    ensures |r| == |bs|
  {
    if bs == [] then []
    else
      var rm := RemoveSprite(bs[0], s);
      if rm.removed then [rm.batch] + bs[1..]
      else [bs[0]] + RemoveFrom(bs[1..], s)
  }

  /** The scan changes exactly the first batch that holds the sprite, and only if there is one. */
  lemma {:induction false} RemoveFromChangesFirstHolder(bs: seq<Batch>, s: Sprite)
    ensures var i := FirstHolder(bs, s.id);
      RemoveFrom(bs, s) == if i == -1 then bs else bs[i := RemoveSprite(bs[i], s).batch]
    decreases |bs|
  {
    if bs != [] {
      var rm := RemoveSprite(bs[0], s);
      if rm.removed {
        ConsUpdate(rm.batch, bs[1..], bs[0]);
        assert bs == [bs[0]] + bs[1..];
      } else {
        RemoveFromChangesFirstHolder(bs[1..], s);
        var j := FirstHolder(bs[1..], s.id);
        if j != -1 {
          ConsUpdateTail(bs[0], bs[1..], j, RemoveSprite(bs[1..][j], s).batch);
        }
        assert bs == [bs[0]] + bs[1..];
      }
    }
  }

  lemma ConsUpdate<T>(y: T, t: seq<T>, x: T)
    ensures [y] + t == ([x] + t)[0 := y]
  {
  }

  lemma ConsUpdateTail<T>(x: T, t: seq<T>, j: nat, y: T)
    requires j < |t|
    ensures [x] + t[j := y] == ([x] + t)[j + 1 := y]
  {
  }

  /** A list of batches none of which holds `id` holds it zero times. */
  lemma {:induction false} TotalZero(bs: seq<Batch>, id: nat)
    requires forall j :: 0 <= j < |bs| ==> Count(bs[j].sprites, id) == 0
    ensures Total(bs, id) == 0
    decreases |bs|
  {
    if bs != [] {
      TotalZero(bs[1..], id);
    }
  }

  /** Removing a sprite from one batch of a valid renderer keeps it valid. */
  lemma RemoveInBatchValid(bs: seq<Batch>, i: nat, s: Sprite)
    requires Valid(Renderer(bs))
    requires i < |bs|
    ensures Valid(Renderer(bs[i := RemoveSprite(bs[i], s).batch]))
  {
    var b' := RemoveSprite(bs[i], s).batch;
    RemoveKeepsGood(bs[i], s);
    var bs' := bs[i := b'];
    assert forall j :: 0 <= j < |bs'| ==> bs'[j].zIndex == bs[j].zIndex && bs'[j].isFull == bs[j].isFull;
  }

  /** Removing a sprite keeps a batch good: what is left is still on the batch's layer. */
  lemma RemoveKeepsGood(b: Batch, s: Sprite)
    requires GoodBatch(b)
    ensures GoodBatch(RemoveSprite(b, s).batch)
  {
    var b' := RemoveSprite(b, s).batch;
    forall k | 0 <= k < |b'.sprites| ensures b'.sprites[k].zIndex == b'.zIndex {
      var m :| 0 <= m < |b.sprites| && b.sprites[m] == b'.sprites[k];
    }
  }

  /** `Renderer.remove`. */
  function Remove(r: Renderer, s: Sprite): (r': Renderer)
    ensures Occurrences(r', s.id) == if Occurrences(r, s.id) > 0 then Occurrences(r, s.id) - 1 else 0
    ensures forall id :: id != s.id ==> Occurrences(r', id) == Occurrences(r, id)
    ensures Occurrences(r, s.id) == 0 ==> r' == r
    ensures |r'.batches| == |r.batches|
    ensures Valid(r) ==> Valid(r')
  {
    var bs := r.batches;
    var i := FirstHolder(bs, s.id);
    RemoveFromChangesFirstHolder(bs, s);
    if i == -1 then
      TotalZero(bs, s.id);
      Renderer(RemoveFrom(bs, s))
    else
      var b' := RemoveSprite(bs[i], s).batch;
      assert forall id :: Total(bs[i := b'], id) == Total(bs, id) - Count(bs[i].sprites, id) + Count(b'.sprites, id) by {
        forall id ensures Total(bs[i := b'], id) == Total(bs, id) - Count(bs[i].sprites, id) + Count(b'.sprites, id) {
          TotalUpdate(bs, i, b', id);
        }
      }
      assert Valid(r) ==> Valid(Renderer(bs[i := b'])) by {
        if Valid(r) { RemoveInBatchValid(bs, i, s); }
      }
      Renderer(RemoveFrom(bs, s))
  }

  /** Adding a sprite and removing it again restores every occurrence count. */
  lemma AddThenRemove(r: Renderer, s: Sprite)
    ensures forall id :: Occurrences(Remove(Add(r, s), s), id) == Occurrences(r, id)
  {
  }

  /** Every sprite the renderer draws, batch by batch, in draw order. */
  function DrawOrder(bs: seq<Batch>): seq<Sprite>
  {
    if bs == [] then [] else bs[0].sprites + DrawOrder(bs[1..])
  }

  lemma {:induction false} DrawOrderAtLeast(bs: seq<Batch>, lo: int)
    requires forall i :: 0 <= i < |bs| ==> Homogeneous(bs[i]) && bs[i].zIndex >= lo
    ensures forall k :: 0 <= k < |DrawOrder(bs)| ==> DrawOrder(bs)[k].zIndex >= lo
    decreases |bs|
  {
    if bs != [] {
      DrawOrderAtLeast(bs[1..], lo);
      var d := DrawOrder(bs);
      assert d == bs[0].sprites + DrawOrder(bs[1..]);
      forall k | 0 <= k < |d| ensures d[k].zIndex >= lo {
        if k >= |bs[0].sprites| {
          assert d[k] == DrawOrder(bs[1..])[k - |bs[0].sprites|];
        }
      }
    }
  }

  /**
   * `Renderer.render` draws the batches in list order, so in a valid renderer
   * every sprite is drawn after every sprite of a lower layer: back to front.
   */
  lemma {:induction false} DrawOrderIsLayered(r: Renderer)
    requires Valid(r)
    ensures var d := DrawOrder(r.batches);
      forall i, j :: 0 <= i < j < |d| ==> d[i].zIndex <= d[j].zIndex
    decreases |r.batches|
  {
    var bs := r.batches;
    if bs != [] {
      var tail := bs[1..];
      assert Valid(Renderer(tail));
      DrawOrderIsLayered(Renderer(tail));
      DrawOrderAtLeast(tail, bs[0].zIndex);
      var head := bs[0].sprites;
      var d := DrawOrder(bs);
      assert d == head + DrawOrder(tail);
      forall i, j | 0 <= i < j < |d| ensures d[i].zIndex <= d[j].zIndex {
        if j < |head| {
        } else if i < |head| {
          assert d[j] == DrawOrder(tail)[j - |head|];
        } else {
          assert d[i] == DrawOrder(tail)[i - |head|];
          assert d[j] == DrawOrder(tail)[j - |head|];
        }
      }
    }
  }
}
