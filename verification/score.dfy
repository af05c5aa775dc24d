/**
 * `Score`: the counter at the top of the screen. Four digit sprites are kept;
 * `setScore` shows one per decimal digit, centred on `x`, and adds to or removes
 * from the renderer only the sprites whose visibility changed.
 */
module ScoreDisplay {
  import opened Common
  import opened Batching
  import opened Render
  import opened Overlays

  /** Width of one digit cell (`Spritesheet(digits, 24, 36)`, scale 24). */
  const DIGIT_STEP: int := 24
  /** Half a digit cell, used to centre the row. */
  const HALF_DIGIT: int := 12
  /** The constructor makes four digit sprites. */
  const SCORE_SLOTS: nat := 4

  /** `score.toString()` split into its digits, most significant first. */
  function Digits(n: nat): (ds: seq<nat>)
    ensures 1 <= |ds|
    ensures forall i :: 0 <= i < |ds| ==> ds[i] < 10
    ensures |ds| > 1 ==> ds[0] != 0
    decreases n
  {
    if n < 10 then [n] else Digits(n / 10) + [n % 10]
  }

  /** Reading a row of decimal digits back as a number. */
  function FromDigits(ds: seq<nat>): nat
  {
    if ds == [] then 0 else FromDigits(ds[..|ds| - 1]) * 10 + ds[|ds| - 1]
  }

  /** The digits shown spell the score. */
  lemma {:induction false} DigitsRoundTrip(n: nat)
    ensures FromDigits(Digits(n)) == n
    decreases n
  {
    if n >= 10 {
      DigitsRoundTrip(n / 10);
      var ds := Digits(n);
      assert ds[..|ds| - 1] == Digits(n / 10);
    }
  }

  /** A row of decimal digits without a leading zero is how its number prints. */
  lemma {:induction false} FromDigitsRoundTrip(ds: seq<nat>)
    requires 1 <= |ds|
    requires forall i :: 0 <= i < |ds| ==> ds[i] < 10
    requires |ds| > 1 ==> ds[0] != 0
    ensures Digits(FromDigits(ds)) == ds
    decreases |ds|
  {
    if |ds| > 1 {
      var init := ds[..|ds| - 1];
      FromDigitsRoundTrip(init);
      FromDigitsPositive(init);
      var n := FromDigits(ds);
      assert n / 10 == FromDigits(init) && n % 10 == ds[|ds| - 1];
    }
  }

  lemma {:induction false} FromDigitsPositive(ds: seq<nat>)
    requires 1 <= |ds|
    requires ds[0] != 0
    ensures FromDigits(ds) >= 1
    decreases |ds|
  {
    if |ds| > 1 {
      FromDigitsPositive(ds[..|ds| - 1]);
    }
  }

  function Pow10(k: nat): nat
  {
    if k == 0 then 1 else 10 * Pow10(k - 1)
  }

  /** `n` has `k` digits exactly when it lies below `10^k` and (unless it is 0) not below `10^(k-1)`. */
  lemma {:induction false} DigitCount(n: nat)
    ensures n < Pow10(|Digits(n)|)
    ensures n == 0 || Pow10(|Digits(n)| - 1) <= n
    decreases n
  {
    if n >= 10 {
      DigitCount(n / 10);
    }
  }

  /** Scores below 10000 fit the four digit sprites. */
  lemma FourDigitsSuffice(n: nat)
    requires n < 10000
    ensures |Digits(n)| <= SCORE_SLOTS
  {
    DigitCount(n);
    PowMonotone(4, |Digits(n)| - 1);
  }

  lemma {:induction false} PowMonotone(a: nat, b: int)
    ensures a <= b ==> Pow10(a) <= Pow10(b)
    decreases b
  {
    if a < b {
      PowMonotone(a, b - 1);
    }
  }

  /** The x-position of digit `i` of a `len`-digit score centred on `x`. */
  function DigitX(x: int, len: nat, i: nat): (dx: int)
    ensures 2 * (dx - x) == (2 * i + 1 - len) * DIGIT_STEP
  {
    x - len * HALF_DIGIT + i * DIGIT_STEP + HALF_DIGIT
  }

  /** The row is centred on `x`: digit `i` and digit `len-1-i` sit symmetrically, one cell apart each. */
  lemma DigitRowIsCentred(x: int, len: nat, i: nat)
    requires i < len
    ensures DigitX(x, len, i) + DigitX(x, len, len - 1 - i) == 2 * x
    ensures i + 1 < len ==> DigitX(x, len, i + 1) - DigitX(x, len, i) == DIGIT_STEP
  {
  }

  /** One of the four digit sprites: its renderer handle, the digit it shows, its position. */
  datatype DigitSprite = DigitSprite(handle: Sprite, digit: nat, x: int, y: int)

  datatype Score = Score(x: int, y: int, value: nat, activeCount: nat, sprites: seq<DigitSprite>)

  /** The digit sprites are distinct objects. */
  predicate HandlesDistinct(sprites: seq<DigitSprite>)
  {
    forall i, j :: 0 <= i < j < |sprites| ==> sprites[i].handle.id != sprites[j].handle.id
  }

  /** No digit sprite has identity `id`. */
  predicate NotAHandle(sprites: seq<DigitSprite>, id: nat)
  {
    forall k :: 0 <= k < |sprites| ==> sprites[k].handle.id != id
  }

  /**
   * How the occurrence count of digit sprite `k` moves in `setScore` when `active`
   * sprites were showing and `len` will: one `add` when it becomes visible, one
   * `remove` when it stops being visible, nothing otherwise.
   */
  function Shift(c: nat, k: nat, len: nat, active: nat): nat
  {
    if active <= k < len then c + 1
    else if len <= k < active then (if c > 0 then c - 1 else 0)
    else c
  }

  /** One pass of the loop of `setScore`: place sprite `i`, then add or remove it if its visibility changed. */
  function PlaceOne(sprites: seq<DigitSprite>, i: nat, ds: seq<nat>, active: nat, x: int, y: int, r: Renderer)
    : (res: (seq<DigitSprite>, Renderer))
    requires i < |sprites|
    ensures |res.0| == |sprites|
    ensures forall k :: 0 <= k < |sprites| && k != i ==> res.0[k] == sprites[k]
    ensures res.0[i].handle == sprites[i].handle
    ensures i < |ds| ==> res.0[i] == sprites[i].(digit := ds[i], x := DigitX(x, |ds|, i), y := y)
    ensures |ds| <= i ==> res.0[i] == sprites[i]
    ensures Occurrences(res.1, sprites[i].handle.id) == Shift(Occurrences(r, sprites[i].handle.id), i, |ds|, active)
    ensures forall id :: id != sprites[i].handle.id ==> Occurrences(res.1, id) == Occurrences(r, id)
    ensures Valid(r) ==> Valid(res.1)
  {
    var sp := sprites[i];
    if i < |ds| then
      var r' := if i >= active then Add(r, sp.handle) else r;
      (sprites[i := sp.(digit := ds[i], x := DigitX(x, |ds|, i), y := y)], r')
    else
      var r' := if i < active then Remove(r, sp.handle) else r;
      (sprites, r')
  }

  /** The loop of `setScore` from sprite `i` on. */
  function Place(sprites: seq<DigitSprite>, i: nat, ds: seq<nat>, active: nat, x: int, y: int, r: Renderer)
    : (res: (seq<DigitSprite>, Renderer))
    requires i <= |sprites|
    ensures |res.0| == |sprites|
    ensures forall k :: 0 <= k < |sprites| ==> res.0[k].handle == sprites[k].handle
    ensures forall k :: 0 <= k < i ==> res.0[k] == sprites[k]
    ensures forall k :: i <= k < |sprites| && k < |ds| ==>
      res.0[k].digit == ds[k] && res.0[k].x == DigitX(x, |ds|, k) && res.0[k].y == y
    ensures forall k :: i <= k < |sprites| && |ds| <= k ==> res.0[k] == sprites[k]
    ensures Valid(r) ==> Valid(res.1)
    decreases |sprites| - i
  {
    if i == |sprites| then (sprites, r)
    else
      var p := PlaceOne(sprites, i, ds, active, x, y, r);
      Place(p.0, i + 1, ds, active, x, y, p.1)
  }

  /** Placing one sprite keeps the handles, so keeps them distinct. */
  lemma PlaceOneKeepsDistinct(sprites: seq<DigitSprite>, i: nat, ds: seq<nat>, active: nat, x: int, y: int, r: Renderer)
    requires i < |sprites|
    requires HandlesDistinct(sprites)
    ensures HandlesDistinct(PlaceOne(sprites, i, ds, active, x, y, r).0)
  {
    var sprites' := PlaceOne(sprites, i, ds, active, x, y, r).0;
    forall a, b | 0 <= a < b < |sprites'| ensures sprites'[a].handle.id != sprites'[b].handle.id {
      assert sprites'[a].handle == sprites[a].handle && sprites'[b].handle == sprites[b].handle;
    }
  }

  /** Over the loop, each digit sprite from `i` on gets its own `add` or `remove` as its visibility changes. */
  lemma {:induction false} PlaceCounts(sprites: seq<DigitSprite>, i: nat, ds: seq<nat>, active: nat, x: int, y: int, r: Renderer)
    requires i <= |sprites|
    requires HandlesDistinct(sprites)
    ensures var res := Place(sprites, i, ds, active, x, y, r);
      forall k :: i <= k < |sprites| ==>
        Occurrences(res.1, sprites[k].handle.id) == Shift(Occurrences(r, sprites[k].handle.id), k, |ds|, active)
    decreases |sprites| - i
  {
    if i < |sprites| {
      var p := PlaceOne(sprites, i, ds, active, x, y, r);
      var res := Place(p.0, i + 1, ds, active, x, y, p.1);
      assert Place(sprites, i, ds, active, x, y, r) == res;
      PlaceOneKeepsDistinct(sprites, i, ds, active, x, y, r);
      PlaceCounts(p.0, i + 1, ds, active, x, y, p.1);
      var h := sprites[i].handle.id;
      forall k | i + 1 <= k < |sprites| ensures p.0[k].handle.id != h {
        assert p.0[k] == sprites[k];
      }
      PlaceOthers(p.0, i + 1, ds, active, x, y, p.1, h);
      forall k | i < k < |sprites|
        ensures Occurrences(res.1, sprites[k].handle.id) == Shift(Occurrences(r, sprites[k].handle.id), k, |ds|, active)
      {
        assert p.0[k] == sprites[k];
        assert Occurrences(p.1, sprites[k].handle.id) == Occurrences(r, sprites[k].handle.id);
      }
    }
  }

  /** The loop from sprite `i` on leaves every identity that is none of those sprites' handles alone. */
  lemma {:induction false} PlaceOthers(sprites: seq<DigitSprite>, i: nat, ds: seq<nat>, active: nat, x: int, y: int, r: Renderer, id: nat)
    requires i <= |sprites|
    requires forall k :: i <= k < |sprites| ==> sprites[k].handle.id != id
    ensures Occurrences(Place(sprites, i, ds, active, x, y, r).1, id) == Occurrences(r, id)
    decreases |sprites| - i
  {
    if i < |sprites| {
      var p := PlaceOne(sprites, i, ds, active, x, y, r);
      assert Place(sprites, i, ds, active, x, y, r) == Place(p.0, i + 1, ds, active, x, y, p.1);
      forall k | i + 1 <= k < |sprites| ensures p.0[k].handle.id != id {
        assert p.0[k] == sprites[k];
      }
      PlaceOthers(p.0, i + 1, ds, active, x, y, p.1, id);
    }
  }

  /**
   * `setScore`: shows `n`, digit `i` on sprite `i` at its centred position; sprites
   * that become visible are added to the renderer, sprites that stop being
   * visible are removed, the rest are left where they are.
   */
  function SetScore(sc: Score, n: nat, r: Renderer): (res: (Score, Renderer))
    requires HandlesDistinct(sc.sprites)
    ensures var (sc', r') := res;
      && sc'.value == n && sc'.activeCount == |Digits(n)|
      && sc'.x == sc.x && sc'.y == sc.y
      && |sc'.sprites| == |sc.sprites| && HandlesDistinct(sc'.sprites)
      && (forall k :: 0 <= k < |sc.sprites| ==> sc'.sprites[k].handle == sc.sprites[k].handle)
      && (forall k :: 0 <= k < |sc.sprites| && k < |Digits(n)| ==>
            sc'.sprites[k].digit == Digits(n)[k] && sc'.sprites[k].x == DigitX(sc.x, |Digits(n)|, k))
      && (forall k :: 0 <= k < |sc.sprites| ==>
            Occurrences(r', sc.sprites[k].handle.id)
              == Shift(Occurrences(r, sc.sprites[k].handle.id), k, |Digits(n)|, sc.activeCount))
      && (forall id :: NotAHandle(sc.sprites, id) ==> Occurrences(r', id) == Occurrences(r, id))
      && (Valid(r) ==> Valid(r'))
  {
    var ds := Digits(n);
    var (sprites', r') := Place(sc.sprites, 0, ds, sc.activeCount, sc.x, sc.y, r);
    PlaceCounts(sc.sprites, 0, ds, sc.activeCount, sc.x, sc.y, r);
    forall id | NotAHandle(sc.sprites, id) ensures Occurrences(r', id) == Occurrences(r, id) {
      PlaceOthers(sc.sprites, 0, ds, sc.activeCount, sc.x, sc.y, r, id);
    }
    assert HandlesDistinct(sprites') by {
      forall a, b | 0 <= a < b < |sprites'| ensures sprites'[a].handle.id != sprites'[b].handle.id {
        assert sprites'[a].handle == sc.sprites[a].handle && sprites'[b].handle == sc.sprites[b].handle;
      }
    }
    (sc.(value := n, activeCount := |ds|, sprites := sprites'), r')
  }

  /** The renderer holds each digit sprite once while it is active, and not at all otherwise. */
  predicate Shown(sc: Score, r: Renderer)
  {
    forall k :: 0 <= k < |sc.sprites| ==>
      Occurrences(r, sc.sprites[k].handle.id) == (if k < sc.activeCount then 1 else 0)
  }

  /** After `setScore(n)` exactly the first `digits(n)` sprites are in the renderer, once each. */
  lemma SetScoreShowsDigits(sc: Score, n: nat, r: Renderer)
    requires HandlesDistinct(sc.sprites)
    requires Shown(sc, r)
    ensures Shown(SetScore(sc, n, r).0, SetScore(sc, n, r).1)
  {
    var (sc', r') := SetScore(sc, n, r);
    forall k | 0 <= k < |sc'.sprites|
      ensures Occurrences(r', sc'.sprites[k].handle.id) == (if k < sc'.activeCount then 1 else 0)
    {
      assert sc'.sprites[k].handle == sc.sprites[k].handle;
    }
  }

  /** The outcome of `inc`. */
  datatype Bump = Bump(score: Score, renderer: Renderer, background: Background)

  /**
   * `inc`: one more point; every multiple of ten starts the day/night change of
   * the background (at time `now`).
   */
  function Inc(sc: Score, r: Renderer, bg: Background, now: real): (b: Bump)
    requires HandlesDistinct(sc.sprites)
    ensures b.score.value == sc.value + 1
    ensures b.background.isDay == (if (sc.value + 1) % 10 == 0 then !bg.isDay else bg.isDay)
    ensures (sc.value + 1) % 10 != 0 ==> b.background == bg
    ensures (sc.value + 1) % 10 == 0 ==> b.background.anim.Some? && b.background.startTime == now
    ensures (b.score, b.renderer) == SetScore(sc, sc.value + 1, r)
    ensures Settled(bg) ==> Settled(b.background)
  {
    var (sc', r') := SetScore(sc, sc.value + 1, r);
    var bg' := if sc'.value % 10 == 0 then Change(bg, now) else bg;
    Bump(sc', r', bg')
  }

  /** The digit sprites the constructor makes, before the first `setScore`. */
  function Blank(handles: seq<Sprite>): (sprites: seq<DigitSprite>)
    ensures |sprites| == |handles|
    ensures forall k :: 0 <= k < |handles| ==> sprites[k].handle == handles[k]
  {
    seq(|handles|, k requires 0 <= k < |handles| => DigitSprite(handles[k], 0, 0, 0))
  }

  /** The constructor: four digit sprites, none active yet, then `setScore(0)`. */
  function NewScore(x: int, y: int, handles: seq<Sprite>, r: Renderer): (res: (Score, Renderer))
    requires forall i, j :: 0 <= i < j < |handles| ==> handles[i].id != handles[j].id
    ensures res.0.value == 0 && res.0.activeCount == 1
    ensures |res.0.sprites| == |handles| && HandlesDistinct(res.0.sprites)
    ensures forall k :: 0 <= k < |handles| ==> res.0.sprites[k].handle == handles[k]
    ensures (forall k :: 0 <= k < |handles| ==> Occurrences(r, handles[k].id) == 0) ==> Shown(res.0, res.1)
    ensures forall id :: (forall k :: 0 <= k < |handles| ==> handles[k].id != id) ==> Occurrences(res.1, id) == Occurrences(r, id)
    ensures Valid(r) ==> Valid(res.1)
  {
    var blank := Score(x, y, 0, 0, Blank(handles));
    assert forall id :: (forall k :: 0 <= k < |handles| ==> handles[k].id != id) ==> NotAHandle(blank.sprites, id);
    assert (forall k :: 0 <= k < |handles| ==> Occurrences(r, handles[k].id) == 0) ==> Shown(blank, r);
    BlankShowsZero(blank, r);
    SetScore(blank, 0, r)
  }

  lemma BlankShowsZero(blank: Score, r: Renderer)
    requires HandlesDistinct(blank.sprites)
    ensures Shown(blank, r) ==> Shown(SetScore(blank, 0, r).0, SetScore(blank, 0, r).1)
  {
    if Shown(blank, r) {
      SetScoreShowsDigits(blank, 0, r);
    }
  }
}
