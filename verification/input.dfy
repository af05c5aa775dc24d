/**
 * The polled half of `Input`: DOM listeners fill in what is held down, and the
 * per-frame `update` turns that into "just pressed" signals.
 */
module Input {

  type Key = string

  /** `Input.KeyInfo`. */
  datatype KeyInfo = KeyInfo(currentlyPressed: set<Key>, previouslyPressed: set<Key>, justPressed: set<Key>)

  /** `onKeyDown`: the key is held from now on. */
  function KeyDown(k: KeyInfo, key: Key): (r: KeyInfo)
    ensures r.currentlyPressed == k.currentlyPressed + {key}
    ensures r.previouslyPressed == k.previouslyPressed && r.justPressed == k.justPressed
  {
    k.(currentlyPressed := k.currentlyPressed + {key})
  }

  /** `onKeyUp`: the key is released. */
  function KeyUp(k: KeyInfo, key: Key): (r: KeyInfo)
    ensures r.currentlyPressed == k.currentlyPressed - {key}
    ensures r.previouslyPressed == k.previouslyPressed && r.justPressed == k.justPressed
  {
    k.(currentlyPressed := k.currentlyPressed - {key})
  }

  /**
   * `KeyInfo.update`: a key is "just pressed" when it is held now and was not
   * held at the previous update; the held set becomes the previous one.
   */
  function UpdateKeys(k: KeyInfo): (r: KeyInfo)
    ensures forall key :: key in r.justPressed <==> key in k.currentlyPressed && key !in k.previouslyPressed
    ensures r.previouslyPressed == k.currentlyPressed
    ensures r.currentlyPressed == k.currentlyPressed
  {
    KeyInfo(k.currentlyPressed, k.currentlyPressed, set key | key in k.currentlyPressed && key !in k.previouslyPressed)
  }

  /** `isKeyClicked`. */
  predicate IsKeyClicked(k: KeyInfo, key: Key)
  {
    key in k.justPressed
  }

  /** A key held through two updates is "just pressed" at most at the first. */
  lemma HeldKeyClicksOnce(k: KeyInfo, key: Key)
    ensures !IsKeyClicked(UpdateKeys(UpdateKeys(k)), key)
  {
  }

  /** Press, update: the key is clicked, whatever happened before. */
  lemma PressThenUpdateClicks(k: KeyInfo, key: Key)
    requires key !in k.currentlyPressed
    ensures IsKeyClicked(UpdateKeys(KeyDown(UpdateKeys(k), key)), key)
  {
  }

  /** `Input.TouchInfo` (the mouse is touch 0). */
  datatype TouchInfo = TouchInfo(
    x: real, y: real,
    prevX: real, prevY: real,
    deltaX: real, deltaY: real,
    isTouched: bool, wasTouched: bool, isJustTouched: bool)

  /**
   * `TouchInfo.update`: a touch is "just" when it is down now and was not at the
   * previous update. The drag delta is measured from the previous update, and is
   * zero on the update that sees the touch start.
   */
  function UpdateTouch(t: TouchInfo): (r: TouchInfo)
    ensures r.isJustTouched <==> t.isTouched && !t.wasTouched
    ensures r.wasTouched == t.isTouched && r.isTouched == t.isTouched
    ensures r.isJustTouched ==> r.deltaX == 0.0 && r.deltaY == 0.0
    ensures !r.isJustTouched ==> r.deltaX == t.x - t.prevX && r.deltaY == t.y - t.prevY
    ensures r.prevX == t.x && r.prevY == t.y && r.x == t.x && r.y == t.y
  {
    var just := t.isTouched && !t.wasTouched;
    var px := if just then t.x else t.prevX;
    var py := if just then t.y else t.prevY;
    t.(isJustTouched := just, wasTouched := t.isTouched,
       deltaX := t.x - px, deltaY := t.y - py,
       prevX := t.x, prevY := t.y)
  }

  /** A held press is "just" for one update only. */
  lemma HeldTouchIsJustOnce(t: TouchInfo)
    ensures !UpdateTouch(UpdateTouch(t)).isJustTouched
  {
  }

  /** `Input.MAX_TOUCHES`. */
  const MAX_TOUCHES: nat := 10

  datatype InputState = InputState(keys: KeyInfo, touches: seq<TouchInfo>)

  predicate WellFormed(inp: InputState)
  {
    |inp.touches| == MAX_TOUCHES
  }

  /** `Input.update`: the keys, then every touch slot. */
  function Update(inp: InputState): (r: InputState)
    ensures r.keys == UpdateKeys(inp.keys)
    ensures |r.touches| == |inp.touches|
    ensures forall i :: 0 <= i < |inp.touches| ==> r.touches[i] == UpdateTouch(inp.touches[i])
  {
    InputState(UpdateKeys(inp.keys), seq(|inp.touches|, i requires 0 <= i < |inp.touches| => UpdateTouch(inp.touches[i])))
  }

  /** The "activate" signal `Player.update` reads: a fresh tap on touch 0 or a Space click. */
  predicate Activated(inp: InputState)
    requires WellFormed(inp)
  {
    inp.touches[0].isJustTouched || IsKeyClicked(inp.keys, "Space")
  }

  /** Holding Space (and the pointer) down activates on one frame only. */
  lemma HoldingActivatesOnce(inp: InputState)
    requires WellFormed(inp)
    ensures !Activated(Update(Update(inp)))
  {
    HeldKeyClicksOnce(inp.keys, "Space");
    HeldTouchIsJustOnce(inp.touches[0]);
  }
}
