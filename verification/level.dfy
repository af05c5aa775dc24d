/**
 * `Level`: the game's state machine (`ready`, `playing`, `gameover`) with the
 * pipes, the score, the filter flash, the day/night background and the
 * game-over text. Time is `stateTime`, in milliseconds. The player's physics
 * are left out: falling below the floor and hitting a pipe arrive as events,
 * and the random pipe heights arrive as parameters.
 */
module Game {
  import opened Common
  import opened Batching
  import opened Render
  import opened Overlays
  import opened ScoreDisplay

  /** `FlappyBird.WIDTH`, in world units. */
  const WIDTH: real := 360.0
  /** `Level.GAMEOVER_SHOW_DELAY`, in milliseconds. */
  const GAMEOVER_SHOW_DELAY: real := 800.0
  /** `Level.speed`, world units per second. */
  const SPEED: real := 150.0
  /** `Pipe.SPACING` and the pipe width. */
  const SPACING: real := 230.0
  const PIPE_WIDTH: real := 70.0
  /** The player's x-position: set by `Player.reset` and never changed. */
  const PLAYER_X: real := -80.0
  /** `Level.init` makes three pipes. */
  const PIPE_COUNT: nat := 3
  /** The score's anchor. */
  const SCORE_X: int := 0
  const SCORE_Y: int := 190

  datatype State = Ready | Playing | GameOver

  /** A pipe pair: its x, the height of its gap, and whether the player has passed it. */
  datatype Pipe = Pipe(x: real, y: real, passed: bool)

  datatype Level = Level(
    state: State,
    stateTime: real,
    stateLastChangeTime: real,
    pipes: seq<Pipe>,
    score: Score,
    background: Background,
    filter: Filter,
    renderer: Renderer,
    gameoverText: Sprite,
    gameoverTextVisible: bool)

  /** Where pipe `i` starts a round: one and a half screens to the right, then one spacing apart. */
  function StartX(i: nat): (x: real)
    ensures x >= WIDTH / 2.0 + WIDTH
    ensures x - StartX(0) == i as real * SPACING
  {
    WIDTH * 1.5 + i as real * SPACING
  }

  /**
   * What every reachable level satisfies: the renderer is valid, it holds exactly
   * the active digit sprites once each, it holds the game-over text once exactly
   * while that text is visible (which happens only in `gameover`), and the
   * background and filter stay in range.
   */
  predicate LevelInv(l: Level)
  {
    && HandlesDistinct(l.score.sprites)
    && NotAHandle(l.score.sprites, l.gameoverText.id)
    && Valid(l.renderer)
    && Shown(l.score, l.renderer)
    && Occurrences(l.renderer, l.gameoverText.id) == (if l.gameoverTextVisible then 1 else 0)
    && (l.gameoverTextVisible ==> l.state == GameOver)
    && Settled(l.background)
    && 0.0 <= l.filter.shade <= 1.0
  }

  /** The digit sprites stay shown when no digit sprite's count changes. */
  lemma ShownFrame(sc: Score, r: Renderer, r': Renderer)
    requires Shown(sc, r)
    requires forall id :: !NotAHandle(sc.sprites, id) ==> Occurrences(r', id) == Occurrences(r, id)
    ensures Shown(sc, r')
  {
    forall k | 0 <= k < |sc.sprites|
      ensures Occurrences(r', sc.sprites[k].handle.id) == (if k < sc.activeCount then 1 else 0)
    {
      assert !NotAHandle(sc.sprites, sc.sprites[k].handle.id);
    }
  }

  /** `Level.reset`: score 0, daylight, every pipe back at its starting place with a new height. */
  function Reset(l: Level, heights: seq<real>): (r: Level)
    requires HandlesDistinct(l.score.sprites)
    requires |heights| == |l.pipes|
    ensures r.score.value == 0 && r.score.activeCount == 1
    ensures r.background.isDay && r.background.anim.None? && Settled(r.background)
    ensures |r.pipes| == |l.pipes|
    ensures forall i :: 0 <= i < |l.pipes| ==> r.pipes[i] == Pipe(StartX(i), heights[i], false)
    ensures r.state == l.state && r.stateTime == l.stateTime && r.stateLastChangeTime == l.stateLastChangeTime
    ensures r.filter == l.filter && r.gameoverText == l.gameoverText
    ensures r.gameoverTextVisible == l.gameoverTextVisible
    ensures (r.score, r.renderer) == SetScore(l.score, 0, l.renderer)
  {
    var (sc, rn) := SetScore(l.score, 0, l.renderer);
    var pipes := seq(|l.pipes|, i requires 0 <= i < |l.pipes| => Pipe(StartX(i), heights[i], false));
    l.(score := sc, renderer := rn, background := ResetBackground(l.background), pipes := pipes)
  }

  /**
   * `setState`: records when the state changed; entering `ready` also resets the
   * round and takes the game-over text off the screen.
   */
  function SetState(l: Level, s: State, heights: seq<real>): (r: Level)
    requires HandlesDistinct(l.score.sprites)
    requires s == Ready ==> |heights| == |l.pipes|
    ensures r.state == s && r.stateLastChangeTime == l.stateTime && r.stateTime == l.stateTime
    ensures s != Ready ==> r == l.(state := s, stateLastChangeTime := l.stateTime)
    ensures s == Ready ==> r.score.value == 0 && r.score.activeCount == 1 && !r.gameoverTextVisible
    ensures s == Ready ==> r.background.isDay && r.background.anim.None?
    ensures |r.pipes| == |l.pipes| && r.filter == l.filter && r.gameoverText == l.gameoverText
    ensures s == Ready ==> forall i :: 0 <= i < |l.pipes| ==> r.pipes[i] == Pipe(StartX(i), heights[i], false)
    ensures |r.score.sprites| == |l.score.sprites| && HandlesDistinct(r.score.sprites)
    ensures forall k :: 0 <= k < |l.score.sprites| ==> r.score.sprites[k].handle == l.score.sprites[k].handle
  {
    var l' := l.(state := s, stateLastChangeTime := l.stateTime);
    if s == Ready then
      var l2 := Reset(l', heights);
      l2.(gameoverTextVisible := false, renderer := Remove(l2.renderer, l.gameoverText))
    else l'
  }

  lemma SetStateKeepsInv(l: Level, s: State, heights: seq<real>)
    requires LevelInv(l)
    requires s == Ready ==> |heights| == |l.pipes|
    requires s == Playing ==> !l.gameoverTextVisible
    ensures LevelInv(SetState(l, s, heights))
  {
    if s == Ready {
      var l' := l.(state := s, stateLastChangeTime := l.stateTime);
      var l2 := Reset(l', heights);
      SetScoreShowsDigits(l'.score, 0, l'.renderer);
      var rn := Remove(l2.renderer, l.gameoverText);
      ShownFrame(l2.score, l2.renderer, rn);
    }
  }

  /** `gameOver`: a no-op once over; otherwise enter `gameover` and start the flash. */
  function EndGame(l: Level): (r: Level)
    requires HandlesDistinct(l.score.sprites)
    ensures l.state == GameOver ==> r == l
    ensures l.state != GameOver ==>
      r == l.(state := GameOver, stateLastChangeTime := l.stateTime, filter := PlayFilter(l.filter, l.stateTime))
    ensures r.state == GameOver
    ensures LevelInv(l) ==> LevelInv(r)
  {
    if l.state == GameOver then l
    else
      var l' := SetState(l, GameOver, []);
      l'.(filter := PlayFilter(l'.filter, l.stateTime))
  }

  /**
   * The input branch of `Player.update`: in `ready` an activation starts the game;
   * in `gameover` it starts a new round only once twice the text delay has passed.
   */
  function PlayerInput(l: Level, activate: bool, heights: seq<real>): (r: Level)
    requires HandlesDistinct(l.score.sprites)
    requires |heights| == |l.pipes|
    ensures !activate ==> r == l
    ensures activate && l.state == Ready ==> r.state == Playing && r.stateLastChangeTime == l.stateTime
    ensures activate && l.state == Playing ==> r == l
    ensures activate && l.state == GameOver ==>
      (r.state == Ready <==> l.stateTime - l.stateLastChangeTime >= 2.0 * GAMEOVER_SHOW_DELAY)
    ensures r.state == Ready && l.state != Ready ==> r.score.value == 0 && !r.gameoverTextVisible
    ensures r.state != Ready ==> r.state == l.state || (l.state == Ready && r.state == Playing)
    ensures r.stateTime == l.stateTime && |r.pipes| == |l.pipes| && r.gameoverText == l.gameoverText
    ensures |r.score.sprites| == |l.score.sprites| && HandlesDistinct(r.score.sprites)
    ensures forall k :: 0 <= k < |l.score.sprites| ==> r.score.sprites[k].handle == l.score.sprites[k].handle
    ensures LevelInv(l) ==> LevelInv(r)
  {
    if !activate then l
    else
      var l1 := if l.state == Ready then SetState(l, Playing, heights) else l;
      assert LevelInv(l) && l.state == Ready ==> LevelInv(l1) by {
        if LevelInv(l) && l.state == Ready { SetStateKeepsInv(l, Playing, heights); }
      }
      if l1.state == GameOver && l1.stateTime - l1.stateLastChangeTime >= 2.0 * GAMEOVER_SHOW_DELAY then
        assert LevelInv(l1) ==> LevelInv(SetState(l1, Ready, heights)) by {
          if LevelInv(l1) { SetStateKeepsInv(l1, Ready, heights); }
        }
        SetState(l1, Ready, heights)
      else l1
  }

  /** The rest of `Player.update` that touches the level: falling out or hitting a pipe ends the game. */
  function PlayerUpdate(l: Level, activate: bool, fell: bool, hit: bool, heights: seq<real>): (r: Level)
    requires HandlesDistinct(l.score.sprites)
    requires |heights| == |l.pipes|
    ensures fell || hit ==> r.state == GameOver
    ensures !fell && !hit ==> r == PlayerInput(l, activate, heights)
    ensures r.stateTime == l.stateTime && |r.pipes| == |l.pipes| && r.gameoverText == l.gameoverText
    ensures |r.score.sprites| == |l.score.sprites| && HandlesDistinct(r.score.sprites)
    ensures forall k :: 0 <= k < |l.score.sprites| ==> r.score.sprites[k].handle == l.score.sprites[k].handle
    ensures LevelInv(l) ==> LevelInv(r)
  {
    var l1 := PlayerInput(l, activate, heights);
    var l2 := if fell then EndGame(l1) else l1;
    if hit && l2.state != GameOver then EndGame(l2) else l2
  }

  /** A pipe that has scrolled a half screen plus its width past the centre goes round again. */
  predicate Recycles(p: Pipe)
  {
    p.x <= -0.5 * WIDTH - PIPE_WIDTH
  }

  /** One `Pipe.update`: the pipe afterwards, and whether it called `score.inc`. */
  datatype PipeOutcome = PipeOutcome(pipe: Pipe, scored: bool)

  /**
   * `Pipe.update` for a pipe among `n`: recycle it `n` spacings further on with a
   * fresh height and the latch cleared, scroll it while playing, and latch it
   * (scoring once) when the player is past it.
   */
  function PipeStep(p: Pipe, n: nat, playing: bool, dt: real, height: real): (o: PipeOutcome)
    ensures o.pipe.x == (if Recycles(p) then p.x + n as real * SPACING else p.x) - (if playing then SPEED * dt else 0.0)
    ensures o.pipe.y == (if Recycles(p) then height else p.y)
    ensures o.scored <==> (Recycles(p) || !p.passed) && PLAYER_X > o.pipe.x
    ensures o.pipe.passed <==> o.scored || (p.passed && !Recycles(p))
  {
    var p1 := if Recycles(p) then Pipe(p.x + n as real * SPACING, height, false) else p;
    var p2 := if playing then p1.(x := p1.x - SPEED * dt) else p1;
    if !p2.passed && PLAYER_X > p2.x then PipeOutcome(p2.(passed := true), true)
    else PipeOutcome(p2, false)
  }

  /** A passed pipe does not score again until it is recycled. */
  lemma PassedPipeStaysQuiet(p: Pipe, n: nat, playing: bool, dt: real, height: real)
    requires p.passed && !Recycles(p)
    ensures !PipeStep(p, n, playing, dt, height).scored
    ensures PipeStep(p, n, playing, dt, height).pipe.passed
  {
  }

  /** Between recycles a pipe scores at most once: two consecutive updates never both score. */
  lemma ScoresAtMostOnce(p: Pipe, n: nat, playing1: bool, dt1: real, h1: real, playing2: bool, dt2: real, h2: real)
    requires !Recycles(PipeStep(p, n, playing1, dt1, h1).pipe)
    ensures !(PipeStep(p, n, playing1, dt1, h1).scored
              && PipeStep(PipeStep(p, n, playing1, dt1, h1).pipe, n, playing2, dt2, h2).scored)
  {
    var o1 := PipeStep(p, n, playing1, dt1, h1);
    if o1.scored {
      PassedPipeStaysQuiet(o1.pipe, n, playing2, dt2, h2);
    }
  }

  /** While not playing the pipes stand still, and a recycled pipe moves exactly `n` spacings. */
  lemma PipeMotion(p: Pipe, n: nat, dt: real, height: real)
    ensures !Recycles(p) ==> PipeStep(p, n, false, dt, height).pipe.x == p.x
    ensures Recycles(p) ==> PipeStep(p, n, false, dt, height).pipe.x - p.x == n as real * SPACING
    ensures !Recycles(p) && dt >= 0.0 ==> PipeStep(p, n, true, dt, height).pipe.x <= p.x
  {
  }

  /** How many of the pipes from `i` on score in this update. */
  function Points(pipes: seq<Pipe>, i: nat, playing: bool, dt: real, heights: seq<real>): (k: nat)
    requires i <= |pipes| && |heights| == |pipes|
    ensures k <= |pipes| - i
    decreases |pipes| - i
  {
    if i == |pipes| then 0
    else
      (if PipeStep(pipes[i], |pipes|, playing, dt, heights[i]).scored then 1 else 0)
      + Points(pipes, i + 1, playing, dt, heights)
  }

  /** The points from pipe `i` on depend only on the pipes from `i` on. */
  lemma {:induction false} PointsFrame(a: seq<Pipe>, b: seq<Pipe>, i: nat, playing: bool, dt: real, heights: seq<real>)
    requires i <= |a| == |b| == |heights|
    requires forall j :: i <= j < |a| ==> a[j] == b[j]
    ensures Points(a, i, playing, dt, heights) == Points(b, i, playing, dt, heights)
    decreases |a| - i
  {
    if i < |a| {
      PointsFrame(a, b, i + 1, playing, dt, heights);
    }
  }

  /** `pipes[i].update(dt)`, with `score.inc` (and so perhaps the background change) on a latch. */
  function PipeAt(l: Level, i: nat, dt: real, height: real): (r: Level)
    requires i < |l.pipes|
    requires HandlesDistinct(l.score.sprites)
    ensures var o := PipeStep(l.pipes[i], |l.pipes|, l.state == Playing, dt, height);
      && r.pipes == l.pipes[i := o.pipe]
      && r.score.value == l.score.value + (if o.scored then 1 else 0)
    ensures r == l.(pipes := r.pipes, score := r.score, renderer := r.renderer, background := r.background)
    ensures |r.score.sprites| == |l.score.sprites| && HandlesDistinct(r.score.sprites)
    ensures forall k :: 0 <= k < |l.score.sprites| ==> r.score.sprites[k].handle == l.score.sprites[k].handle
    ensures LevelInv(l) ==> LevelInv(r)
  {
    var o := PipeStep(l.pipes[i], |l.pipes|, l.state == Playing, dt, height);
    if o.scored then
      var b := Inc(l.score, l.renderer, l.background, l.stateTime);
      assert LevelInv(l) ==> Shown(b.score, b.renderer) by {
        if LevelInv(l) { SetScoreShowsDigits(l.score, l.score.value + 1, l.renderer); }
      }
      l.(pipes := l.pipes[i := o.pipe], score := b.score, renderer := b.renderer, background := b.background)
    else l.(pipes := l.pipes[i := o.pipe])
  }

  /** The `for (let pipe of this.level.pipes) pipe.update(dt)` loop, from pipe `i` on. */
  function PipesFrom(l: Level, i: nat, dt: real, heights: seq<real>): (r: Level)
    requires i <= |l.pipes| && |heights| == |l.pipes|
    requires HandlesDistinct(l.score.sprites)
    ensures |r.pipes| == |l.pipes|
    ensures r == l.(pipes := r.pipes, score := r.score, renderer := r.renderer, background := r.background)
    ensures |r.score.sprites| == |l.score.sprites| && HandlesDistinct(r.score.sprites)
    ensures forall k :: 0 <= k < |l.score.sprites| ==> r.score.sprites[k].handle == l.score.sprites[k].handle
    ensures LevelInv(l) ==> LevelInv(r)
    decreases |l.pipes| - i
  {
    if i == |l.pipes| then l
    else PipesFrom(PipeAt(l, i, dt, heights[i]), i + 1, dt, heights)
  }

  /**
   * Over the loop every pipe from `i` on takes its own step, earlier pipes stay,
   * and the score grows by the number of pipes that scored.
   */
  lemma PipesFromMoves(l: Level, i: nat, dt: real, heights: seq<real>)
    requires i <= |l.pipes| && |heights| == |l.pipes|
    requires HandlesDistinct(l.score.sprites)
    ensures var r := PipesFrom(l, i, dt, heights);
      && (forall j :: 0 <= j < i ==> r.pipes[j] == l.pipes[j])
      && (forall j :: i <= j < |l.pipes| ==>
            r.pipes[j] == PipeStep(l.pipes[j], |l.pipes|, l.state == Playing, dt, heights[j]).pipe)
      && r.score.value == l.score.value + Points(l.pipes, i, l.state == Playing, dt, heights)
  {
    PipesFromPipes(l, i, dt, heights);
    PipesFromScore(l, i, dt, heights);
  }

  /** Over the loop every pipe from `i` on takes its own step and earlier pipes stay. */
  lemma {:induction false} PipesFromPipes(l: Level, i: nat, dt: real, heights: seq<real>)
    requires i <= |l.pipes| && |heights| == |l.pipes|
    requires HandlesDistinct(l.score.sprites)
    ensures var r := PipesFrom(l, i, dt, heights);
      && (forall j :: 0 <= j < i ==> r.pipes[j] == l.pipes[j])
      && (forall j :: i <= j < |l.pipes| ==>
            r.pipes[j] == PipeStep(l.pipes[j], |l.pipes|, l.state == Playing, dt, heights[j]).pipe)
    decreases |l.pipes| - i
  {
    if i < |l.pipes| {
      var o := PipeStep(l.pipes[i], |l.pipes|, l.state == Playing, dt, heights[i]);
      var l' := PipeAt(l, i, dt, heights[i]);
      assert l'.state == l.state && l'.pipes == l.pipes[i := o.pipe];
      var r := PipesFrom(l', i + 1, dt, heights);
      assert PipesFrom(l, i, dt, heights) == r;
      PipesFromPipes(l', i + 1, dt, heights);
      assert r.pipes[i] == o.pipe;
      assert forall j :: i < j < |l.pipes| ==> l'.pipes[j] == l.pipes[j];
    }
  }

  /** Over the loop the score grows by the number of pipes that scored. */
  lemma {:induction false} PipesFromScore(l: Level, i: nat, dt: real, heights: seq<real>)
    requires i <= |l.pipes| && |heights| == |l.pipes|
    requires HandlesDistinct(l.score.sprites)
    ensures PipesFrom(l, i, dt, heights).score.value == l.score.value + Points(l.pipes, i, l.state == Playing, dt, heights)
    decreases |l.pipes| - i
  {
    if i < |l.pipes| {
      var playing := l.state == Playing;
      var l' := PipeAt(l, i, dt, heights[i]);
      assert l'.state == l.state;
      assert PipesFrom(l, i, dt, heights) == PipesFrom(l', i + 1, dt, heights);
      PipesFromScore(l', i + 1, dt, heights);
      PointsFrame(l.pipes, l'.pipes, i + 1, playing, dt, heights);
    }
  }

  /** The game-over text appears once `GAMEOVER_SHOW_DELAY` has passed in `gameover`. */
  function ShowGameOverText(l: Level): (r: Level)
    ensures r.gameoverTextVisible <==>
      l.gameoverTextVisible || (l.state == GameOver && l.stateTime - l.stateLastChangeTime >= GAMEOVER_SHOW_DELAY)
    ensures l.gameoverTextVisible ==> r == l
    ensures !l.gameoverTextVisible && r.gameoverTextVisible ==> r.renderer == Add(l.renderer, l.gameoverText)
    ensures r == l.(gameoverTextVisible := r.gameoverTextVisible, renderer := r.renderer)
    ensures LevelInv(l) ==> LevelInv(r)
  {
    if l.state == GameOver && l.stateTime - l.stateLastChangeTime >= GAMEOVER_SHOW_DELAY && !l.gameoverTextVisible then
      var rn := Add(l.renderer, l.gameoverText);
      assert LevelInv(l) ==> Shown(l.score, rn) by {
        if LevelInv(l) { ShownFrame(l.score, l.renderer, rn); }
      }
      l.(gameoverTextVisible := true, renderer := rn)
    else l
  }

  /** What one frame brings: seconds elapsed, the activation edge, the two events, the random heights. */
  datatype Tick = Tick(dt: real, activate: bool, fell: bool, hit: bool, resetHeights: seq<real>, recycleHeights: seq<real>)

  /** `Level.update`: advance the clock, then player, pipes, filter, text, background, in that order. */
  function Update(l: Level, t: Tick): (r: Level)
    requires HandlesDistinct(l.score.sprites)
    requires |t.resetHeights| == |l.pipes| && |t.recycleHeights| == |l.pipes|
    ensures r.stateTime == l.stateTime + t.dt * 1000.0
    ensures |r.pipes| == |l.pipes| && r.gameoverText == l.gameoverText
    ensures |r.score.sprites| == |l.score.sprites| && HandlesDistinct(r.score.sprites)
    ensures LevelInv(l) ==> LevelInv(r)
  {
    Settle(Play(l, t))
  }

  /** The first half of `Level.update`: the clock, the player, the pipes. */
  function Play(l: Level, t: Tick): (r: Level)
    requires HandlesDistinct(l.score.sprites)
    requires |t.resetHeights| == |l.pipes| && |t.recycleHeights| == |l.pipes|
    ensures r.stateTime == l.stateTime + t.dt * 1000.0
    ensures r.state == PlayerUpdate(l.(stateTime := r.stateTime), t.activate, t.fell, t.hit, t.resetHeights).state
    ensures |r.pipes| == |l.pipes| && r.gameoverText == l.gameoverText
    ensures |r.score.sprites| == |l.score.sprites| && HandlesDistinct(r.score.sprites)
    ensures LevelInv(l) ==> LevelInv(r)
  {
    var l1 := l.(stateTime := l.stateTime + t.dt * 1000.0);
    var l2 := PlayerUpdate(l1, t.activate, t.fell, t.hit, t.resetHeights);
    PipesFrom(l2, 0, t.dt, t.recycleHeights)
  }

  /** The second half of `Level.update`: the filter, the game-over text, the background. */
  function Settle(l: Level): (r: Level)
    ensures r.stateTime == l.stateTime && r.state == l.state
    ensures r.pipes == l.pipes && r.gameoverText == l.gameoverText && r.score == l.score
    ensures LevelInv(l) ==> LevelInv(r)
  {
    var l4 := l.(filter := UpdateFilter(l.filter, l.stateTime));
    var l5 := ShowGameOverText(l4);
    l5.(background := UpdateBackground(l5.background, l5.stateTime))
  }

  /**
   * The transition table the frame follows, given the time since the last state
   * change (after the clock has advanced) and the frame's events.
   */
  function NextState(s: State, elapsed: real, activate: bool, fell: bool, hit: bool): State
  {
    match s
    case Ready => if fell || hit then GameOver else if activate then Playing else Ready
    case Playing => if fell || hit then GameOver else Playing
    case GameOver =>
      if activate && elapsed >= 2.0 * GAMEOVER_SHOW_DELAY && !fell && !hit then Ready else GameOver
  }

  /** `Level.update` moves between states exactly as the table says. */
  lemma UpdateFollowsTable(l: Level, t: Tick)
    requires HandlesDistinct(l.score.sprites)
    requires |t.resetHeights| == |l.pipes| && |t.recycleHeights| == |l.pipes|
    ensures Update(l, t).state
      == NextState(l.state, l.stateTime + t.dt * 1000.0 - l.stateLastChangeTime, t.activate, t.fell, t.hit)
  {
    assert Update(l, t).state == Play(l, t).state;
  }

  /** Who is on stage: sprites added before the score, the digit sprites, sprites added after, the text. */
  datatype Cast = Cast(before: seq<Sprite>, digits: seq<Sprite>, after: seq<Sprite>, gameoverText: Sprite)

  /** No sprite of `ss` has identity `id`. */
  predicate Absent(ss: seq<Sprite>, id: nat)
  {
    forall k :: 0 <= k < |ss| ==> ss[k].id != id
  }

  /** `renderer.add` of each sprite in turn. */
  function AddAll(r: Renderer, ss: seq<Sprite>): (r': Renderer)
    ensures forall id :: Absent(ss, id) ==> Occurrences(r', id) == Occurrences(r, id)
    ensures Valid(r) ==> Valid(r')
    decreases |ss|
  {
    if ss == [] then r else AddAll(Add(r, ss[0]), ss[1..])
  }

  /** The cast has no identity twice among the digits and the text, and none of those among the rest. */
  predicate CastDistinct(c: Cast)
  {
    && (forall i, j :: 0 <= i < j < |c.digits| ==> c.digits[i].id != c.digits[j].id)
    && (forall k :: 0 <= k < |c.digits| ==> c.digits[k].id != c.gameoverText.id)
    && (forall k, m :: 0 <= k < |c.before| && 0 <= m < |c.digits| ==> c.before[k].id != c.digits[m].id)
    && (forall k, m :: 0 <= k < |c.after| && 0 <= m < |c.digits| ==> c.after[k].id != c.digits[m].id)
    && (forall k :: 0 <= k < |c.before| ==> c.before[k].id != c.gameoverText.id)
    && (forall k :: 0 <= k < |c.after| ==> c.after[k].id != c.gameoverText.id)
  }

  /**
   * `Level.init`: build the scene on an empty renderer, make the score, and enter
   * `ready` (which also places the pipes).
   */
  function Init(c: Cast, heights: seq<real>): (l: Level)
    requires CastDistinct(c)
    requires |heights| == PIPE_COUNT
    ensures l.state == Ready && l.stateTime == 0.0 && l.stateLastChangeTime == 0.0
    ensures l.score.value == 0 && !l.gameoverTextVisible
    ensures |l.pipes| == PIPE_COUNT
    ensures forall i :: 0 <= i < PIPE_COUNT ==> l.pipes[i] == Pipe(StartX(i), heights[i], false)
    ensures LevelInv(l)
  {
    var l := Stage(c);
    SetStateKeepsInv(l, Ready, heights);
    SetState(l, Ready, heights)
  }

  /** The level as the constructors leave it, just before `setState("ready")`. */
  function Stage(c: Cast): (l: Level)
    requires CastDistinct(c)
    ensures l.stateTime == 0.0 && |l.pipes| == PIPE_COUNT && !l.gameoverTextVisible
    ensures l.score.value == 0 && l.score.activeCount == 1
    ensures LevelInv(l)
  {
    var (sc, r) := StageRenderer(c);
    var pipes := seq(PIPE_COUNT, i requires 0 <= i < PIPE_COUNT => Pipe(StartX(i), 0.0, false));
    Level(Ready, 0.0, 0.0, pipes, sc, DayBackground, IdleFilter, r, c.gameoverText, false)
  }

  /** The renderer after every constructor has added its sprites, and the score they made. */
  function StageRenderer(c: Cast): (res: (Score, Renderer))
    requires CastDistinct(c)
    ensures res.0.value == 0 && res.0.activeCount == 1
    ensures HandlesDistinct(res.0.sprites) && NotAHandle(res.0.sprites, c.gameoverText.id)
    ensures Valid(res.1) && Shown(res.0, res.1) && Occurrences(res.1, c.gameoverText.id) == 0
  {
    var r0 := AddAll(Empty, c.before);
    StageBefore(c);
    var (sc, r1) := NewScore(SCORE_X, SCORE_Y, c.digits, r0);
    var r2 := AddAll(r1, c.after);
    StageAfter(c, sc, r1);
    (sc, r2)
  }

  /** Before the score is made, the renderer is valid and holds none of the digits nor the text. */
  lemma StageBefore(c: Cast)
    requires CastDistinct(c)
    ensures Valid(AddAll(Empty, c.before))
    ensures forall k :: 0 <= k < |c.digits| ==> Occurrences(AddAll(Empty, c.before), c.digits[k].id) == 0
    ensures Occurrences(AddAll(Empty, c.before), c.gameoverText.id) == 0
  {
    EmptyIsValid();
    forall k | 0 <= k < |c.digits|
      ensures Occurrences(AddAll(Empty, c.before), c.digits[k].id) == 0
    {
      assert Absent(c.before, c.digits[k].id);
    }
    assert Absent(c.before, c.gameoverText.id);
  }

  /** The sprites added after the score leave the digits and the text alone. */
  lemma StageAfter(c: Cast, sc: Score, r1: Renderer)
    requires CastDistinct(c)
    requires |sc.sprites| == |c.digits|
    requires forall k :: 0 <= k < |c.digits| ==> sc.sprites[k].handle == c.digits[k]
    requires Shown(sc, r1)
    ensures Shown(sc, AddAll(r1, c.after))
    ensures Occurrences(AddAll(r1, c.after), c.gameoverText.id) == Occurrences(r1, c.gameoverText.id)
  {
    var r2 := AddAll(r1, c.after);
    forall id | !NotAHandle(sc.sprites, id)
      ensures Occurrences(r2, id) == Occurrences(r1, id)
    {
      var m :| 0 <= m < |sc.sprites| && sc.sprites[m].handle.id == id;
      assert Absent(c.after, c.digits[m].id);
    }
    ShownFrame(sc, r1, r2);
    assert Absent(c.after, c.gameoverText.id);
  }
}
