/**
 * The black-hole warp minigame of js/minigame.js: an idle → running →
 * stopped state machine whose per-frame `update` scores frames, ramps the
 * difficulty, moves and spawns gap walls, and ends the run on a collision.
 *
 * The canvas size is fixed at construction; the slider reading and the two
 * `Math.random()` draws of a spawn are parameters of a frame. The success
 * and failure callbacks become the results of the methods that call them.
 * Geometry is exact `real` arithmetic.
 */
module Minigame {
  import opened Wrappers

  const PlayerWidth: real := 20.0
  const TrackWidthRatio: real := 0.5
  const ScorePerFrame: int := 167
  const GracePeriodFrames: int := 60
  const InitialSpawnRate: int := 120
  const MinSpawnRate: int := 30
  const InitialSpeed: real := 4.0
  const SliderRange: int := 100

  /** A wall across the track at height `y`, `h` tall, with a gap of width `gapW` centred `gapX` from the track centre. */
  datatype Obstacle = Obstacle(y: real, h: real, gapX: real, gapW: real)

  datatype Rect = Rect(left: real, right: real, top: real, bottom: real)

  // ---------------------------------------------------------------
  // Difficulty ramp
  // ---------------------------------------------------------------

  /** `4 + floor(f / 480) * 0.5` */
  function BaseSpeedAt(frame: nat): (speed: real)
    ensures speed >= InitialSpeed
  {
    InitialSpeed + (frame / 480) as real * 0.5
  }

  /** `max(30, 120 - floor(f / 600) * 10)` */
  function SpawnIntervalAt(frame: nat): (interval: int)
    ensures MinSpawnRate <= interval <= InitialSpawnRate
  {
    var stepped := InitialSpawnRate - (frame / 600) * 10;
    if stepped < MinSpawnRate then MinSpawnRate else stepped
  }

  /** The game only gets harder: the speed never drops and the spawn interval never grows. */
  lemma DifficultyMonotone(f: nat, g: nat)
    requires f <= g
    ensures BaseSpeedAt(f) <= BaseSpeedAt(g)
    ensures SpawnIntervalAt(g) <= SpawnIntervalAt(f)
  {
    StepMonotone(f, g, 480);
    StepMonotone(f, g, 600);
  }

  /** The number of whole steps of `step` frames never decreases. */
  lemma StepMonotone(f: nat, g: nat, step: nat)
    requires f <= g && (step == 480 || step == 600)
    ensures f / step <= g / step
  {
    var q, p := f / step, g / step;
    if step == 480 {
      assert 480 * q <= f && g < 480 * p + 480;
    } else {
      assert 600 * q <= f && g < 600 * p + 600;
    }
  }

  /** From frame 5400 on, walls come every 30 frames. */
  lemma SpawnIntervalFloor(f: nat)
    requires f >= 5400
    ensures SpawnIntervalAt(f) == MinSpawnRate
  {
    StepMonotone(5400, f, 600);
  }

  /** A wall is spawned on frame f when the grace period is over and f is a multiple of the interval. */
  predicate SpawnsAt(frame: nat) {
    frame > GracePeriodFrames && frame % SpawnIntervalAt(frame) == 0
  }

  // ---------------------------------------------------------------
  // Geometry
  // ---------------------------------------------------------------

  function TrackWidth(canvasWidth: real): real {
    canvasWidth * TrackWidthRatio
  }

  /** How far the player may sit from the track centre: half the track less half the player. */
  function MaxDeviation(canvasWidth: real): real {
    TrackWidth(canvasWidth) / 2.0 - PlayerWidth / 2.0
  }

  /** `getCanvasX`: a track-relative x in canvas coordinates; the track is centred on the canvas. */
  function CanvasX(canvasWidth: real, x: real): (cx: real)
    ensures cx == canvasWidth / 2.0 + x
  {
    var trackW := TrackWidth(canvasWidth);
    var trackLeft := (canvasWidth - trackW) / 2.0;
    trackLeft + trackW / 2.0 + x
  }

  /** The player's rectangle: 20 wide, 30 tall, its bottom 20% of the canvas height above the bottom edge. */
  function PlayerRect(playerX: real, canvasWidth: real, canvasHeight: real): Rect {
    var px := CanvasX(canvasWidth, playerX);
    var height := PlayerWidth * 1.5;
    var top := canvasHeight - canvasHeight * 0.2 - height;
    Rect(px - PlayerWidth / 2.0, px + PlayerWidth / 2.0, top, top + height)
  }

  /** The collision rule of `checkCollisions` for one wall. */
  predicate Collides(o: Obstacle, playerX: real, canvasWidth: real, canvasHeight: real) {
    var p := PlayerRect(playerX, canvasWidth, canvasHeight);
    var centre := CanvasX(canvasWidth, o.gapX);
    var gapLeft := centre - o.gapW / 2.0;
    var gapRight := centre + o.gapW / 2.0;
    o.y + o.h > p.top && o.y < p.bottom && (p.left < gapLeft || p.right > gapRight)
  }

  /**
   * Collision in track coordinates: the wall overlaps the player's rows
   * (strictly) and the player's 20-wide body is not inside the gap. The
   * canvas width plays no part.
   */
  lemma CollisionTrackRelative(o: Obstacle, playerX: real, canvasWidth: real, canvasHeight: real)
    ensures Collides(o, playerX, canvasWidth, canvasHeight) <==>
      && o.y + o.h > canvasHeight * 0.8 - 30.0
      && o.y < canvasHeight * 0.8
      && (playerX - 10.0 < o.gapX - o.gapW / 2.0 || playerX + 10.0 > o.gapX + o.gapW / 2.0)
  {
  }

  /**
   * With the slider in [-100, 100] and a track at least as wide as the player,
   * the player's body stays inside the track.
   */
  lemma PlayerInsideTrack(canvasWidth: real, slider: int)
    requires -SliderRange <= slider <= SliderRange && TrackWidth(canvasWidth) >= PlayerWidth
    ensures var x := MaxDeviation(canvasWidth) * (slider as real / 100.0);
      && -MaxDeviation(canvasWidth) <= x <= MaxDeviation(canvasWidth)
      && -TrackWidth(canvasWidth) / 2.0 <= x - PlayerWidth / 2.0
      && x + PlayerWidth / 2.0 <= TrackWidth(canvasWidth) / 2.0
  {
    var m := MaxDeviation(canvasWidth);
    var t := slider as real / 100.0;
    assert -1.0 <= t <= 1.0 && m >= 0.0;
    MulNonNegative(m, 1.0 - t);
    MulNonNegative(m, 1.0 + t);
  }

  lemma MulNonNegative(a: real, b: real)
    requires a >= 0.0 && b >= 0.0
    ensures a * b >= 0.0
  {
  }

  // ---------------------------------------------------------------
  // Obstacles
  // ---------------------------------------------------------------

  /**
   * A new wall at y = -10, 30 tall, with a gap 0.25..0.6 of the track wide
   * placed wholly inside the track; `widthDraw` and `centreDraw` are the two draws.
   */
  function NewObstacle(trackW: real, widthDraw: real, centreDraw: real): (o: Obstacle)
    requires trackW >= 0.0 && 0.0 <= widthDraw < 1.0 && 0.0 <= centreDraw < 1.0
    ensures o.y == -10.0 && o.h == 30.0
    ensures trackW * 0.25 <= o.gapW <= trackW * 0.6
    ensures -trackW / 2.0 <= o.gapX - o.gapW / 2.0 && o.gapX + o.gapW / 2.0 <= trackW / 2.0
  {
    var minGapW := trackW * 0.25;
    var maxGapW := trackW * 0.6;
    var spread := maxGapW - minGapW;
    MulNonNegative(spread, 1.0 - widthDraw);
    MulNonNegative(spread, widthDraw);
    var gapWidth := minGapW + widthDraw * spread;
    var trackHalfW := trackW / 2.0;
    var minGapCentre := -trackHalfW + gapWidth / 2.0;
    var maxGapCentre := trackHalfW - gapWidth / 2.0;
    var room := maxGapCentre - minGapCentre;
    assert room >= 0.0;
    MulNonNegative(room, 1.0 - centreDraw);
    MulNonNegative(room, centreDraw);
    var gapCentre := minGapCentre + centreDraw * room;
    Obstacle(-10.0, 30.0, gapCentre, gapWidth)
  }

  /** Every wall moved down by `dy`. */
  function Moved(obstacles: seq<Obstacle>, dy: real): seq<Obstacle> {
    seq(|obstacles|, i requires 0 <= i < |obstacles| => obstacles[i].(y := obstacles[i].y + dy))
  }

  /** `filter(obs => obs.y < canvasHeight)` */
  function OnScreen(obstacles: seq<Obstacle>, height: real): seq<Obstacle> {
    if |obstacles| == 0 then []
    else
      var last := obstacles[|obstacles| - 1];
      OnScreen(obstacles[..|obstacles| - 1], height) + (if last.y < height then [last] else [])
  }

  /** The filter keeps exactly the walls above the bottom edge and drops the rest. */
  lemma {:induction false} OnScreenSpec(obstacles: seq<Obstacle>, height: real)
    ensures |OnScreen(obstacles, height)| <= |obstacles|
    ensures forall o :: o in OnScreen(obstacles, height) <==> o in obstacles && o.y < height
  {
    if |obstacles| > 0 {
      var init := obstacles[..|obstacles| - 1];
      OnScreenSpec(init, height);
      assert obstacles == init + [obstacles[|obstacles| - 1]];
    }
  }

  // ---------------------------------------------------------------
  // WarpMinigame
  // ---------------------------------------------------------------

  class WarpMinigame {
    const canvasWidth: real
    const canvasHeight: real
    var isRunning: bool
    var score: int
    var playerX: real
    var obstacles: seq<Obstacle>
    var obstacleSpawnRate: int
    var frameCount: nat
    var baseSpeed: real
    var gameSpeed: real

    ghost predicate Valid()
      reads this
    {
      && canvasWidth >= 0.0 && canvasHeight >= 0.0
      && MinSpawnRate <= obstacleSpawnRate <= InitialSpawnRate
      && baseSpeed >= InitialSpeed && gameSpeed >= InitialSpeed
    }

    constructor (canvasWidth: real, canvasHeight: real)
      requires canvasWidth >= 0.0 && canvasHeight >= 0.0
      ensures Valid() && this.canvasWidth == canvasWidth && this.canvasHeight == canvasHeight
      ensures !isRunning && score == 0 && playerX == 0.0 && obstacles == []
      ensures obstacleSpawnRate == InitialSpawnRate && frameCount == 0
      ensures baseSpeed == InitialSpeed && gameSpeed == InitialSpeed
    {
      this.canvasWidth := canvasWidth;
      this.canvasHeight := canvasHeight;
      isRunning := false;
      score := 0;
      playerX := 0.0;
      obstacles := [];
      obstacleSpawnRate := InitialSpawnRate;
      frameCount := 0;
      baseSpeed := InitialSpeed;
      gameSpeed := InitialSpeed;
    }

    /** `getCanvasX` */
    function GetCanvasX(x: real): (cx: real)
      reads this
      ensures cx == canvasWidth / 2.0 + x
    {
      CanvasX(canvasWidth, x)
    }

    /**
     * One frame of `update`. Not running: nothing happens. Running: the player
     * follows the slider, the score becomes 167 per elapsed frame, speed and
     * spawn interval follow the ramp, the walls move down by the speed and
     * those past the bottom edge go, a wall is spawned when SpawnsAt says so,
     * collisions are checked, and the frame counter advances. `crashed` is
     * the failure callback firing.
     */
    method Update(slider: int, widthDraw: real, centreDraw: real) returns (crashed: bool)
      requires Valid() && 0.0 <= widthDraw < 1.0 && 0.0 <= centreDraw < 1.0
      modifies this
      ensures Valid()
      ensures !old(isRunning) ==> !crashed && unchanged(this)
      ensures old(isRunning) ==>
        && playerX == MaxDeviation(canvasWidth) * (slider as real / 100.0)
        && score == old(frameCount) * ScorePerFrame
        && baseSpeed == BaseSpeedAt(old(frameCount)) && gameSpeed == baseSpeed
        && obstacleSpawnRate == SpawnIntervalAt(old(frameCount))
        && obstacles == OnScreen(Moved(old(obstacles), gameSpeed), canvasHeight)
                        + (if SpawnsAt(old(frameCount)) then [NewObstacle(TrackWidth(canvasWidth), widthDraw, centreDraw)] else [])
        && (crashed <==> canvasWidth != 0.0 && exists i :: 0 <= i < |obstacles| && Collides(obstacles[i], playerX, canvasWidth, canvasHeight))
        && isRunning == !crashed
        && frameCount == old(frameCount) + 1
    {
      if !isRunning {
        return false;
      }
      playerX := MaxDeviation(canvasWidth) * (slider as real / 100.0);
      score := frameCount * ScorePerFrame;
      baseSpeed := BaseSpeedAt(frameCount);
      gameSpeed := baseSpeed;
      obstacleSpawnRate := SpawnIntervalAt(frameCount);
      MoveObstacles();
      DropPassedObstacles();
      if frameCount > GracePeriodFrames && frameCount % obstacleSpawnRate == 0 {
        obstacles := obstacles + [NewObstacle(TrackWidth(canvasWidth), widthDraw, centreDraw)];
      }
      crashed := CheckCollisions();
      frameCount := frameCount + 1;
    }

    /** `obstacles.forEach(obs => obs.y += gameSpeed)` */
    method MoveObstacles()
      modifies this`obstacles
      ensures obstacles == Moved(old(obstacles), gameSpeed)
    {
      var i := 0;
      while i < |obstacles|
        invariant 0 <= i <= |obstacles| == |old(obstacles)|
        invariant forall j :: 0 <= j < i ==> obstacles[j] == old(obstacles)[j].(y := old(obstacles)[j].y + gameSpeed)
        invariant forall j :: i <= j < |obstacles| ==> obstacles[j] == old(obstacles)[j]
      {
        obstacles := obstacles[i := obstacles[i].(y := obstacles[i].y + gameSpeed)];
        i := i + 1;
      }
    }

    /** `obstacles = obstacles.filter(obs => obs.y < canvas.height)` */
    method DropPassedObstacles()
      modifies this`obstacles
      ensures obstacles == OnScreen(old(obstacles), canvasHeight)
    {
      var kept := [];
      var i := 0;
      while i < |obstacles|
        invariant 0 <= i <= |obstacles| && obstacles == old(obstacles)
        invariant kept == OnScreen(obstacles[..i], canvasHeight)
      {
        assert obstacles[..i + 1][..i] == obstacles[..i];
        if obstacles[i].y < canvasHeight {
          kept := kept + [obstacles[i]];
        }
        i := i + 1;
      }
      assert obstacles[..i] == obstacles;
      obstacles := kept;
    }

    /**
     * `checkCollisions`: with a zero-width canvas nothing is checked; otherwise
     * the first wall that hits the player ends the game.
     */
    method CheckCollisions() returns (crashed: bool)
      modifies this`isRunning
      ensures crashed <==> canvasWidth != 0.0 && exists i :: 0 <= i < |obstacles| && Collides(obstacles[i], playerX, canvasWidth, canvasHeight)
      ensures isRunning == if crashed then false else old(isRunning)
    {
      if canvasWidth == 0.0 {
        return false;
      }
      var i := 0;
      while i < |obstacles|
        invariant 0 <= i <= |obstacles|
        invariant forall j :: 0 <= j < i ==> !Collides(obstacles[j], playerX, canvasWidth, canvasHeight)
        invariant isRunning == old(isRunning)
      {
        if Collides(obstacles[i], playerX, canvasWidth, canvasHeight) {
          GameOver();
          assert Collides(obstacles[i], playerX, canvasWidth, canvasHeight);
          return true;
        }
        i := i + 1;
      }
      return false;
    }

    /** `gameOver`: the run stops; the caller reports the failure, with no score. */
    method GameOver()
      modifies this`isRunning
      ensures !isRunning
    {
      isRunning := false;
    }

    /** `warpOut`: a running game stops and hands its score to the success callback; otherwise nothing. */
    method WarpOut() returns (claimed: Option<int>)
      modifies this`isRunning
      ensures !old(isRunning) ==> claimed == None && !isRunning
      ensures old(isRunning) ==> claimed == Some(score) && !isRunning
    {
      if !isRunning {
        return None;
      }
      isRunning := false;
      return Some(score);
    }

    /**
     * `start`: a no-op while running. Otherwise score, player, walls and frame
     * counter are reset, the run starts, and `gameLoop` runs its first frame at
     * once with the slider at 0; that frame (frame 0) scores 0, spawns nothing
     * and cannot collide.
     */
    method Start()
      requires Valid()
      modifies this
      ensures Valid()
      ensures old(isRunning) ==> unchanged(this)
      ensures !old(isRunning) ==>
        && isRunning && score == 0 && playerX == 0.0 && obstacles == [] && frameCount == 1
        && baseSpeed == InitialSpeed && gameSpeed == InitialSpeed && obstacleSpawnRate == InitialSpawnRate
    {
      if isRunning {
        return;
      }
      score := 0;
      playerX := 0.0;
      obstacles := [];
      frameCount := 0;
      gameSpeed := baseSpeed;
      isRunning := true;
      var crashed := Update(0, 0.0, 0.0);
      assert OnScreen([], canvasHeight) == [];
    }
  }
}
