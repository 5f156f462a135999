/** The game engine of src/hooks/useGameLogic.ts: the closure state of the hook
    as the fields of one object, and its entry points (start, key press, one
    animation frame, end of a level transition) as methods. Random numbers and
    the clock are parameters. */
module Engine {
  import opened Geometry
  import opened Vessel
  import opened Wake
  import opened Obstacles
  import opened Collision

  /** Per-frame fade of the goal-zone highlight. */
  const GoalFade: real := 0.02

  /** One frame of the goal-zone highlight: it fades while it is positive. */
  function FadeGoal(g: real): (r: real)
    ensures g > 0.0 ==> r == g - GoalFade
    ensures g <= 0.0 ==> r == g
  {
    if g > 0.0 then g - GoalFade else g
  }

  /** The highlight only ever fades while positive, so from any value in
      (-GoalFade, 1] it stays in that range. */
  lemma FadeGoalInRange(g: real)
    requires -GoalFade < g <= 1.0
    ensures -GoalFade < FadeGoal(g) <= 1.0
    ensures FadeGoal(g) <= g
  {
  }

  /** Fifty frames take a full highlight exactly to zero, where it stays. */
  lemma {:induction false} FadeGoalSteps(n: nat)
    requires n <= 50
    ensures FadeGoalN(1.0, n) == 1.0 - (n as real) * GoalFade
    decreases n
  {
    if n > 0 {
      FadeGoalSteps(n - 1);
      assert (n as real) * GoalFade == ((n - 1) as real) * GoalFade + GoalFade;
    }
  }

  function FadeGoalN(g: real, n: nat): real
    decreases n
  {
    if n == 0 then g else FadeGoal(FadeGoalN(g, n - 1))
  }

  lemma FadeGoalSettles()
    ensures FadeGoalN(1.0, 50) == 0.0
    ensures FadeGoal(0.0) == 0.0
  {
    FadeGoalSteps(50);
  }

  class GameEngine {
    /** canvas width / 800 and canvas height / 600. */
    const scaleX: real
    const scaleY: real
    const canvasWidth: real
    const canvasHeight: real

    var player: Player
    var obstacles: seq<Obstacle>
    var wakeParticles: seq<Particle>
    var currentScore: int
    var currentLevel: int
    var isTransitioning: bool
    var isGameOver: bool
    var goalAnimation: real
    var lastMoveTime: int

    /** What every entry point keeps. */
    ghost predicate Valid()
      reads this
    {
      && scaleX > 0.0 && scaleY > 0.0
      && canvasWidth == BaseWidth * scaleX && canvasHeight == BaseHeight * scaleY
      && currentLevel >= 1 && currentScore >= 0
      && -GoalFade < goalAnimation <= 1.0
      && AllWellFormed(obstacles, canvasWidth)
      && Alive(wakeParticles)
    }

    /** The ship has its scaled size and lies on the canvas (from the first
        start on). */
    ghost predicate ShipOnCanvas()
      reads this
    {
      && player.width == 80.0 * scaleX && player.height == 30.0 * scaleY
      && InBounds(player, canvasWidth, canvasHeight)
    }

    /** The state when the hook is set up: the ship still has its unscaled
        start values, and the last move time is the current time. */
    constructor(width: real, height: real, now: int)
      requires width > 0.0 && height > 0.0
      ensures Valid()
      ensures scaleX == width / BaseWidth && scaleY == height / BaseHeight
      ensures canvasWidth == width && canvasHeight == height
      ensures player == Player(400.0, 550.0, 80.0, 30.0, 400.0, 550.0, 0.0, 0.0, Up)
      ensures obstacles == [] && wakeParticles == []
      ensures currentScore == 0 && currentLevel == 1
      ensures !isTransitioning && !isGameOver
      ensures goalAnimation == 0.0 && lastMoveTime == now
    {
      scaleX := width / BaseWidth;
      scaleY := height / BaseHeight;
      canvasWidth := width;
      canvasHeight := height;
      player := Player(400.0, 550.0, 80.0, 30.0, 400.0, 550.0, 0.0, 0.0, Up);
      obstacles := [];
      wakeParticles := [];
      currentScore := 0;
      currentLevel := 1;
      isTransitioning := false;
      isGameOver := false;
      goalAnimation := 0.0;
      lastMoveTime := now;
    }

    /** The collision test of a frame: never while a level transition runs. */
    function CheckCollision(): (r: bool)
      reads this
      ensures r <==> !isTransitioning && exists i :: 0 <= i < |obstacles| && Hits(player, obstacles[i], scaleX)
    {
      !isTransitioning && Collides(player, obstacles, scaleX)
    }

    /** Every particle moves, grows and fades by one frame; the ones still
        visible are kept, in order. */
    method UpdateWakeParticles()
      requires Valid()
      modifies this
      ensures Valid()
      ensures wakeParticles == AdvanceAll(old(wakeParticles), scaleX)
      ensures player == old(player) && obstacles == old(obstacles)
      ensures currentScore == old(currentScore) && currentLevel == old(currentLevel)
      ensures isTransitioning == old(isTransitioning) && isGameOver == old(isGameOver)
      ensures goalAnimation == old(goalAnimation) && lastMoveTime == old(lastMoveTime)
    {
      var ps := wakeParticles;
      var kept: seq<Particle> := [];
      var i := 0;
      while i < |ps|
        invariant 0 <= i <= |ps|
        invariant kept == AdvanceAll(ps[..i], scaleX)
      {
        var q := Advance(ps[i], scaleX);
        assert ps[..i + 1][..i] == ps[..i];
        if q.alpha > 0.0 {
          kept := kept + [q];
        }
        i := i + 1;
      }
      assert ps[..|ps|] == ps;
      AdvanceAllKeepsAlive(ps, scaleX);
      wakeParticles := kept;
    }

    /** Outside a transition every hazard moves one frame (in place, one after
        the other); during a transition nothing changes. */
    method UpdateObstacles()
      requires Valid()
      modifies this
      ensures Valid()
      ensures obstacles == if old(isTransitioning) then old(obstacles) else MoveAll(old(obstacles), canvasWidth)
      ensures player == old(player) && wakeParticles == old(wakeParticles)
      ensures currentScore == old(currentScore) && currentLevel == old(currentLevel)
      ensures isTransitioning == old(isTransitioning) && isGameOver == old(isGameOver)
      ensures goalAnimation == old(goalAnimation) && lastMoveTime == old(lastMoveTime)
    {
      if isTransitioning {
        return;
      }
      var os := obstacles;
      var moved := os;
      var i := 0;
      while i < |os|
        invariant 0 <= i <= |os| && |moved| == |os|
        invariant forall k :: 0 <= k < i ==> moved[k] == MoveObstacle(os[k], canvasWidth)
        invariant forall k :: i <= k < |os| ==> moved[k] == os[k]
      {
        moved := moved[i := MoveObstacle(moved[i], canvasWidth)];
        i := i + 1;
      }
      assert moved == MoveAll(os, canvasWidth);
      MoveAllWellFormed(os, canvasWidth);
      obstacles := moved;
    }

    /** The level is won: the transition flag is raised and the goal zone lights
        up. The rest happens when the transition's timer fires. */
    method StartLevelTransition()
      modifies this
      ensures isTransitioning && goalAnimation == 1.0
      ensures player == old(player) && obstacles == old(obstacles) && wakeParticles == old(wakeParticles)
      ensures currentScore == old(currentScore) && currentLevel == old(currentLevel)
      ensures isGameOver == old(isGameOver) && lastMoveTime == old(lastMoveTime)
    {
      isTransitioning := true;
      goalAnimation := 1.0;
    }

    /** The state part of one animation frame: fade the goal highlight, advance
        the wake, move the hazards, then test for a collision (which ends the
        game and skips the goal test) and for the ship having crossed into the
        goal band above y = 50 (which starts a transition unless one runs).
        A collision schedules no further frame, so frames only run while the
        game is on. */
    method Tick()
      requires Valid() && !isGameOver
      modifies this
      ensures Valid()
      ensures wakeParticles == AdvanceAll(old(wakeParticles), scaleX)
      ensures obstacles == if old(isTransitioning) then old(obstacles) else MoveAll(old(obstacles), canvasWidth)
      ensures var hit := !old(isTransitioning) && Collides(old(player), obstacles, scaleX);
        var goal := !hit && old(player).y < 50.0 * scaleY && !old(isTransitioning);
        && isGameOver == hit
        && isTransitioning == (old(isTransitioning) || goal)
        && goalAnimation == (if goal then 1.0 else FadeGoal(old(goalAnimation)))
      ensures player == old(player)
      ensures currentScore == old(currentScore) && currentLevel == old(currentLevel)
      ensures lastMoveTime == old(lastMoveTime)
    {
      goalAnimation := FadeGoal(goalAnimation);
      UpdateWakeParticles();
      UpdateObstacles();
      if CheckCollision() {
        isGameOver := true;
        return;
      }
      if player.y < 50.0 * scaleY && !isTransitioning {
        StartLevelTransition();
      }
    }

    /** A press of `key` at time `now`. Ignored once the game is over or while a
        transition runs. Otherwise, when more than 32 ms passed since the last
        spawn, three wake particles appear behind the ship as it was before the
        press; then the ship moves by 15 * scaleX, and an up press that ends
        above the recorded history scores a point. */
    method HandleKey(key: string, now: int, draws: seq<ParticleDraw>)
      requires Valid() && |draws| == ParticleCount && ValidParticleDraws(draws)
      modifies this
      ensures Valid()
      ensures old(isGameOver) || old(isTransitioning) ==>
        && player == old(player) && wakeParticles == old(wakeParticles)
        && currentScore == old(currentScore) && lastMoveTime == old(lastMoveTime)
      ensures !old(isGameOver) && !old(isTransitioning) ==>
        var spawn := now - old(lastMoveTime) > SpawnInterval;
        && wakeParticles == old(wakeParticles) + (if spawn then Spawned(old(player), draws, scaleX, scaleY) else [])
        && lastMoveTime == (if spawn then now else old(lastMoveTime))
        && player == KeyMove(old(player), key, MoveDistance * scaleX, canvasWidth, canvasHeight)
        && currentScore == old(currentScore) + ScoreDelta(old(player), key, MoveDistance * scaleX, canvasWidth, canvasHeight)
      ensures obstacles == old(obstacles) && currentLevel == old(currentLevel)
      ensures isTransitioning == old(isTransitioning) && isGameOver == old(isGameOver)
      ensures goalAnimation == old(goalAnimation)
      ensures old(ShipOnCanvas()) ==> ShipOnCanvas()
    {
      if isGameOver || isTransitioning {
        return;
      }
      var step := MoveDistance * scaleX;
      if now - lastMoveTime > SpawnInterval {
        CreateWakeParticles(draws);
        lastMoveTime := now;
      }
      var before := player;
      player := KeyMove(player, key, step, canvasWidth, canvasHeight);
      currentScore := currentScore + ScoreDelta(before, key, step, canvasWidth, canvasHeight);
      if old(ShipOnCanvas()) {
        MulMonotone(0.0, MoveDistance, scaleX);
        KeyMoveStaysOnCanvas(before, key, step, canvasWidth, canvasHeight);
      }
    }

    /** Appends one particle per draw behind the current ship. */
    method CreateWakeParticles(draws: seq<ParticleDraw>)
      requires Valid() && ValidParticleDraws(draws)
      modifies this
      ensures Valid()
      ensures wakeParticles == old(wakeParticles) + Spawned(player, draws, scaleX, scaleY)
      ensures player == old(player) && obstacles == old(obstacles)
      ensures currentScore == old(currentScore) && currentLevel == old(currentLevel)
      ensures isTransitioning == old(isTransitioning) && isGameOver == old(isGameOver)
      ensures goalAnimation == old(goalAnimation) && lastMoveTime == old(lastMoveTime)
    {
      var ps := wakeParticles;
      for i := 0 to |draws|
        invariant ps == old(wakeParticles) + Spawned(player, draws[..i], scaleX, scaleY)
        invariant Alive(ps)
      {
        ps := ps + [SpawnParticle(player, draws[i], scaleX, scaleY)];
      }
      assert draws[..|draws|] == draws;
      wakeParticles := ps;
    }

    /** The obstacles of the current level replace the old ones. */
    method CreateObstacles(draws: seq<seq<ObstacleDraw>>)
      requires Valid() && Shaped(currentLevel, draws) && ValidFieldDraws(draws)
      modifies this
      ensures Valid() && currentLevel == old(currentLevel)
      ensures obstacles == Generate(currentLevel, draws, scaleX, scaleY)
      ensures player == old(player) && wakeParticles == old(wakeParticles)
      ensures currentScore == old(currentScore)
      ensures isTransitioning == old(isTransitioning) && isGameOver == old(isGameOver)
      ensures goalAnimation == old(goalAnimation) && lastMoveTime == old(lastMoveTime)
    {
      obstacles := Generate(currentLevel, draws, scaleX, scaleY);
      GeneratedLayout(currentLevel, draws, scaleX, scaleY);
    }

    /** A new game: level 1, score 0, no wake, the ship at its scaled start with
        its old heading and velocity, a fresh level-1 field, and then the first
        frame, which can neither end the game nor win the level. The goal
        highlight and the last move time carry over from before. */
    method Init(draws: seq<seq<ObstacleDraw>>)
      requires Valid() && Shaped(1, draws) && ValidFieldDraws(draws)
      modifies this
      ensures Valid() && ShipOnCanvas()
      ensures player == old(player).(x := 400.0 * scaleX, y := 550.0 * scaleY,
                                     lastX := 400.0 * scaleX, lastY := 550.0 * scaleY,
                                     width := 80.0 * scaleX, height := 30.0 * scaleY)
      ensures obstacles == MoveAll(Generate(1, draws, scaleX, scaleY), canvasWidth)
      ensures wakeParticles == []
      ensures currentScore == 0 && currentLevel == 1
      ensures !isTransitioning && !isGameOver
      ensures goalAnimation == FadeGoal(old(goalAnimation)) && lastMoveTime == old(lastMoveTime)
    {
      assert canvasWidth == 800.0 * scaleX && canvasHeight == 600.0 * scaleY;
      isGameOver := false;
      currentLevel := 1;
      currentScore := 0;
      wakeParticles := [];
      isTransitioning := false;
      player := player.(x := 400.0 * scaleX, y := 550.0 * scaleY,
                        lastX := 400.0 * scaleX, lastY := 550.0 * scaleY,
                        width := 80.0 * scaleX, height := 30.0 * scaleY);
      CreateObstacles(draws);
      FirstFieldClear(draws, scaleX, scaleY, player);
      assert !Collides(player, MoveAll(obstacles, canvasWidth), scaleX);
      assert !(player.y < 50.0 * scaleY);
      Tick();
    }

    /** The end of a level transition (the timer body): next level, the ship
        back at the start height with matching history, x and score kept, a
        fresh field, and the flag cleared. */
    method FinishTransition(draws: seq<seq<ObstacleDraw>>)
      requires Valid() && Shaped(currentLevel + 1, draws) && ValidFieldDraws(draws)
      modifies this
      ensures Valid()
      ensures currentLevel == old(currentLevel) + 1
      ensures player == old(player).(y := 550.0 * scaleY, lastY := 550.0 * scaleY)
      ensures obstacles == Generate(currentLevel, draws, scaleX, scaleY)
      ensures !isTransitioning
      ensures wakeParticles == old(wakeParticles) && currentScore == old(currentScore)
      ensures isGameOver == old(isGameOver) && goalAnimation == old(goalAnimation)
      ensures lastMoveTime == old(lastMoveTime)
      ensures old(ShipOnCanvas()) ==> ShipOnCanvas()
    {
      currentLevel := currentLevel + 1;
      player := player.(y := 550.0 * scaleY, lastY := 550.0 * scaleY);
      CreateObstacles(draws);
      isTransitioning := false;
    }
  }

  /** The level-1 field is one hazard in the row at y = 100 * scaleY, at most
      60 * scaleY tall, so even after one frame of movement it lies wholly above
      a ship at the start height: a new game cannot end on its first frame. */
  lemma FirstFieldClear(ds: seq<seq<ObstacleDraw>>, scaleX: real, scaleY: real, p: Player)
    requires Shaped(1, ds) && ValidFieldDraws(ds) && scaleX > 0.0 && scaleY > 0.0
    requires p.y == 550.0 * scaleY
    ensures !Collides(p, MoveAll(Generate(1, ds, scaleX, scaleY), BaseWidth * scaleX), scaleX)
  {
    var os := Generate(1, ds, scaleX, scaleY);
    var c := GetLevelConfig(1, scaleX, scaleY);
    GeneratedLayout(1, ds, scaleX, scaleY);
    assert RowY(0, c, scaleY) == 100.0 * scaleY;
    var moved := MoveAll(os, BaseWidth * scaleX);
    forall k | 0 <= k < |moved|
      ensures moved[k].y + moved[k].height <= 160.0 * scaleY
    {
      assert os[k] in os;
    }
    ClearAbove(p, moved, scaleX);
  }
}
