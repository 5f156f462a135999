/** The earlier, simpler engine of src/hooks/useGameLogic.tsx: a fixed 800 x 600
    field, four lanes of one hazard each, unpadded collision, 20-unit moves and
    100 points for every crossing. */
module Classic {
  import opened Geometry

  /** The ship's facing: only sideways presses set it, and it starts unset. */
  datatype Facing = Unset | FacingLeft | FacingRight

  datatype Ship = Ship(x: real, y: real, width: real, height: real, facing: Facing)

  datatype Hazard = Hazard(x: real, y: real, width: real, height: real, speed: real, direction: int)

  /** The three random numbers one hazard draws, in the order the source draws
      them: x, extra speed, direction. */
  datatype HazardDraw = HazardDraw(x: real, speed: real, direction: real)

  predicate ValidHazardDraws(ds: seq<HazardDraw>)
  {
    forall i :: 0 <= i < |ds| ==> InUnit(ds[i].x) && InUnit(ds[i].speed) && InUnit(ds[i].direction)
  }

  const FieldWidth: real := 800.0
  const Lanes: seq<real> := [100.0, 200.0, 300.0, 400.0]
  const Step: real := 20.0
  const MaxX: real := 740.0
  const MaxY: real := 570.0
  const StartY: real := 550.0
  const GoalLine: real := 50.0
  const CrossingBonus: int := 100

  /** The hazard of lane y. */
  function MakeHazard(d: HazardDraw, y: real): (h: Hazard)
    ensures h.y == y && h.width == 80.0 && h.height == 40.0
    ensures h.direction == 1 <==> d.direction > 0.5
    ensures h.direction == 1 || h.direction == -1
    ensures InUnit(d.x) && InUnit(d.speed) ==> 0.0 <= h.x < 700.0 && 2.0 <= h.speed < 4.0
  {
    Hazard(d.x * 700.0, y, 80.0, 40.0, 2.0 + d.speed * 2.0, if d.direction > 0.5 then 1 else -1)
  }

  /** One hazard per lane (the source maps over the lanes). */
  function CreateHazards(ds: seq<HazardDraw>): (hs: seq<Hazard>)
    requires |ds| == |Lanes|
    ensures |hs| == 4
    ensures forall i :: 0 <= i < 4 ==> hs[i] == MakeHazard(ds[i], Lanes[i])
  {
    seq(|Lanes|, i requires 0 <= i < |Lanes| => MakeHazard(ds[i], Lanes[i]))
  }

  /** The field: exactly four hazards, the i-th in lane 100 * (i + 1), each
      80 x 40 with a unit direction, starting on [0, 700) at speed in [2, 4). */
  lemma CreateHazardsLayout(ds: seq<HazardDraw>)
    requires |ds| == 4 && ValidHazardDraws(ds)
    ensures var hs := CreateHazards(ds);
      forall i :: 0 <= i < 4 ==>
        && hs[i].y == 100.0 * (i + 1) as real
        && hs[i].width == 80.0 && hs[i].height == 40.0
        && (hs[i].direction == 1 || hs[i].direction == -1)
        && 0.0 <= hs[i].x < 700.0 && 2.0 <= hs[i].speed < 4.0
  {
  }

  /** One frame of a hazard: advance, then wrap once fully off either edge of
      the 800-wide field. */
  function MoveHazard(h: Hazard): (r: Hazard)
    ensures r.(x := h.x) == h
    ensures h.width >= 0.0 ==> -h.width <= r.x <= FieldWidth
    ensures var x := h.x + h.speed * h.direction as real;
      && (-h.width <= x <= FieldWidth ==> r.x == x)
      && (x > FieldWidth && h.width >= 0.0 ==> r.x == -h.width)
      && (x < -h.width && h.width >= 0.0 ==> r.x == FieldWidth)
  {
    var x1 := h.x + h.speed * h.direction as real;
    var x2 := if x1 > FieldWidth then -h.width else x1;
    h.(x := if x2 < -h.width then FieldWidth else x2)
  }

  function MoveHazards(hs: seq<Hazard>): (r: seq<Hazard>)
    ensures |r| == |hs|
    ensures forall i :: 0 <= i < |hs| ==> r[i] == MoveHazard(hs[i])
  {
    seq(|hs|, i requires 0 <= i < |hs| => MoveHazard(hs[i]))
  }

  /** The unpadded rectangles overlap strictly on all four sides. */
  function Touches(s: Ship, h: Hazard): (r: bool)
    ensures r <==>
      && s.x < h.x + h.width && s.x + s.width > h.x
      && s.y < h.y + h.height && s.y + s.height > h.y
  {
    Overlaps(Box(s.x, s.y, s.width, s.height), Box(h.x, h.y, h.width, h.height))
  }

  /** Whether the unpadded ship rectangle overlaps any hazard rectangle. */
  function AnyTouch(s: Ship, hs: seq<Hazard>): (r: bool)
    ensures r <==> exists i :: 0 <= i < |hs| && Touches(s, hs[i])
    decreases |hs|
  {
    if hs == [] then false
    else if Touches(s, hs[0]) then true
    else
      var r := AnyTouch(s, hs[1..]);
      assert forall i :: 1 <= i < |hs| ==> hs[i] == hs[1..][i - 1];
      r
  }

  /** A ship whose top is at or below every hazard's bottom touches none. */
  lemma ClearBelow(s: Ship, hs: seq<Hazard>)
    requires forall i :: 0 <= i < |hs| ==> hs[i].y + hs[i].height <= s.y
    ensures !AnyTouch(s, hs)
  {
  }

  /** The ship after a key press: 20 units along the arrow's axis, clamped to
      [0, 740] x [0, 570]; only left and right change the facing. */
  function Steer(s: Ship, key: string): (r: Ship)
    ensures r.width == s.width && r.height == s.height
    ensures key == "ArrowUp" ==> r.x == s.x && r.facing == s.facing && r.y == (if s.y - Step >= 0.0 then s.y - Step else 0.0)
    ensures key == "ArrowDown" ==> r.x == s.x && r.facing == s.facing && r.y == (if s.y + Step <= MaxY then s.y + Step else MaxY)
    ensures key == "ArrowLeft" ==> r.y == s.y && r.facing == FacingLeft && r.x == (if s.x - Step >= 0.0 then s.x - Step else 0.0)
    ensures key == "ArrowRight" ==> r.y == s.y && r.facing == FacingRight && r.x == (if s.x + Step <= MaxX then s.x + Step else MaxX)
    ensures key !in ["ArrowUp", "ArrowDown", "ArrowLeft", "ArrowRight"] ==> r == s
  {
    if key == "ArrowUp" then s.(y := MaxR(0.0, s.y - Step))
    else if key == "ArrowDown" then s.(y := MinR(MaxY, s.y + Step))
    else if key == "ArrowLeft" then s.(x := MaxR(0.0, s.x - Step), facing := FacingLeft)
    else if key == "ArrowRight" then s.(x := MinR(MaxX, s.x + Step), facing := FacingRight)
    else s
  }

  /** The clamps keep the ship in the field. */
  predicate InField(s: Ship)
  {
    0.0 <= s.x <= MaxX && 0.0 <= s.y <= MaxY
  }

  lemma SteerStaysInField(s: Ship, key: string)
    requires InField(s)
    ensures InField(Steer(s, key))
  {
  }

  /** Up presses from the start line reach the goal band: 26 presses from
      y = 550 lead to y = 30 < 50. */
  lemma {:induction false} UpPresses(s: Ship, n: nat)
    requires s.y >= (n as real) * Step
    ensures SteerN(s, "ArrowUp", n).y == s.y - (n as real) * Step
    ensures SteerN(s, "ArrowUp", n).x == s.x
    decreases n
  {
    if n > 0 {
      assert (n as real) * Step == ((n - 1) as real) * Step + Step;
      UpPresses(s, n - 1);
    }
  }

  /** n presses of the same key; the ship keeps its size and stays in the
      field. */
  function SteerN(s: Ship, key: string, n: nat): (r: Ship)
    ensures r.width == s.width && r.height == s.height
    ensures InField(s) ==> InField(r)
    decreases n
  {
    if n == 0 then s else Steer(SteerN(s, key, n - 1), key)
  }

  lemma CrossingTakes26Presses(s: Ship)
    requires s.y == StartY
    ensures SteerN(s, "ArrowUp", 25).y >= GoalLine
    ensures SteerN(s, "ArrowUp", 26).y < GoalLine
  {
    UpPresses(s, 25);
    UpPresses(s, 26);
  }

  class ClassicEngine {
    var player: Ship
    var obstacles: seq<Hazard>
    var currentScore: int
    var goalAnimation: real

    ghost predicate Valid()
      reads this
    {
      && InField(player) && player.width == 60.0 && player.height == 30.0
      && currentScore >= 0 && currentScore % CrossingBonus == 0
      && (forall i :: 0 <= i < |obstacles| ==> obstacles[i].width >= 0.0)
    }

    /** The hook's initial state: the ship 60 x 30 at (400, 550), no facing. */
    constructor()
      ensures Valid()
      ensures player == Ship(400.0, StartY, 60.0, 30.0, Unset)
      ensures obstacles == [] && currentScore == 0 && goalAnimation == 0.0
    {
      player := Ship(400.0, StartY, 60.0, 30.0, Unset);
      obstacles := [];
      currentScore := 0;
      goalAnimation := 0.0;
    }

    /** Every hazard moves one frame, in place. */
    method UpdateObstacles()
      requires Valid()
      modifies this
      ensures Valid()
      ensures obstacles == MoveHazards(old(obstacles))
      ensures player == old(player) && currentScore == old(currentScore) && goalAnimation == old(goalAnimation)
    {
      var hs := obstacles;
      var moved := hs;
      for i := 0 to |hs|
        invariant |moved| == |hs|
        invariant forall k :: 0 <= k < i ==> moved[k] == MoveHazard(hs[k])
        invariant forall k :: i <= k < |hs| ==> moved[k] == hs[k]
      {
        moved := moved[i := MoveHazard(moved[i])];
      }
      obstacles := moved;
    }

    /** The state part of one frame. The result says whether the frame ended the
        game (a collision after the move); such a frame neither scores nor
        moves the ship. Otherwise a ship above y = 50 earns 100 points and is
        put back at y = 550, and the goal zone lights up. */
    method Tick() returns (over: bool)
      requires Valid()
      modifies this
      ensures Valid()
      ensures obstacles == MoveHazards(old(obstacles))
      ensures over == AnyTouch(old(player), obstacles)
      ensures over || old(player).y >= GoalLine ==>
        && player == old(player) && currentScore == old(currentScore)
        && goalAnimation == (if old(goalAnimation) > 0.0 then old(goalAnimation) - 0.02 else old(goalAnimation))
      ensures !over && old(player).y < GoalLine ==>
        && player == old(player).(y := StartY)
        && currentScore == old(currentScore) + CrossingBonus
        && goalAnimation == 1.0
    {
      if goalAnimation > 0.0 {
        goalAnimation := goalAnimation - 0.02;
      }
      UpdateObstacles();
      if AnyTouch(player, obstacles) {
        return true;
      }
      if player.y < GoalLine {
        currentScore := currentScore + CrossingBonus;
        player := player.(y := StartY);
        goalAnimation := 1.0;
      }
      return false;
    }

    /** A key press; there is no game-over guard in this engine. */
    method HandleKey(key: string)
      requires Valid()
      modifies this
      ensures Valid()
      ensures player == Steer(old(player), key)
      ensures obstacles == old(obstacles) && currentScore == old(currentScore) && goalAnimation == old(goalAnimation)
    {
      SteerStaysInField(player, key);
      player := Steer(player, key);
    }

    /** A (re)start: a fresh field, then the first frame. The ship and the score
        are not reset; a ship at or below y = 440 cannot be hit on that frame. */
    method Init(draws: seq<HazardDraw>) returns (over: bool)
      requires Valid() && |draws| == 4 && ValidHazardDraws(draws)
      modifies this
      ensures Valid()
      ensures obstacles == MoveHazards(CreateHazards(draws))
      ensures over == AnyTouch(old(player), obstacles)
      ensures old(player).y >= 440.0 ==> !over
      ensures over || old(player).y >= GoalLine ==>
        && player == old(player) && currentScore == old(currentScore)
        && goalAnimation == (if old(goalAnimation) > 0.0 then old(goalAnimation) - 0.02 else old(goalAnimation))
      ensures !over && old(player).y < GoalLine ==>
        && player == old(player).(y := StartY)
        && currentScore == old(currentScore) + CrossingBonus
        && goalAnimation == 1.0
    {
      obstacles := CreateHazards(draws);
      CreateHazardsLayout(draws);
      ghost var field := MoveHazards(obstacles);
      if player.y >= 440.0 {
        ClearBelow(player, field);
      }
      over := Tick();
    }
  }
}
