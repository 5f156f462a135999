/** The player's ship: position, size, movement history and heading, and the
    effect of one arrow-key press on it (src/hooks/useGameLogic.ts:387-432). */
module Vessel {
  import opened Geometry

  datatype Orientation = Up | Down | Left | Right

  datatype Player = Player(
    x: real, y: real,
    width: real, height: real,
    lastX: real, lastY: real,
    velocityX: real, velocityY: real,
    orientation: Orientation)

  /** Distance of one key press, in base units (multiplied by scaleX). */
  const MoveDistance: real := 15.0

  /** The whole ship lies on the canvas. */
  predicate InBounds(p: Player, canvasW: real, canvasH: real)
  {
    0.0 <= p.x <= canvasW - p.width && 0.0 <= p.y <= canvasH - p.height
  }

  predicate IsArrow(key: string)
  {
    key == "ArrowUp" || key == "ArrowDown" || key == "ArrowLeft" || key == "ArrowRight"
  }

  /** The player after a key press that is not ignored: the arrow's axis moves by
      `step`, clamped to the canvas, the heading follows the arrow, and the
      pre-move position becomes the movement history. */
  function KeyMove(p: Player, key: string, step: real, canvasW: real, canvasH: real): (r: Player)
    ensures r.width == p.width && r.height == p.height
    ensures r.lastX == p.x && r.lastY == p.y
    ensures r.velocityX == r.x - p.x && r.velocityY == r.y - p.y
    ensures key == "ArrowUp" ==>
      && r.x == p.x && r.orientation == Up
      && r.y == (if p.y - step >= 0.0 then p.y - step else 0.0)
    ensures key == "ArrowDown" ==>
      && r.x == p.x && r.orientation == Down
      && r.y == (if p.y + step <= canvasH - p.height then p.y + step else canvasH - p.height)
    ensures key == "ArrowLeft" ==>
      && r.y == p.y && r.orientation == Left
      && r.x == (if p.x - step >= 0.0 then p.x - step else 0.0)
    ensures key == "ArrowRight" ==>
      && r.y == p.y && r.orientation == Right
      && r.x == (if p.x + step <= canvasW - p.width then p.x + step else canvasW - p.width)
    ensures !IsArrow(key) ==> r.x == p.x && r.y == p.y && r.orientation == p.orientation
  {
    var moved :=
      if key == "ArrowUp" then p.(y := MaxR(0.0, p.y - step), orientation := Up)
      else if key == "ArrowDown" then p.(y := MinR(canvasH - p.height, p.y + step), orientation := Down)
      else if key == "ArrowLeft" then p.(x := MaxR(0.0, p.x - step), orientation := Left)
      else if key == "ArrowRight" then p.(x := MinR(canvasW - p.width, p.x + step), orientation := Right)
      else p;
    moved.(lastX := p.x, lastY := p.y, velocityX := moved.x - p.x, velocityY := moved.y - p.y)
  }

  /** Points earned by a key press that is not ignored: one point for an up press
      that ends above the y recorded as history BEFORE the press. */
  function ScoreDelta(p: Player, key: string, step: real, canvasW: real, canvasH: real): (r: int)
    ensures 0 <= r <= 1
    ensures r == 1 <==> key == "ArrowUp" && KeyMove(p, key, step, canvasW, canvasH).y < p.lastY
  {
    if key == "ArrowUp" && MaxR(0.0, p.y - step) < p.lastY then 1 else 0
  }

  /** On a ship that is on the canvas, a press moves only its own axis, by at
      most `step`, in the arrow's direction, and keeps the ship on the canvas. */
  lemma KeyMoveStaysOnCanvas(p: Player, key: string, step: real, canvasW: real, canvasH: real)
    requires step >= 0.0 && InBounds(p, canvasW, canvasH)
    ensures var r := KeyMove(p, key, step, canvasW, canvasH);
      && InBounds(r, canvasW, canvasH)
      && (key == "ArrowUp" ==> p.y - step <= r.y <= p.y)
      && (key == "ArrowDown" ==> p.y <= r.y <= p.y + step)
      && (key == "ArrowLeft" ==> p.x - step <= r.x <= p.x)
      && (key == "ArrowRight" ==> p.x <= r.x <= p.x + step)
  {
  }

  /** Pressing down and then up returns to the start and earns nothing: the up
      press compares against the history the down press recorded. */
  lemma DownThenUpEarnsNothing(p: Player, step: real, canvasW: real, canvasH: real)
    requires step > 0.0 && InBounds(p, canvasW, canvasH) && p.y + step <= canvasH - p.height
    ensures var q := KeyMove(p, "ArrowDown", step, canvasW, canvasH);
      && KeyMove(q, "ArrowUp", step, canvasW, canvasH).y == p.y
      && ScoreDelta(q, "ArrowUp", step, canvasW, canvasH) == 0
  {
  }

  /** An up press that cannot move (the ship is already at the top edge) still
      scores when the previous press started lower down. */
  lemma ClampedUpPressCanScore()
    ensures var p := Player(0.0, 0.0, 80.0, 30.0, 400.0, 5.0, 0.0, -5.0, Up);
      && KeyMove(p, "ArrowUp", MoveDistance, 800.0, 600.0).y == p.y
      && ScoreDelta(p, "ArrowUp", MoveDistance, 800.0, 600.0) == 1
  {
  }

  /** The end position and total score of a sequence of key presses none of
      which is ignored. */
  function Presses(p: Player, keys: seq<string>, step: real, canvasW: real, canvasH: real): (r: (Player, int))
    ensures 0 <= r.1 <= |keys|
    decreases |keys|
  {
    if keys == [] then (p, 0)
    else
      var rest := Presses(KeyMove(p, keys[0], step, canvasW, canvasH), keys[1..], step, canvasW, canvasH);
      (rest.0, ScoreDelta(p, keys[0], step, canvasW, canvasH) + rest.1)
  }

  function Ups(n: nat): (r: seq<string>)
    ensures |r| == n && forall i :: 0 <= i < n ==> r[i] == "ArrowUp"
  {
    seq(n, _ => "ArrowUp")
  }

  /** From a ship whose history is not above it (as after a start or a level
      change), n up presses that never reach the top edge score n points and
      raise the ship by n steps. */
  lemma {:induction false} UpRunScores(p: Player, n: nat, step: real, canvasW: real, canvasH: real)
    requires step > 0.0 && p.lastY >= p.y && p.y - (n as real) * step >= 0.0
    ensures Presses(p, Ups(n), step, canvasW, canvasH).1 == n
    ensures Presses(p, Ups(n), step, canvasW, canvasH).0.y == p.y - (n as real) * step
    decreases n
  {
    if n > 0 {
      var q := KeyMove(p, "ArrowUp", step, canvasW, canvasH);
      var before := ((n - 1) as real) * step;
      assert (n as real) * step == before + step;
      MulMonotone(0.0, (n - 1) as real, step);
      assert before >= 0.0;
      assert p.y - step >= 0.0;
      assert MaxR(0.0, p.y - step) == p.y - step;
      assert q.y == p.y - step;
      assert Ups(n)[1..] == Ups(n - 1);
      UpRunScores(q, n - 1, step, canvasW, canvasH);
    }
  }
}
