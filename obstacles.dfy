/** The hazard field: the per-level difficulty curve, the generation of a
    level's icebergs and mines, and their movement
    (src/hooks/useGameLogic.ts:142-176, 289-301). */
module Obstacles {
  import opened Geometry

  const BaseWidth: real := 800.0
  const BaseHeight: real := 600.0
  const BaseSpeed: real := 0.8
  /** Math.PI as a double. */
  const Pi: real := 3.141592653589793

  datatype Kind = Iceberg | Mine

  datatype Obstacle = Obstacle(
    x: real, y: real,
    width: real, height: real,
    speed: real, direction: int,
    kind: Kind, rotation: real)

  datatype LevelConfig = LevelConfig(rows: int, speed: real, mineChance: real, rowSpacing: real)

  /** The difficulty of a level. */
  function GetLevelConfig(level: int, scaleX: real, scaleY: real): (c: LevelConfig)
    ensures level >= 1 ==> 1 <= c.rows <= 6
    ensures level >= 1 ==> 0.0 < c.mineChance <= 0.5
    ensures scaleY > 0.0 && level >= 1 ==> 85.0 * scaleY <= c.rowSpacing <= 120.0 * scaleY
    ensures scaleX > 0.0 && level >= 1 ==> c.speed > 0.0
  {
    var spacing := MinR(80.0 + level as real * 5.0, 120.0);
    var speed := BaseSpeed + level as real * 0.2;
    if level >= 1 then
      ScaledWithin(85.0, spacing, 120.0, scaleY);
      MulPositive(speed, scaleX);
      LevelConfig(RowCount(level), Stretch(speed, scaleX), MinR(0.1 + level as real * 0.03, 0.5), Stretch(spacing, scaleY))
    else
      LevelConfig(RowCount(level), Stretch(speed, scaleX), MinR(0.1 + level as real * 0.03, 0.5), Stretch(spacing, scaleY))
  }

  /** Rows of a level: one more every two levels, at most six. */
  function RowCount(level: int): (n: int)
    ensures level >= 1 ==> 1 <= n <= 6
  {
    MinI(1 + (level - 1) / 2, 6)
  }

  /** A product of two factors. */
  function Stretch(r: real, range: real): real
  {
    r * range
  }

  /** Scaling by a positive factor keeps a value within scaled bounds. */
  lemma ScaledWithin(lo: real, v: real, hi: real, s: real)
    requires lo <= v <= hi
    ensures s > 0.0 ==> lo * s <= Stretch(v, s) <= hi * s
  {
    if s > 0.0 {
      MulMonotone(lo, v, s);
      MulMonotone(v, hi, s);
    }
  }

  lemma MulPositive(a: real, b: real)
    ensures a > 0.0 && b > 0.0 ==> Stretch(a, b) > 0.0
  {
    if a > 0.0 && b > 0.0 {
      MulStrict(0.0, a, b);
    }
  }

  /** Difficulty never decreases from one level to a later one. */
  lemma LevelConfigMonotone(l1: int, l2: int, scaleX: real, scaleY: real)
    requires 1 <= l1 <= l2 && scaleX > 0.0 && scaleY > 0.0
    ensures var c1, c2 := GetLevelConfig(l1, scaleX, scaleY), GetLevelConfig(l2, scaleX, scaleY);
      && c1.rows <= c2.rows
      && c1.speed <= c2.speed
      && c1.mineChance <= c2.mineChance
      && c1.rowSpacing <= c2.rowSpacing
  {
    assert (l1 - 1) / 2 <= (l2 - 1) / 2;
    var c1, c2 := GetLevelConfig(l1, scaleX, scaleY), GetLevelConfig(l2, scaleX, scaleY);
    var s1 := MinR(80.0 + l1 as real * 5.0, 120.0);
    var s2 := MinR(80.0 + l2 as real * 5.0, 120.0);
    var v1 := BaseSpeed + l1 as real * 0.2;
    var v2 := BaseSpeed + l2 as real * 0.2;
    assert c1.rowSpacing == Stretch(s1, scaleY) && c2.rowSpacing == Stretch(s2, scaleY);
    assert c1.speed == Stretch(v1, scaleX) && c2.speed == Stretch(v2, scaleX);
    StretchMonotone(s1, s2, scaleY);
    StretchMonotone(v1, v2, scaleX);
  }

  lemma StretchMonotone(a: real, b: real, s: real)
    requires a <= b && s >= 0.0
    ensures Stretch(a, s) <= Stretch(b, s)
  {
    MulMonotone(a, b, s);
  }

  /** The caps are reached and then held: six rows from level 11, the widest
      row spacing from level 8, the highest mine chance from level 14. */
  lemma LevelConfigSaturates(level: int, scaleX: real, scaleY: real)
    requires level >= 1
    ensures var c := GetLevelConfig(level, scaleX, scaleY);
      && (c.rows == 6 <==> level >= 11)
      && (c.mineChance == 0.5 <==> level >= 14)
      && (level >= 8 ==> c.rowSpacing == 120.0 * scaleY)
      && (scaleY > 0.0 ==> (c.rowSpacing == 120.0 * scaleY <==> level >= 8))
  {
    if level < 8 && scaleY > 0.0 {
      var spacing := MinR(80.0 + level as real * 5.0, 120.0);
      assert spacing == 80.0 + level as real * 5.0 < 120.0;
      assert GetLevelConfig(level, scaleX, scaleY).rowSpacing == Stretch(spacing, scaleY);
      MulStrict(spacing, 120.0, scaleY);
    }
  }

  /** Obstacles per row: one more every three levels, at most three. */
  function ObstaclesPerRow(level: int): (n: int)
    ensures level >= 1 ==> 1 <= n <= 3
    ensures level >= 6 ==> n == 3
  {
    MinI(1 + level / 3, 3)
  }

  /** How many obstacles a level has. */
  function ObstacleCount(level: int): (n: int)
    requires level >= 1
    ensures 1 <= n <= 18
  {
    RowCount(level) * ObstaclesPerRow(level)
  }

  /** A later level never has fewer obstacles per row, nor fewer in all. */
  lemma PerRowMonotone(l1: int, l2: int)
    requires 1 <= l1 <= l2
    ensures ObstaclesPerRow(l1) <= ObstaclesPerRow(l2)
    ensures ObstacleCount(l1) <= ObstacleCount(l2)
  {
    assert l1 / 3 <= l2 / 3;
    assert (l1 - 1) / 2 <= (l2 - 1) / 2;
    ProductMonotone(RowCount(l1), ObstaclesPerRow(l1), RowCount(l2), ObstaclesPerRow(l2));
  }

  lemma ProductMonotone(a: int, b: int, c: int, d: int)
    requires 0 <= a <= c && 0 <= b <= d
    ensures a * b <= c * d
  {
    assert a * b <= c * b;
    assert c * b <= c * d;
  }

  /** The six random numbers one obstacle draws, in the order the source draws
      them: wide or not, x, extra speed, direction, kind, rotation. */
  datatype ObstacleDraw = ObstacleDraw(wide: real, x: real, speed: real, direction: real, kind: real, rotation: real)

  predicate ValidObstacleDraw(d: ObstacleDraw)
  {
    InUnit(d.wide) && InUnit(d.x) && InUnit(d.speed) && InUnit(d.direction) &&
    InUnit(d.kind) && InUnit(d.rotation)
  }

  predicate ValidObstacleDraws(ds: seq<ObstacleDraw>)
  {
    forall i :: 0 <= i < |ds| ==> ValidObstacleDraw(ds[i])
  }

  /** An obstacle that can be on the field: positive size and speed, a unit
      direction, and x within the wrap range [-width, canvas width]. */
  predicate WellFormed(o: Obstacle, canvasW: real)
  {
    o.width > 0.0 && o.height > 0.0 && o.speed > 0.0 &&
    (o.direction == 1 || o.direction == -1) &&
    -o.width <= o.x <= canvasW
  }

  predicate AllWellFormed(os: seq<Obstacle>, canvasW: real)
  {
    forall i :: 0 <= i < |os| ==> WellFormed(os[i], canvasW)
  }

  /** Vertical position of row i; the already scaled spacing is scaled again,
      as the source does. */
  function RowY(i: int, c: LevelConfig, scaleY: real): (y: real)
    ensures i >= 0 && c.rowSpacing >= 0.0 && scaleY > 0.0 ==> y >= 100.0 * scaleY
  {
    if i >= 0 && c.rowSpacing >= 0.0 && scaleY > 0.0 then
      MulMonotone(0.0, i as real, c.rowSpacing);
      MulMonotone(100.0, 100.0 + i as real * c.rowSpacing, scaleY);
      (100.0 + i as real * c.rowSpacing) * scaleY
    else
      (100.0 + i as real * c.rowSpacing) * scaleY
  }

  /** With a positive spacing, each row lies strictly below the rows before it. */
  lemma RowsDescend(i: int, j: int, c: LevelConfig, scaleY: real)
    requires 0 <= i < j && c.rowSpacing > 0.0 && scaleY > 0.0
    ensures RowY(i, c, scaleY) < RowY(j, c, scaleY)
  {
    MulStrict(i as real, j as real, c.rowSpacing);
    MulStrict(100.0 + i as real * c.rowSpacing, 100.0 + j as real * c.rowSpacing, scaleY);
  }

  lemma StretchBelow(r: real, range: real)
    requires InUnit(r) && range > 0.0
    ensures 0.0 <= Stretch(r, range) < range
  {
    MulMonotone(0.0, r, range);
    MulStrict(r, 1.0, range);
  }

  /** One generated obstacle of row y. */
  function MakeObstacle(d: ObstacleDraw, y: real, c: LevelConfig, scaleX: real, scaleY: real): (o: Obstacle)
    ensures o.y == y
    ensures (o.width, o.height) == (80.0 * scaleX, 60.0 * scaleY) || (o.width, o.height) == (40.0 * scaleX, 40.0 * scaleY)
    ensures o.direction == 1 || o.direction == -1
    ensures o.kind == Mine <==> d.kind < c.mineChance
  {
    var isWide := d.wide > 0.5;
    Obstacle(
      Stretch(d.x, BaseWidth * scaleX),
      y,
      (if isWide then 80.0 else 40.0) * scaleX,
      (if isWide then 60.0 else 40.0) * scaleY,
      c.speed + Stretch(d.speed, 0.5 * scaleX),
      if d.direction > 0.5 then 1 else -1,
      if d.kind < c.mineChance then Mine else Iceberg,
      d.rotation * Pi * 2.0)
  }

  /** A generated obstacle starts on the canvas, at least as fast as the level's
      speed and less than half a (scaled) unit faster; so it is well formed. */
  lemma MakeObstacleBounds(d: ObstacleDraw, y: real, c: LevelConfig, scaleX: real, scaleY: real)
    requires ValidObstacleDraw(d) && scaleX > 0.0 && scaleY > 0.0 && c.speed > 0.0
    ensures var o := MakeObstacle(d, y, c, scaleX, scaleY);
      && 0.0 <= o.x < BaseWidth * scaleX
      && c.speed <= o.speed < c.speed + 0.5 * scaleX
      && WellFormed(o, BaseWidth * scaleX)
  {
    StretchBelow(d.x, BaseWidth * scaleX);
    StretchBelow(d.speed, 0.5 * scaleX);
  }

  /** The obstacles of one row. */
  function Row(ds: seq<ObstacleDraw>, y: real, c: LevelConfig, scaleX: real, scaleY: real): (os: seq<Obstacle>)
    ensures |os| == |ds|
    ensures forall j :: 0 <= j < |os| ==> os[j] == MakeObstacle(ds[j], y, c, scaleX, scaleY)
  {
    seq(|ds|, j requires 0 <= j < |ds| => MakeObstacle(ds[j], y, c, scaleX, scaleY))
  }

  /** The draws of a level, grouped by row: as many rows as the level has, each
      with as many draws as a row has obstacles. */
  predicate Shaped(level: int, ds: seq<seq<ObstacleDraw>>)
  {
    level >= 1 && |ds| == RowCount(level) &&
    forall i :: 0 <= i < |ds| ==> |ds[i]| == ObstaclesPerRow(level)
  }

  predicate ValidFieldDraws(ds: seq<seq<ObstacleDraw>>)
  {
    forall i :: 0 <= i < |ds| ==> ValidObstacleDraws(ds[i])
  }

  /** The rows of a level's field, the top row first. */
  function FieldRows(level: int, ds: seq<seq<ObstacleDraw>>, scaleX: real, scaleY: real): (rows: seq<seq<Obstacle>>)
    ensures |rows| == |ds|
    ensures var c := GetLevelConfig(level, scaleX, scaleY);
      forall i :: 0 <= i < |ds| ==> rows[i] == Row(ds[i], RowY(i, c, scaleY), c, scaleX, scaleY)
  {
    var c := GetLevelConfig(level, scaleX, scaleY);
    seq(|ds|, i requires 0 <= i < |ds| => Row(ds[i], RowY(i, c, scaleY), c, scaleX, scaleY))
  }

  /** The rows one after the other (the source's flatMap). */
  function Flatten(rows: seq<seq<Obstacle>>): seq<Obstacle>
    decreases |rows|
  {
    if rows == [] then [] else rows[0] + Flatten(rows[1..])
  }

  lemma {:induction false} FlattenLength(rows: seq<seq<Obstacle>>, n: nat)
    requires forall i :: 0 <= i < |rows| ==> |rows[i]| == n
    ensures |Flatten(rows)| == |rows| * n
    decreases |rows|
  {
    if rows != [] {
      assert forall i :: 0 <= i < |rows[1..]| ==> rows[1..][i] == rows[i + 1];
      FlattenLength(rows[1..], n);
      assert |rows| * n == (|rows| - 1) * n + n;
    }
  }

  /** An obstacle is in the flattened field exactly when it is in one of the
      rows. */
  lemma {:induction false} FlattenMember(rows: seq<seq<Obstacle>>, o: Obstacle)
    ensures o in Flatten(rows) <==> exists i :: 0 <= i < |rows| && o in rows[i]
    decreases |rows|
  {
    if rows != [] {
      var tail := rows[1..];
      FlattenMember(tail, o);
      assert Flatten(rows) == rows[0] + Flatten(tail);
      if o in Flatten(tail) {
        var i :| 0 <= i < |tail| && o in tail[i];
        assert o in rows[i + 1];
      }
      if exists i :: 0 <= i < |rows| && o in rows[i] {
        var i :| 0 <= i < |rows| && o in rows[i];
        if i > 0 {
          assert o in tail[i - 1];
        }
      }
    }
  }

  /** The obstacles of a level. */
  function Generate(level: int, ds: seq<seq<ObstacleDraw>>, scaleX: real, scaleY: real): (os: seq<Obstacle>)
    requires Shaped(level, ds)
    ensures |os| == ObstacleCount(level)
  {
    var rows := FieldRows(level, ds, scaleX, scaleY);
    FlattenLength(rows, ObstaclesPerRow(level));
    Flatten(rows)
  }

  /** A level's field holds exactly the obstacles made from its draws: the
      draw of row i, column j gives an obstacle at height
      (100 + i * rowSpacing) * scaleY. Every one of them is well formed. */
  lemma GeneratedLayout(level: int, ds: seq<seq<ObstacleDraw>>, scaleX: real, scaleY: real)
    requires Shaped(level, ds) && ValidFieldDraws(ds) && scaleX > 0.0 && scaleY > 0.0
    ensures var os := Generate(level, ds, scaleX, scaleY);
      var c := GetLevelConfig(level, scaleX, scaleY);
      && AllWellFormed(os, BaseWidth * scaleX)
      && (forall o :: o in os <==>
            exists i, j :: 0 <= i < |ds| && 0 <= j < |ds[i]| && o == MakeObstacle(ds[i][j], RowY(i, c, scaleY), c, scaleX, scaleY))
  {
    var c := GetLevelConfig(level, scaleX, scaleY);
    var rows := FieldRows(level, ds, scaleX, scaleY);
    var os := Generate(level, ds, scaleX, scaleY);
    forall o | o in os
      ensures exists i, j :: 0 <= i < |ds| && 0 <= j < |ds[i]| && o == MakeObstacle(ds[i][j], RowY(i, c, scaleY), c, scaleX, scaleY)
    {
      FlattenMember(rows, o);
      var i :| 0 <= i < |rows| && o in rows[i];
      var j :| 0 <= j < |rows[i]| && rows[i][j] == o;
    }
    forall i, j | 0 <= i < |ds| && 0 <= j < |ds[i]|
      ensures MakeObstacle(ds[i][j], RowY(i, c, scaleY), c, scaleX, scaleY) in os
    {
      assert rows[i][j] in rows[i];
      FlattenMember(rows, rows[i][j]);
    }
    forall k | 0 <= k < |os|
      ensures WellFormed(os[k], BaseWidth * scaleX)
    {
      assert os[k] in os;
      var i, j :| 0 <= i < |ds| && 0 <= j < |ds[i]| && os[k] == MakeObstacle(ds[i][j], RowY(i, c, scaleY), c, scaleX, scaleY);
      MakeObstacleBounds(ds[i][j], RowY(i, c, scaleY), c, scaleX, scaleY);
    }
  }

  /** One frame of an obstacle's movement: it advances by its speed in its
      direction, wraps to the far side once fully off either edge, and a mine
      turns by 0.01 rad. Nothing else about it changes. */
  function MoveObstacle(o: Obstacle, canvasW: real): (r: Obstacle)
    ensures r.(x := o.x, rotation := o.rotation) == o
    ensures r.rotation == if o.kind == Mine then o.rotation + 0.01 else o.rotation
    ensures o.width >= 0.0 && canvasW >= 0.0 ==> -o.width <= r.x <= canvasW
    ensures var x := o.x + o.speed * o.direction as real;
      && (-o.width <= x <= canvasW ==> r.x == x)
      && (x > canvasW && o.width >= 0.0 ==> r.x == -o.width)
      && (x < -o.width && x <= canvasW ==> r.x == canvasW)
  {
    var x1 := o.x + o.speed * o.direction as real;
    var x2 := if x1 > canvasW then -o.width else x1;
    var x3 := if x2 < -o.width then canvasW else x2;
    o.(x := x3, rotation := if o.kind == Mine then o.rotation + 0.01 else o.rotation)
  }

  /** The wrap happens within the same frame: an iceberg at x = 795, 40 wide,
      moving right at 10 on an 800-wide field, is at x = -40 after one frame. */
  lemma WrapsInSameFrame()
    ensures MoveObstacle(Obstacle(795.0, 100.0, 40.0, 40.0, 10.0, 1, Iceberg, 0.0), 800.0).x == -40.0
  {
  }

  function MoveAll(os: seq<Obstacle>, canvasW: real): (r: seq<Obstacle>)
    ensures |r| == |os|
    ensures forall i :: 0 <= i < |os| ==> r[i] == MoveObstacle(os[i], canvasW)
  {
    seq(|os|, i requires 0 <= i < |os| => MoveObstacle(os[i], canvasW))
  }

  /** Moving keeps every obstacle well formed. */
  lemma MoveAllWellFormed(os: seq<Obstacle>, canvasW: real)
    requires canvasW > 0.0 && AllWellFormed(os, canvasW)
    ensures AllWellFormed(MoveAll(os, canvasW), canvasW)
  {
  }
}
