/** Collision between the ship and the hazards: both rectangles are shrunk by a
    padding before the strict overlap test (src/hooks/useGameLogic.ts:178-186,
    303-322). */
module Collision {
  import opened Geometry
  import opened Vessel
  import opened Obstacles

  /** Base padding of the ship: 12 when it points along its length (up or
      down), 8 when it points sideways. */
  function ShipPadding(o: Orientation): (pad: real)
    ensures pad == 12.0 <==> (o == Up || o == Down)
    ensures pad == 8.0 <==> (o == Left || o == Right)
  {
    match o
    case Up => 12.0
    case Down => 12.0
    case Left => 8.0
    case Right => 8.0
  }

  /** Base padding of a hazard: 12 for a mine, 8 for an iceberg. */
  function HazardPadding(k: Kind): (pad: real)
    ensures pad == 12.0 <==> k == Mine
    ensures pad == 8.0 <==> k == Iceberg
  {
    match k
    case Mine => 12.0
    case Iceberg => 8.0
  }

  /** The ship's collision box: its rectangle with ShipPadding * scaleX cut off
      every side (the vertical sides use scaleX as well, as in the source). */
  function PlayerBox(p: Player, scaleX: real): (r: Box)
    ensures var pad := ShipPadding(p.orientation) * scaleX;
      && r.x - p.x == pad && (p.x + p.width) - (r.x + r.width) == pad
      && r.y - p.y == pad && (p.y + p.height) - (r.y + r.height) == pad
  {
    Shrink(Box(p.x, p.y, p.width, p.height), ShipPadding(p.orientation) * scaleX)
  }

  /** A hazard's collision box: its rectangle with HazardPadding * scaleX cut
      off every side. */
  function HazardBox(o: Obstacle, scaleX: real): (r: Box)
    ensures var pad := HazardPadding(o.kind) * scaleX;
      && r.x - o.x == pad && (o.x + o.width) - (r.x + r.width) == pad
      && r.y - o.y == pad && (o.y + o.height) - (r.y + r.height) == pad
  {
    Shrink(Box(o.x, o.y, o.width, o.height), HazardPadding(o.kind) * scaleX)
  }

  /** A hit, in terms of the unpadded rectangles: the ship, inset by its
      padding, reaches strictly past the hazard inset by its padding on all
      four sides. */
  function Hits(p: Player, o: Obstacle, scaleX: real): (r: bool)
    ensures var pp, hp := ShipPadding(p.orientation) * scaleX, HazardPadding(o.kind) * scaleX;
      r <==>
        && p.x + pp < o.x + o.width - hp
        && p.x + p.width - pp > o.x + hp
        && p.y + pp < o.y + o.height - hp
        && p.y + p.height - pp > o.y + hp
  {
    Overlaps(PlayerBox(p, scaleX), HazardBox(o, scaleX))
  }

  /** Whether any hazard's box overlaps the ship's box (the source's `some`). */
  function Collides(p: Player, os: seq<Obstacle>, scaleX: real): (r: bool)
    ensures r <==> exists i :: 0 <= i < |os| && Hits(p, os[i], scaleX)
    decreases |os|
  {
    if os == [] then false
    else if Hits(p, os[0], scaleX) then true
    else
      var r := Collides(p, os[1..], scaleX);
      assert forall i :: 1 <= i < |os| ==> os[i] == os[1..][i - 1];
      r
  }

  /** The padded boxes meeting only along an edge is not a collision. */
  lemma EdgeContactIsSafe(p: Player, o: Obstacle, scaleX: real)
    requires var a, b := PlayerBox(p, scaleX), HazardBox(o, scaleX);
      a.x + a.width == b.x || b.x + b.width == a.x || a.y + a.height == b.y || b.y + b.height == a.y
    ensures !Hits(p, o, scaleX)
  {
    TouchingDoesNotOverlap(PlayerBox(p, scaleX), HazardBox(o, scaleX));
  }

  /** Hazards lying wholly above the ship's top edge cannot hit it: the padding
      only shrinks both boxes. */
  lemma {:induction false} ClearAbove(p: Player, os: seq<Obstacle>, scaleX: real)
    requires scaleX >= 0.0
    requires forall i :: 0 <= i < |os| ==> os[i].y + os[i].height <= p.y
    ensures !Collides(p, os, scaleX)
  {
    forall i | 0 <= i < |os|
      ensures !Hits(p, os[i], scaleX)
    {
      var pp := ShipPadding(p.orientation);
      var hp := HazardPadding(os[i].kind);
      MulMonotone(0.0, pp, scaleX);
      MulMonotone(0.0, hp, scaleX);
    }
  }

  /** A ship heading up at (100, 100), 80 x 30, hits an iceberg 40 x 40 at the
      same corner on an unscaled canvas; the iceberg moved to x = 300 does not. */
  lemma CollisionExample()
    ensures Hits(Player(100.0, 100.0, 80.0, 30.0, 100.0, 100.0, 0.0, 0.0, Up),
                 Obstacle(100.0, 100.0, 40.0, 40.0, 1.0, 1, Iceberg, 0.0), 1.0)
    ensures !Hits(Player(100.0, 100.0, 80.0, 30.0, 100.0, 100.0, 0.0, 0.0, Up),
                  Obstacle(300.0, 100.0, 40.0, 40.0, 1.0, 1, Iceberg, 0.0), 1.0)
  {
  }
}
