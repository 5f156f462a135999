/** Wake particles: the short-lived trail the ship leaves when it moves
    (src/hooks/useGameLogic.ts:71-129). */
module Wake {
  import opened Geometry
  import opened Vessel

  datatype Particle = Particle(
    x: real, y: real,
    alpha: real, size: real,
    velocityX: real, velocityY: real)

  /** The four random numbers one particle draws, in the order the source draws
      them: the sideways jitter, the first velocity component computed, the
      second, and the size. */
  datatype ParticleDraw = ParticleDraw(spread: real, first: real, second: real, size: real)

  predicate ValidParticleDraw(d: ParticleDraw)
  {
    InUnit(d.spread) && InUnit(d.first) && InUnit(d.second) && InUnit(d.size)
  }

  predicate ValidParticleDraws(ds: seq<ParticleDraw>)
  {
    forall i :: 0 <= i < |ds| ==> ValidParticleDraw(ds[i])
  }

  /** Particles spawned per key press. */
  const ParticleCount: nat := 3
  const SpawnAlpha: real := 0.6
  const AlphaDecay: real := 0.025
  const SpreadFactor: real := 8.0
  /** Minimum time between two spawns, in milliseconds (strictly more must pass). */
  const SpawnInterval: int := 32

  /** The drift of a fresh particle in base units per frame, before scaling:
      away from the heading at between 0.5 and 1, sideways by at most 0.25. */
  function TrailVelocity(o: Orientation, d: ParticleDraw): (v: (real, real))
    requires ValidParticleDraw(d)
    ensures o == Up ==> 0.5 <= v.1 < 1.0 && -0.25 <= v.0 < 0.25
    ensures o == Down ==> -1.0 < v.1 <= -0.5 && -0.25 <= v.0 < 0.25
    ensures o == Left ==> 0.5 <= v.0 < 1.0 && -0.25 <= v.1 < 0.25
    ensures o == Right ==> -1.0 < v.0 <= -0.5 && -0.25 <= v.1 < 0.25
  {
    match o
    case Up => ((d.first - 0.5) * 0.5, 0.5 + d.second * 0.5)
    case Down => ((d.first - 0.5) * 0.5, -0.5 - d.second * 0.5)
    case Left => (0.5 + d.first * 0.5, (d.second - 0.5) * 0.5)
    case Right => (-0.5 - d.first * 0.5, (d.second - 0.5) * 0.5)
  }

  /** Where a fresh particle appears: 5 units inside the ship's trailing edge,
      jittered across the centre line by up to half the spread. */
  function SpawnPoint(p: Player, d: ParticleDraw): (pt: (real, real))
    requires ValidParticleDraw(d)
    ensures p.orientation == Up ==>
      && pt.1 == p.y + p.height - 5.0
      && p.x + p.width / 2.0 - SpreadFactor / 2.0 <= pt.0 < p.x + p.width / 2.0 + SpreadFactor / 2.0
    ensures p.orientation == Down ==>
      && pt.1 == p.y + 5.0
      && p.x + p.width / 2.0 - SpreadFactor / 2.0 <= pt.0 < p.x + p.width / 2.0 + SpreadFactor / 2.0
    ensures p.orientation == Left ==>
      && pt.0 == p.x + p.width - 5.0
      && p.y + p.height / 2.0 - SpreadFactor / 2.0 <= pt.1 < p.y + p.height / 2.0 + SpreadFactor / 2.0
    ensures p.orientation == Right ==>
      && pt.0 == p.x + 5.0
      && p.y + p.height / 2.0 - SpreadFactor / 2.0 <= pt.1 < p.y + p.height / 2.0 + SpreadFactor / 2.0
  {
    var centerX := p.x + p.width / 2.0;
    var centerY := p.y + p.height / 2.0;
    var jitter := d.spread * SpreadFactor - SpreadFactor / 2.0;
    match p.orientation
    case Up => (centerX + jitter, p.y + p.height - 5.0)
    case Down => (centerX + jitter, p.y + 5.0)
    case Left => (p.x + p.width - 5.0, centerY + jitter)
    case Right => (p.x + 5.0, centerY + jitter)
  }

  /** A particle spawned behind the ship as it is before the move. */
  function SpawnParticle(p: Player, d: ParticleDraw, scaleX: real, scaleY: real): (r: Particle)
    requires ValidParticleDraw(d)
    ensures r.alpha == SpawnAlpha && 2.0 <= r.size < 4.0
    ensures (r.x, r.y) == SpawnPoint(p, d)
    ensures r.velocityX == TrailVelocity(p.orientation, d).0 * scaleX
    ensures r.velocityY == TrailVelocity(p.orientation, d).1 * scaleY
  {
    var pt := SpawnPoint(p, d);
    var v := TrailVelocity(p.orientation, d);
    Particle(pt.0, pt.1, SpawnAlpha, 2.0 + d.size * 2.0, v.0 * scaleX, v.1 * scaleY)
  }

  /** One particle per draw, in order. */
  function Spawned(p: Player, ds: seq<ParticleDraw>, scaleX: real, scaleY: real): (r: seq<Particle>)
    requires ValidParticleDraws(ds)
    ensures |r| == |ds|
    ensures forall i :: 0 <= i < |r| ==> r[i] == SpawnParticle(p, ds[i], scaleX, scaleY)
  {
    seq(|ds|, i requires 0 <= i < |ds| => SpawnParticle(p, ds[i], scaleX, scaleY))
  }

  /** One frame of a particle's life: it moves by its velocity, which it keeps,
      grows and fades. */
  function Advance(q: Particle, scaleX: real): (r: Particle)
    ensures r.alpha == q.alpha - AlphaDecay
    ensures r.x - q.x == q.velocityX && r.y - q.y == q.velocityY
    ensures r.velocityX == q.velocityX && r.velocityY == q.velocityY
    ensures scaleX > 0.0 ==> r.size > q.size
  {
    q.(x := q.x + q.velocityX, y := q.y + q.velocityY,
       size := q.size + 0.15 * scaleX, alpha := q.alpha - AlphaDecay)
  }

  /** Every particle advanced one frame, keeping, in order, those still visible. */
  function AdvanceAll(ps: seq<Particle>, scaleX: real): (r: seq<Particle>)
    ensures |r| <= |ps|
    ensures forall j :: 0 <= j < |r| ==> r[j].alpha > 0.0
    decreases |ps|
  {
    if ps == [] then []
    else
      var q := Advance(ps[|ps| - 1], scaleX);
      AdvanceAll(ps[..|ps| - 1], scaleX) + (if q.alpha > 0.0 then [q] else [])
  }

  /** A single particle survives the frame exactly when its alpha exceeds the decay. */
  lemma AdvanceOne(q: Particle, scaleX: real)
    ensures AdvanceAll([q], scaleX) == if q.alpha > AlphaDecay then [Advance(q, scaleX)] else []
  {
    assert [q][..0] == [];
  }

  /** Advancing works particle by particle: the survivors of a concatenation are
      the survivors of each part, in the same order. */
  lemma {:induction false} AdvanceAllAppend(a: seq<Particle>, b: seq<Particle>, scaleX: real)
    ensures AdvanceAll(a + b, scaleX) == AdvanceAll(a, scaleX) + AdvanceAll(b, scaleX)
    decreases |b|
  {
    if b == [] {
      assert a + b == a;
    } else {
      var b' := b[..|b| - 1];
      assert (a + b)[..|a + b| - 1] == a + b';
      assert (a + b)[|a + b| - 1] == b[|b| - 1];
      AdvanceAllAppend(a, b', scaleX);
    }
  }

  /** Every survivor is the advance of some earlier particle, and every particle
      whose alpha exceeds the decay survives. */
  lemma {:induction false} AdvanceAllMembers(ps: seq<Particle>, scaleX: real)
    ensures forall q :: q in AdvanceAll(ps, scaleX) ==>
      exists i :: 0 <= i < |ps| && q == Advance(ps[i], scaleX) && ps[i].alpha > AlphaDecay
    ensures forall i :: 0 <= i < |ps| && ps[i].alpha > AlphaDecay ==> Advance(ps[i], scaleX) in AdvanceAll(ps, scaleX)
    decreases |ps|
  {
    if ps != [] {
      var init := ps[..|ps| - 1];
      AdvanceAllMembers(init, scaleX);
      forall q | q in AdvanceAll(ps, scaleX)
        ensures exists i :: 0 <= i < |ps| && q == Advance(ps[i], scaleX) && ps[i].alpha > AlphaDecay
      {
        if q in AdvanceAll(init, scaleX) {
          var i :| 0 <= i < |init| && q == Advance(init[i], scaleX) && init[i].alpha > AlphaDecay;
          assert ps[i] == init[i];
        } else {
          assert ps[|ps| - 1].alpha > AlphaDecay;
        }
      }
    }
  }

  /** Alphas of live particles: visible, and never above the spawn value. */
  predicate Alive(ps: seq<Particle>)
  {
    forall i :: 0 <= i < |ps| ==> 0.0 < ps[i].alpha <= SpawnAlpha
  }

  /** A frame keeps the particles alive and makes every survivor fainter than
      the particle it came from. */
  lemma AdvanceAllKeepsAlive(ps: seq<Particle>, scaleX: real)
    requires Alive(ps)
    ensures Alive(AdvanceAll(ps, scaleX))
  {
    var r := AdvanceAll(ps, scaleX);
    AdvanceAllMembers(ps, scaleX);
    forall j | 0 <= j < |r|
      ensures 0.0 < r[j].alpha <= SpawnAlpha
    {
      assert r[j] in r;
    }
  }

  /** Fresh particles are alive. */
  lemma SpawnedAlive(p: Player, ds: seq<ParticleDraw>, scaleX: real, scaleY: real)
    requires ValidParticleDraws(ds)
    ensures Alive(Spawned(p, ds, scaleX, scaleY))
  {
  }
}
