/** The proximity-graph particle field of `ParticleNetwork`
    (src/components/ThreeBackground.jsx:7-89).

    Each frame every particle is integrated, reflected at the x/y bound and
    either pushed away from the pointer or relaxed back to cruising speed;
    afterwards a position buffer (3 numbers per particle) and an edge buffer
    (6 numbers per pair of particles closer than the connection radius) are
    rebuilt from the updated particles.

    Lengths come from a `norm` function (see module Vectors); distance
    thresholds are compared on squared distances. */
module ParticleNetwork {
  import opened Vectors

  const Count: nat := 100
  /** Particles bounce when x or y leaves [-Bound, Bound]. */
  const Bound: real := 10.0
  /** Connection radius of the edge test. */
  const Radius: real := 2.0
  /** The pointer's normalised coordinates are scaled by this into world units. */
  const PointerScale: real := 10.0
  const RepelRadius: real := 4.0
  const RepelForce: real := 0.1
  const MaxSpeed: real := 0.2
  const CruiseMin: real := 0.01
  const CruiseMax: real := 0.02

  datatype Particle = Particle(position: Vec3, velocity: Vec3)

  /** A new particle from five uniform draws: position in the
      [-10,10) x [-10,10) x [-5,5) box, planar velocity. */
  function Spawn(rx: real, ry: real, rz: real, rvx: real, rvy: real): Particle {
    Particle(Vec3((rx - 0.5) * 20.0, (ry - 0.5) * 20.0, (rz - 0.5) * 10.0),
             Vec3((rvx - 0.5) * 0.02, (rvy - 0.5) * 0.02, 0.0))
  }

  // ---------------------------------------------------------------------
  // One particle, one frame

  function Integrate(p: Particle): Particle {
    Particle(Add(p.position, p.velocity), p.velocity)
  }

  predicate OutOfBound(c: real) {
    c > Bound || c < -Bound
  }

  /** The boundary test of ThreeBackground.jsx:37-38: a velocity component is
      negated whenever its coordinate is outside the bound. */
  function ReflectAsWritten(p: Particle): Particle {
    var v := p.velocity;
    Particle(p.position,
             Vec3(if OutOfBound(p.position.x) then -v.x else v.x,
                  if OutOfBound(p.position.y) then -v.y else v.y,
                  v.z))
  }

  /** Beyond the bound and still moving away from the box. */
  predicate HeadingOut(c: real, v: real) {
    (c > Bound && v > 0.0) || (c < -Bound && v < 0.0)
  }

  /** The boundary test as evidently intended: negate a velocity component
      only while it carries the particle further out. */
  function ReflectOutward(p: Particle): Particle {
    var v := p.velocity;
    Particle(p.position,
             Vec3(if HeadingOut(p.position.x, v.x) then -v.x else v.x,
                  if HeadingOut(p.position.y, v.y) then -v.y else v.y,
                  v.z))
  }

  /** The pointer point `(mouse.x * 10, mouse.y * 10, 0)`. */
  function PointerWorld(mouseX: real, mouseY: real): Vec3 {
    Vec3(mouseX * PointerScale, mouseY * PointerScale, 0.0)
  }

  /** `position.distanceTo(pointer) < 4`. */
  predicate NearPointer(p: Particle, pointer: Vec3, norm: Vec3 -> real) {
    norm(Sub(p.position, pointer)) < RepelRadius
  }

  /** `position.clone().sub(pointer).normalize().multiplyScalar(0.1)` */
  function Repulsion(position: Vec3, pointer: Vec3, norm: Vec3 -> real): Vec3 {
    Scale(Normalize(Sub(position, pointer), norm), RepelForce)
  }

  /** Pointer repulsion with the velocity capped at 0.2, or else relaxation
      of the velocity length into [0.01, 0.02]. */
  function Steer(p: Particle, pointer: Vec3, norm: Vec3 -> real): Particle {
    if NearPointer(p, pointer, norm) then
      Particle(p.position,
               ClampLength(Add(p.velocity, Repulsion(p.position, pointer, norm)), 0.0, MaxSpeed, norm))
    else
      Particle(p.position, ClampLength(p.velocity, CruiseMin, CruiseMax, norm))
  }

  /** The per-particle update of src/components/ThreeBackground.jsx:33-49. */
  function StepAsWritten(p: Particle, mouseX: real, mouseY: real, norm: Vec3 -> real): Particle {
    Steer(ReflectAsWritten(Integrate(p)), PointerWorld(mouseX, mouseY), norm)
  }

  /** The same update with the outward-only reflection. */
  function Step(p: Particle, mouseX: real, mouseY: real, norm: Vec3 -> real): Particle {
    Steer(ReflectOutward(Integrate(p)), PointerWorld(mouseX, mouseY), norm)
  }

  /** The step the network applies: as written, or with the corrected
      reflection. */
  function StepBy(corrected: bool, p: Particle, mouseX: real, mouseY: real, norm: Vec3 -> real): Particle {
    if corrected then Step(p, mouseX, mouseY, norm) else StepAsWritten(p, mouseX, mouseY, norm)
  }

  // ---------------------------------------------------------------------
  // Properties of one step

  /** A draw of `Math.random()`. */
  predicate IsDraw(r: real) {
    0.0 <= r < 1.0
  }

  /** A new particle starts inside the bound box, moving slowly in the plane. */
  lemma SpawnRanges(rx: real, ry: real, rz: real, rvx: real, rvy: real)
    requires IsDraw(rx) && IsDraw(ry) && IsDraw(rz) && IsDraw(rvx) && IsDraw(rvy)
    ensures var p := Spawn(rx, ry, rz, rvx, rvy);
      -Bound <= p.position.x < Bound && -Bound <= p.position.y < Bound &&
      -5.0 <= p.position.z < 5.0 &&
      -0.01 <= p.velocity.x < 0.01 && -0.01 <= p.velocity.y < 0.01 && p.velocity.z == 0.0
  {
  }

  /** Both versions of the step move a particle by its old velocity before
      anything else: no boundary or pointer test changes the position. */
  lemma StepMovesByVelocity(p: Particle, mouseX: real, mouseY: real, norm: Vec3 -> real)
    ensures Step(p, mouseX, mouseY, norm).position == Add(p.position, p.velocity)
    ensures StepAsWritten(p, mouseX, mouseY, norm).position == Add(p.position, p.velocity)
  {
  }

  /** The written test negates the x (y) velocity exactly when x (y) is
      outside [-10, 10]; z is never tested and the position is never clamped.
      So at a fixed position it undoes itself when applied twice. */
  lemma ReflectAsWrittenFlips(p: Particle)
    ensures var r := ReflectAsWritten(p);
      r.position == p.position && r.velocity.z == p.velocity.z &&
      (r.velocity.x == -p.velocity.x <==> OutOfBound(p.position.x) || p.velocity.x == 0.0) &&
      (r.velocity.y == -p.velocity.y <==> OutOfBound(p.position.y) || p.velocity.y == 0.0) &&
      (!OutOfBound(p.position.x) ==> r.velocity.x == p.velocity.x) &&
      (!OutOfBound(p.position.y) ==> r.velocity.y == p.velocity.y)
    ensures ReflectAsWritten(ReflectAsWritten(p)) == p
  {
  }

  /** The corrected test leaves no component heading out of the box, never
      touches a particle inside the box or z, and is idempotent: it reflects
      once per crossing. */
  lemma ReflectOutwardSettles(p: Particle)
    ensures var r := ReflectOutward(p);
      r.position == p.position && r.velocity.z == p.velocity.z &&
      !HeadingOut(r.position.x, r.velocity.x) && !HeadingOut(r.position.y, r.velocity.y) &&
      (!OutOfBound(p.position.x) ==> r.velocity.x == p.velocity.x) &&
      (!OutOfBound(p.position.y) ==> r.velocity.y == p.velocity.y) &&
      (r.velocity.x == -p.velocity.x <==> HeadingOut(p.position.x, p.velocity.x) || p.velocity.x == 0.0)
    ensures ReflectOutward(ReflectOutward(p)) == ReflectOutward(p)
  {
  }

  /** `distanceTo(q) < r` is the same test as a squared distance below r². */
  lemma DistanceBelowIff(a: Vec3, b: Vec3, r: real, norm: Vec3 -> real)
    requires IsEuclideanNorm(norm) && 0.0 < r
    ensures norm(Sub(a, b)) < r <==> DistSq(a, b) < r * r
  {
    LengthBelowIff(norm(Sub(a, b)), DistSq(a, b), r);
  }

  lemma NearPointerIff(p: Particle, pointer: Vec3, norm: Vec3 -> real)
    requires IsEuclideanNorm(norm)
    ensures NearPointer(p, pointer, norm) <==> DistSq(p.position, pointer) < RepelRadius * RepelRadius
  {
    DistanceBelowIff(p.position, pointer, RepelRadius, norm);
  }

  /** The repulsion has length 0.1 and points away from the pointer (its
      component along position - pointer is 0.1 times the distance); at the
      pointer itself it is zero. */
  lemma RepulsionAway(position: Vec3, pointer: Vec3, norm: Vec3 -> real)
    requires IsEuclideanNorm(norm)
    ensures var d, f := Sub(position, pointer), Repulsion(position, pointer, norm);
      (NormSq(d) == 0.0 ==> NormSq(f) == 0.0) &&
      (NormSq(d) != 0.0 ==> NormSq(f) == RepelForce * RepelForce && Dot(f, d) == RepelForce * norm(d) && 0.0 < Dot(f, d))
  {
    var d := Sub(position, pointer);
    var l := norm(d);
    assert IsLengthOf(l, NormSq(d));
    var u := NormalizeBy(d, l);
    NormalizeByUnit(d, l);
    NormSqScale(u, RepelForce);
    if NormSq(d) != 0.0 {
      assert l != 0.0;
      var k := 1.0 / l;
      assert u == Scale(d, k);
      DotScale(u, d, RepelForce);
      DotScale(d, d, k);
      InverseTimesSquare(l);
      MulPos(RepelForce, l);
    } else {
      NormSqScale(d, RepelForce);
    }
  }

  /** Near the pointer the new speed is at most 0.2; elsewhere it is at most
      0.02 and, unless the particle is at rest, at least 0.01. */
  lemma SteerSpeed(p: Particle, pointer: Vec3, norm: Vec3 -> real)
    requires IsEuclideanNorm(norm)
    ensures var r := Steer(p, pointer, norm);
      r.position == p.position &&
      (NearPointer(p, pointer, norm) ==> NormSq(r.velocity) <= MaxSpeed * MaxSpeed) &&
      (!NearPointer(p, pointer, norm) ==>
        NormSq(r.velocity) <= CruiseMax * CruiseMax &&
        (NormSq(p.velocity) != 0.0 ==> CruiseMin * CruiseMin <= NormSq(r.velocity)) &&
        (NormSq(p.velocity) == 0.0 ==> NormSq(r.velocity) == 0.0))
  {
    if NearPointer(p, pointer, norm) {
      var v := Add(p.velocity, Repulsion(p.position, pointer, norm));
      ClampLengthByBounds(v, 0.0, MaxSpeed, norm(v));
    } else {
      var v := p.velocity;
      ClampLengthByBounds(v, CruiseMin, CruiseMax, norm(v));
      ClampLengthByExact(v, CruiseMin, CruiseMax, norm(v));
    }
  }

  /** The speed bounds of a whole step. */
  lemma StepSpeed(p: Particle, mouseX: real, mouseY: real, norm: Vec3 -> real)
    requires IsEuclideanNorm(norm)
    ensures NormSq(Step(p, mouseX, mouseY, norm).velocity) <= MaxSpeed * MaxSpeed
    ensures NormSq(StepAsWritten(p, mouseX, mouseY, norm).velocity) <= MaxSpeed * MaxSpeed
  {
    var pointer := PointerWorld(mouseX, mouseY);
    SteerSpeed(ReflectOutward(Integrate(p)), pointer, norm);
    SteerSpeed(ReflectAsWritten(Integrate(p)), pointer, norm);
  }

  /** With the corrected test, a particle beyond the bound and out of the
      pointer's reach never leaves the step moving further out. */
  lemma StepHeadsBack(p: Particle, mouseX: real, mouseY: real, norm: Vec3 -> real)
    requires IsEuclideanNorm(norm)
    requires !NearPointer(ReflectOutward(Integrate(p)), PointerWorld(mouseX, mouseY), norm)
    ensures var r := Step(p, mouseX, mouseY, norm);
      !HeadingOut(r.position.x, r.velocity.x) && !HeadingOut(r.position.y, r.velocity.y)
  {
    var q := ReflectOutward(Integrate(p));
    var v := q.velocity;
    var l := norm(v);
    assert IsLengthOf(l, NormSq(v));
    ClampLengthBySign(v, CruiseMin, CruiseMax, l);
  }

  // The written reflection, replayed on one particle that the pointer has
  // pushed just past the bound and that has since slowed back to cruising
  // speed: it flips direction every frame and never gets back inside.

  const Stuck := Particle(Vec3(10.1, 0.0, 0.0), Vec3(-0.02, 0.0, 0.0))

  /** Relaxing a velocity already at cruising speed 0.02 along x keeps it. */
  lemma CruiseKeeps(vx: real, norm: Vec3 -> real)
    requires IsEuclideanNorm(norm) && (vx == 0.02 || vx == -0.02)
    ensures norm(Vec3(vx, 0.0, 0.0)) == 0.02
    ensures ClampLength(Vec3(vx, 0.0, 0.0), CruiseMin, CruiseMax, norm) == Vec3(vx, 0.0, 0.0)
  {
    var v := Vec3(vx, 0.0, 0.0);
    assert IsLengthOf(norm(v), NormSq(v));
    assert IsLengthOf(0.02, NormSq(v));
    LengthUnique(norm(v), 0.02, NormSq(v));
  }

  /** Far from the pointer, a particle that the boundary test leaves at
      cruising speed along x keeps that velocity. */
  lemma CruisingStep(q: Particle, pointer: Vec3, norm: Vec3 -> real)
    requires IsEuclideanNorm(norm)
    requires q.velocity == Vec3(0.02, 0.0, 0.0) || q.velocity == Vec3(-0.02, 0.0, 0.0)
    requires DistSq(q.position, pointer) >= 16.0
    ensures !NearPointer(q, pointer, norm) && norm(q.velocity) == 0.02
    ensures Steer(q, pointer, norm) == q
  {
    assert RepelRadius * RepelRadius == 16.0;
    NearPointerIff(q, pointer, norm);
    CruiseKeeps(q.velocity.x, norm);
  }

  /** The corner pointer is far from both places Stuck visits. */
  lemma FarFromCorner()
    ensures DistSq(Vec3(10.08, 0.0, 0.0), Vec3(-10.0, -10.0, 0.0)) >= 16.0
    ensures DistSq(Vec3(10.1, 0.0, 0.0), Vec3(-10.0, -10.0, 0.0)) >= 16.0
  {
    assert Sub(Vec3(10.08, 0.0, 0.0), Vec3(-10.0, -10.0, 0.0)) == Vec3(20.08, 10.0, 0.0);
    assert Sub(Vec3(10.1, 0.0, 0.0), Vec3(-10.0, -10.0, 0.0)) == Vec3(20.1, 10.0, 0.0);
  }

  /** After moving, Stuck is at x = 10.08, beyond the bound but heading
      back: the written test turns it round, the corrected one does not. */
  lemma StuckReflections()
    ensures ReflectAsWritten(Integrate(Stuck)) == Particle(Vec3(10.08, 0.0, 0.0), Vec3(0.02, 0.0, 0.0))
    ensures ReflectOutward(Integrate(Stuck)) == Particle(Vec3(10.08, 0.0, 0.0), Vec3(-0.02, 0.0, 0.0))
  {
    assert Integrate(Stuck) == Particle(Vec3(10.08, 0.0, 0.0), Vec3(-0.02, 0.0, 0.0));
  }

  /** An ordinary crossing: a particle at x = 9.99 moving out at 0.02 lands
      at 10.01, beyond the bound ... */
  lemma OrdinaryCrossing()
    ensures Integrate(Particle(Vec3(9.99, 0.0, 0.0), Vec3(0.02, 0.0, 0.0))) ==
      Particle(Vec3(10.01, 0.0, 0.0), Vec3(0.02, 0.0, 0.0))
    ensures OutOfBound(10.01) && HeadingOut(10.01, 0.02)
  {
  }

  /** ... and both tests turn it back. */
  lemma CrossingTurnsBack()
    ensures ReflectAsWritten(Particle(Vec3(10.01, 0.0, 0.0), Vec3(0.02, 0.0, 0.0))) ==
      Particle(Vec3(10.01, 0.0, 0.0), Vec3(-0.02, 0.0, 0.0))
    ensures ReflectOutward(Particle(Vec3(10.01, 0.0, 0.0), Vec3(0.02, 0.0, 0.0))) ==
      Particle(Vec3(10.01, 0.0, 0.0), Vec3(-0.02, 0.0, 0.0))
  {
  }

  /** The first frame: Stuck turns outward while still beyond the bound. */
  lemma AsWrittenFirstFrame(norm: Vec3 -> real)
    requires IsEuclideanNorm(norm)
    ensures StepAsWritten(Stuck, -1.0, -1.0, norm) == Particle(Vec3(10.08, 0.0, 0.0), Vec3(0.02, 0.0, 0.0))
  {
    StuckReflections();
    assert PointerWorld(-1.0, -1.0) == Vec3(-10.0, -10.0, 0.0);
    FarFromCorner();
    CruisingStep(Particle(Vec3(10.08, 0.0, 0.0), Vec3(0.02, 0.0, 0.0)), Vec3(-10.0, -10.0, 0.0), norm);
  }

  /** The second frame: it turns inward again, back where it started. */
  lemma AsWrittenSecondFrame(norm: Vec3 -> real)
    requires IsEuclideanNorm(norm)
    ensures StepAsWritten(Particle(Vec3(10.08, 0.0, 0.0), Vec3(0.02, 0.0, 0.0)), -1.0, -1.0, norm) == Stuck
  {
    assert ReflectAsWritten(Integrate(Particle(Vec3(10.08, 0.0, 0.0), Vec3(0.02, 0.0, 0.0)))) == Stuck;
    assert PointerWorld(-1.0, -1.0) == Vec3(-10.0, -10.0, 0.0);
    FarFromCorner();
    CruisingStep(Particle(Vec3(10.1, 0.0, 0.0), Vec3(-0.02, 0.0, 0.0)), Vec3(-10.0, -10.0, 0.0), norm);
  }

  /** The as-written step sends Stuck outward and then back to where it
      started: a two-frame cycle entirely outside the bound. */
  lemma AsWrittenCycle(norm: Vec3 -> real)
    requires IsEuclideanNorm(norm)
    ensures StepAsWritten(StepAsWritten(Stuck, -1.0, -1.0, norm), -1.0, -1.0, norm) == Stuck
    ensures OutOfBound(Stuck.position.x) && OutOfBound(StepAsWritten(Stuck, -1.0, -1.0, norm).position.x)
    ensures HeadingOut(StepAsWritten(Stuck, -1.0, -1.0, norm).position.x, StepAsWritten(Stuck, -1.0, -1.0, norm).velocity.x)
  {
    AsWrittenFirstFrame(norm);
    AsWrittenSecondFrame(norm);
  }

  /** The corrected step keeps Stuck heading back towards the box. */
  lemma CorrectedLeavesCycle(norm: Vec3 -> real)
    requires IsEuclideanNorm(norm)
    ensures Step(Stuck, -1.0, -1.0, norm) == Particle(Vec3(10.08, 0.0, 0.0), Vec3(-0.02, 0.0, 0.0))
  {
    StuckReflections();
    assert PointerWorld(-1.0, -1.0) == Vec3(-10.0, -10.0, 0.0);
    FarFromCorner();
    CruisingStep(Particle(Vec3(10.08, 0.0, 0.0), Vec3(-0.02, 0.0, 0.0)), Vec3(-10.0, -10.0, 0.0), norm);
  }

  // ---------------------------------------------------------------------
  // Buffers rebuilt after the update

  function Coords(v: Vec3): seq<real> {
    [v.x, v.y, v.z]
  }

  /** The points geometry's `position` attribute: x, y, z of each particle. */
  function PositionBuffer(ps: seq<Particle>): seq<real>
    decreases |ps|
  {
    if |ps| == 0 then [] else PositionBuffer(ps[..|ps| - 1]) + Coords(ps[|ps| - 1].position)
  }

  /** `a.distanceTo(b) < 2`. */
  predicate Close(a: Vec3, b: Vec3, norm: Vec3 -> real) {
    norm(Sub(a, b)) < Radius
  }

  /** A line segment between particles i and j. */
  datatype Edge = Edge(i: nat, j: nat)

  predicate EdgeBefore(e: Edge, f: Edge) {
    e.i < f.i || (e.i == f.i && e.j < f.j)
  }

  /** Strictly increasing, hence free of duplicates. */
  predicate InOrder(es: seq<Edge>) {
    forall a, b :: 0 <= a < b < |es| ==> EdgeBefore(es[a], es[b])
  }

  /** The pairs (i, k), i < k < j, that the inner loop has found so far. */
  function RowEdges(ps: seq<Particle>, i: nat, j: nat, norm: Vec3 -> real): (r: seq<Edge>)
    requires i < |ps| && j <= |ps|
    ensures forall e :: e in r ==> e.i == i && i < e.j < j
    decreases j
  {
    if j <= i + 1 then []
    else
      var rest := RowEdges(ps, i, j - 1, norm);
      if Close(ps[i].position, ps[j - 1].position, norm) then rest + [Edge(i, j - 1)] else rest
  }

  /** The pairs whose first particle is below i, in the order the nested
      loops find them. */
  function EdgesBelow(ps: seq<Particle>, i: nat, norm: Vec3 -> real): (r: seq<Edge>)
    requires i <= |ps|
    ensures forall e :: e in r ==> e.i < i && e.i < e.j < |ps|
  {
    if i == 0 then [] else EdgesBelow(ps, i - 1, norm) + RowEdges(ps, i - 1, |ps|, norm)
  }

  /** Every pair the nested loops connect, in loop order. */
  function ClosePairs(ps: seq<Particle>, norm: Vec3 -> real): (r: seq<Edge>) {
    EdgesBelow(ps, |ps|, norm)
  }

  predicate ValidEdges(ps: seq<Particle>, es: seq<Edge>) {
    forall k :: 0 <= k < |es| ==> es[k].i < |ps| && es[k].j < |ps|
  }

  /** The segments of a list of pairs, six numbers each: the first
      endpoint's coordinates, then the second's. (A pair naming a particle
      that does not exist has no segment; the pairs the loops find always
      exist, see ClosePairsValid.) */
  function Segments(ps: seq<Particle>, es: seq<Edge>): seq<real>
    decreases |es|
  {
    if |es| == 0 then []
    else
      var e := es[|es| - 1];
      Segments(ps, es[..|es| - 1]) +
      (if e.i < |ps| && e.j < |ps| then Coords(ps[e.i].position) + Coords(ps[e.j].position) else [])
  }

  /** The line segments geometry's `position` attribute. */
  function EdgeBuffer(ps: seq<Particle>, norm: Vec3 -> real): seq<real> {
    Segments(ps, ClosePairs(ps, norm))
  }

  // Properties of the buffers

  /** The position buffer holds three numbers per particle, particle k's
      coordinates at offsets 3k, 3k+1, 3k+2. */
  lemma {:induction false} PositionBufferLayout(ps: seq<Particle>)
    ensures |PositionBuffer(ps)| == 3 * |ps|
    ensures forall k :: 0 <= k < |ps| ==> PositionBuffer(ps)[3 * k..3 * k + 3] == Coords(ps[k].position)
    decreases |ps|
  {
    if |ps| > 0 {
      var init := ps[..|ps| - 1];
      PositionBufferLayout(init);
      var b := PositionBuffer(ps);
      assert b == PositionBuffer(init) + Coords(ps[|ps| - 1].position);
      forall k | 0 <= k < |ps| ensures b[3 * k..3 * k + 3] == Coords(ps[k].position) {
        if k < |ps| - 1 {
          assert b[3 * k..3 * k + 3] == PositionBuffer(init)[3 * k..3 * k + 3];
          assert init[k] == ps[k];
        }
      }
    }
  }

  /** Membership in a row: exactly the close pairs (i, k) with i < k < j. */
  lemma {:induction false} RowEdgesMembers(ps: seq<Particle>, i: nat, j: nat, norm: Vec3 -> real)
    requires i < |ps| && j <= |ps|
    ensures forall e :: e in RowEdges(ps, i, j, norm) <==>
      e.i == i && i < e.j < j && Close(ps[e.i].position, ps[e.j].position, norm)
    decreases j
  {
    if j > i + 1 {
      RowEdgesMembers(ps, i, j - 1, norm);
    }
  }

  lemma {:induction false} EdgesBelowMembers(ps: seq<Particle>, i: nat, norm: Vec3 -> real)
    requires i <= |ps|
    ensures forall e :: e in EdgesBelow(ps, i, norm) <==>
      e.i < i && e.i < e.j < |ps| && Close(ps[e.i].position, ps[e.j].position, norm)
  {
    if i > 0 {
      EdgesBelowMembers(ps, i - 1, norm);
      RowEdgesMembers(ps, i - 1, |ps|, norm);
    }
  }

  /** A pair is connected exactly when i < j and the two particles are
      closer than the radius: no close pair is missed, none is invented. */
  lemma ClosePairsMembers(ps: seq<Particle>, norm: Vec3 -> real)
    ensures forall e :: e in ClosePairs(ps, norm) <==>
      e.i < e.j < |ps| && Close(ps[e.i].position, ps[e.j].position, norm)
  {
    EdgesBelowMembers(ps, |ps|, norm);
  }

  /** Closeness does not depend on the order of the two particles. */
  lemma CloseSymmetric(a: Vec3, b: Vec3, norm: Vec3 -> real)
    requires IsEuclideanNorm(norm)
    ensures Close(a, b, norm) <==> Close(b, a, norm)
  {
    DistanceBelowIff(a, b, Radius, norm);
    DistanceBelowIff(b, a, Radius, norm);
    var dx, dy, dz := a.x - b.x, a.y - b.y, a.z - b.z;
    assert dx * dx == (-dx) * (-dx) && dy * dy == (-dy) * (-dy) && dz * dz == (-dz) * (-dz);
  }

  /** Each unordered pair of distinct particles is connected exactly when
      they are close, and then in one orientation only, lower index first. */
  lemma UnorderedPairOnce(ps: seq<Particle>, a: nat, b: nat, norm: Vec3 -> real)
    requires IsEuclideanNorm(norm) && a < |ps| && b < |ps| && a != b
    ensures (Edge(a, b) in ClosePairs(ps, norm) || Edge(b, a) in ClosePairs(ps, norm)) <==>
      Close(ps[a].position, ps[b].position, norm)
    ensures !(Edge(a, b) in ClosePairs(ps, norm) && Edge(b, a) in ClosePairs(ps, norm))
  {
    ClosePairsMembers(ps, norm);
    CloseSymmetric(ps[a].position, ps[b].position, norm);
  }

  lemma {:induction false} RowEdgesInOrder(ps: seq<Particle>, i: nat, j: nat, norm: Vec3 -> real)
    requires i < |ps| && j <= |ps|
    ensures InOrder(RowEdges(ps, i, j, norm))
    decreases j
  {
    if j > i + 1 {
      var rest := RowEdges(ps, i, j - 1, norm);
      RowEdgesInOrder(ps, i, j - 1, norm);
      if Close(ps[i].position, ps[j - 1].position, norm) {
        var r := rest + [Edge(i, j - 1)];
        forall a, b | 0 <= a < b < |r| ensures EdgeBefore(r[a], r[b]) {
          if b == |rest| {
            assert r[a] in rest;
          }
        }
      }
    }
  }

  lemma {:induction false} EdgesBelowInOrder(ps: seq<Particle>, i: nat, norm: Vec3 -> real)
    requires i <= |ps|
    ensures InOrder(EdgesBelow(ps, i, norm))
  {
    if i > 0 {
      var before, row := EdgesBelow(ps, i - 1, norm), RowEdges(ps, i - 1, |ps|, norm);
      EdgesBelowInOrder(ps, i - 1, norm);
      RowEdgesInOrder(ps, i - 1, |ps|, norm);
      var r := before + row;
      forall a, b | 0 <= a < b < |r| ensures EdgeBefore(r[a], r[b]) {
        if a < |before| <= b {
          assert r[a] in before;
          assert r[b] in row;
        } else if |before| <= a {
          assert r[a] == row[a - |before|] && r[b] == row[b - |before|];
        }
      }
    }
  }

  /** Pairs come in loop order, so no pair is connected twice. */
  lemma ClosePairsInOrder(ps: seq<Particle>, norm: Vec3 -> real)
    ensures InOrder(ClosePairs(ps, norm))
  {
    EdgesBelowInOrder(ps, |ps|, norm);
  }

  lemma ClosePairsValid(ps: seq<Particle>, norm: Vec3 -> real)
    ensures ValidEdges(ps, ClosePairs(ps, norm))
  {
    var es := ClosePairs(ps, norm);
    forall k | 0 <= k < |es| ensures es[k].i < |ps| && es[k].j < |ps| {
      assert es[k] in es;
    }
  }

  lemma SegmentsSnoc(ps: seq<Particle>, es: seq<Edge>, e: Edge)
    requires e.i < |ps| && e.j < |ps|
    ensures Segments(ps, es + [e]) == Segments(ps, es) + (Coords(ps[e.i].position) + Coords(ps[e.j].position))
  {
    assert (es + [e])[..|es|] == es;
  }

  lemma {:induction false} SegmentsAppend(ps: seq<Particle>, a: seq<Edge>, b: seq<Edge>)
    ensures Segments(ps, a + b) == Segments(ps, a) + Segments(ps, b)
    decreases |b|
  {
    if |b| == 0 {
      assert a + b == a;
    } else {
      var init, last := b[..|b| - 1], b[|b| - 1];
      SegmentsAppend(ps, a, init);
      assert (a + b)[..|a + b| - 1] == a + init;
      var tail :=
        if last.i < |ps| && last.j < |ps| then Coords(ps[last.i].position) + Coords(ps[last.j].position) else [];
      assert (a + b)[|a + b| - 1] == last;
      assert Segments(ps, a + b) == Segments(ps, a + init) + tail;
      assert Segments(ps, b) == Segments(ps, init) + tail;
      assert (Segments(ps, a) + Segments(ps, init)) + tail == Segments(ps, a) + (Segments(ps, init) + tail);
    }
  }

  /** One more turn of the outer loop pushes particle i's coordinates. */
  lemma PositionBufferPrefix(ps: seq<Particle>, i: nat)
    requires i < |ps|
    ensures PositionBuffer(ps[..i + 1]) == PositionBuffer(ps[..i]) + Coords(ps[i].position)
  {
    assert ps[..i + 1][..i] == ps[..i];
  }

  /** One more turn of the outer loop appends row i's segments. */
  lemma EdgesBelowNext(ps: seq<Particle>, i: nat, norm: Vec3 -> real)
    requires i < |ps|
    ensures Segments(ps, EdgesBelow(ps, i + 1, norm)) ==
      Segments(ps, EdgesBelow(ps, i, norm)) + Segments(ps, RowEdges(ps, i, |ps|, norm))
  {
    SegmentsAppend(ps, EdgesBelow(ps, i, norm), RowEdges(ps, i, |ps|, norm));
  }

  /** Block k of a segment list is the segment of pair k. */
  lemma {:induction false} SegmentsLayout(ps: seq<Particle>, es: seq<Edge>)
    requires ValidEdges(ps, es)
    ensures |Segments(ps, es)| == 6 * |es|
    ensures forall k :: 0 <= k < |es| ==>
      Segments(ps, es)[6 * k..6 * k + 6] == Coords(ps[es[k].i].position) + Coords(ps[es[k].j].position)
    decreases |es|
  {
    if |es| > 0 {
      var init := es[..|es| - 1];
      assert ValidEdges(ps, init);
      SegmentsLayout(ps, init);
      var b := Segments(ps, es);
      forall k | 0 <= k < |es| ensures b[6 * k..6 * k + 6] == Coords(ps[es[k].i].position) + Coords(ps[es[k].j].position) {
        if k < |es| - 1 {
          assert b[6 * k..6 * k + 6] == Segments(ps, init)[6 * k..6 * k + 6];
          assert init[k] == es[k];
        }
      }
    }
  }

  /** The edge buffer is six numbers per connected pair, in loop order:
      block k holds the two endpoints of the k-th close pair. */
  lemma EdgeBufferLayout(ps: seq<Particle>, norm: Vec3 -> real)
    ensures |EdgeBuffer(ps, norm)| == 6 * |ClosePairs(ps, norm)|
    ensures forall k :: 0 <= k < |ClosePairs(ps, norm)| ==>
      var e := ClosePairs(ps, norm)[k];
      EdgeBuffer(ps, norm)[6 * k..6 * k + 6] == Coords(ps[e.i].position) + Coords(ps[e.j].position)
  {
    ClosePairsValid(ps, norm);
    SegmentsLayout(ps, ClosePairs(ps, norm));
  }

  /** Two particles 1.5 apart are joined by one segment, from the first
      particle to the second. */
  lemma TwoCloseParticles(v0: Vec3, v1: Vec3, norm: Vec3 -> real)
    requires IsEuclideanNorm(norm)
    ensures var ps := [Particle(Vec3(0.0, 0.0, 0.0), v0), Particle(Vec3(1.5, 0.0, 0.0), v1)];
      ClosePairs(ps, norm) == [Edge(0, 1)] &&
      EdgeBuffer(ps, norm) == [0.0, 0.0, 0.0, 1.5, 0.0, 0.0] &&
      PositionBuffer(ps) == [0.0, 0.0, 0.0, 1.5, 0.0, 0.0]
  {
    var ps := [Particle(Vec3(0.0, 0.0, 0.0), v0), Particle(Vec3(1.5, 0.0, 0.0), v1)];
    DistanceBelowIff(ps[0].position, ps[1].position, Radius, norm);
    assert RowEdges(ps, 0, 2, norm) == [Edge(0, 1)];
    assert RowEdges(ps, 1, 2, norm) == [];
    assert EdgesBelow(ps, 1, norm) == [Edge(0, 1)];
    assert ClosePairs(ps, norm) == [Edge(0, 1)];
    assert [Edge(0, 1)][..0] == [];
    assert Segments(ps, [Edge(0, 1)]) == Segments(ps, []) + (Coords(ps[0].position) + Coords(ps[1].position));
    assert ps[..1][..0] == [];
    assert PositionBuffer(ps[..1]) == Coords(ps[0].position);
    assert PositionBuffer(ps) == PositionBuffer(ps[..1]) + Coords(ps[1].position);
  }

  // ---------------------------------------------------------------------
  // The field itself

  class Network {
    var particles: array<Particle>
    /** The points geometry's position attribute. */
    var positions: seq<real>
    /** The line segments geometry's position attribute. */
    var linePositions: seq<real>

    /** Creates `Count` particles from five uniform draws each. */
    constructor (draws: seq<real>)
      requires |draws| == 5 * Count
      ensures fresh(particles) && particles.Length == Count
      ensures forall k :: 0 <= k < Count ==>
        particles[k] == Spawn(draws[5 * k], draws[5 * k + 1], draws[5 * k + 2], draws[5 * k + 3], draws[5 * k + 4])
      ensures positions == [] && linePositions == []
    {
      var temp: seq<Particle> := [];
      var i := 0;
      while i < Count
        invariant 0 <= i <= Count && |temp| == i
        invariant forall k :: 0 <= k < i ==>
          temp[k] == Spawn(draws[5 * k], draws[5 * k + 1], draws[5 * k + 2], draws[5 * k + 3], draws[5 * k + 4])
      {
        temp := temp + [Spawn(draws[5 * i], draws[5 * i + 1], draws[5 * i + 2], draws[5 * i + 3], draws[5 * i + 4])];
        i := i + 1;
      }
      particles := new Particle[Count](k requires 0 <= k < Count => temp[k]);
      positions := [];
      linePositions := [];
    }

    /** One frame: every particle is stepped, then both buffers are rebuilt
        from the stepped particles. With `corrected` false each particle takes
        the step of ThreeBackground.jsx:33-49 as written; with it true, the
        step with the outward-only reflection. */
    method Frame(mouseX: real, mouseY: real, norm: Vec3 -> real, corrected: bool)
      modifies particles, this`positions, this`linePositions
      ensures forall k :: 0 <= k < particles.Length ==>
        particles[k] == StepBy(corrected, old(particles[k]), mouseX, mouseY, norm)
      ensures positions == PositionBuffer(particles[..])
      ensures linePositions == EdgeBuffer(particles[..], norm)
    {
      StepAll(mouseX, mouseY, norm, corrected);
      RebuildBuffers(norm);
    }

    /** The `particles.forEach` update loop. */
    method StepAll(mouseX: real, mouseY: real, norm: Vec3 -> real, corrected: bool)
      modifies particles
      ensures forall k :: 0 <= k < particles.Length ==>
        particles[k] == StepBy(corrected, old(particles[k]), mouseX, mouseY, norm)
    {
      var i := 0;
      while i < particles.Length
        invariant 0 <= i <= particles.Length
        invariant forall k :: 0 <= k < i ==>
          particles[k] == StepBy(corrected, old(particles[k]), mouseX, mouseY, norm)
        invariant forall k :: i <= k < particles.Length ==> particles[k] == old(particles[k])
      {
        particles[i] := StepBy(corrected, particles[i], mouseX, mouseY, norm);
        i := i + 1;
      }
    }

    /** The nested loop that pushes every particle's coordinates and every
        close pair's segment. */
    method RebuildBuffers(norm: Vec3 -> real)
      modifies this`positions, this`linePositions
      ensures positions == PositionBuffer(particles[..])
      ensures linePositions == EdgeBuffer(particles[..], norm)
    {
      var ps := particles[..];
      var n := particles.Length;
      var pos: seq<real> := [];
      var lines: seq<real> := [];
      var i := 0;
      while i < n
        invariant 0 <= i <= n
        invariant pos == PositionBuffer(ps[..i])
        invariant lines == Segments(ps, EdgesBelow(ps, i, norm))
      {
        PositionBufferPrefix(ps, i);
        pos := pos + Coords(ps[i].position);
        lines := ConnectRow(ps, i, lines, norm);
        EdgesBelowNext(ps, i, norm);
        i := i + 1;
      }
      assert ps[..n] == ps;
      assert lines == EdgeBuffer(ps, norm);
      positions := pos;
      linePositions := lines;
    }
  }

  /** The inner loop `for (let j = i + 1; j < count; j++)`: appends the
      segment of every pair (i, j) closer than the radius. */
  method ConnectRow(ps: seq<Particle>, i: nat, lines: seq<real>, norm: Vec3 -> real) returns (out: seq<real>)
    requires i < |ps|
    ensures out == lines + Segments(ps, RowEdges(ps, i, |ps|, norm))
  {
    out := lines;
    var j := i + 1;
    while j < |ps|
      invariant i + 1 <= j <= |ps|
      invariant out == lines + Segments(ps, RowEdges(ps, i, j, norm))
    {
      if Close(ps[i].position, ps[j].position, norm) {
        var segment := Coords(ps[i].position) + Coords(ps[j].position);
        SegmentsSnoc(ps, RowEdges(ps, i, j, norm), Edge(i, j));
        assert (lines + Segments(ps, RowEdges(ps, i, j, norm))) + segment ==
          lines + (Segments(ps, RowEdges(ps, i, j, norm)) + segment);
        out := out + segment;
      }
      j := j + 1;
    }
  }
}
