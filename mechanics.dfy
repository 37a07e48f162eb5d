/** The physics of one frame as functions on values: a ball's state is a
    `Body`, a spring between two balls of the scene is a `Link` naming them
    by position in the scene's ball list. The classes of module Entities and
    the frame loop of module Driver are proved to compute exactly these. */
module Mechanics {
  import opened Geometry

  /** `DELTA_T`: the time step of one integration. */
  const DELTA_T: real := 0.1
  /** `NUM_OF_STEPS`: the elapsed-time budget of a run. */
  const NUM_OF_STEPS: real := 10000.0
  /** `GRAVITY`: the constant multiplied by a ball's mass. */
  const GRAVITY: real := 1.0

  /** The mass the Ball constructor derives: `(4/3) * size^3 * density`. */
  function Mass(size: real, density: real): (m: real)
    ensures 0.0 < size && 0.0 < density ==> 0.0 < m
  {
    (4.0 / 3.0) * (size * size * size) * density
  }

  function Add(u: Vec, v: Vec): Vec
  {
    seq(DIMENSION, i requires 0 <= i < DIMENSION => u[i] + v[i])
  }

  function Sub(u: Vec, v: Vec): Vec
  {
    seq(DIMENSION, i requires 0 <= i < DIMENSION => u[i] - v[i])
  }

  function Dot(u: Vec, v: Vec): real
  {
    u[0] * v[0] + u[1] * v[1]
  }

  /** The state of one ball: position, velocity, force accumulator, and the
      two attributes the physics reads, its mass and whether it is fixed. */
  datatype Body = Body(pos: Vec, vel: Vec, force: Vec, mass: real, fixed: bool)

  /** `Ball.calcForce`: the ball's weight is added to the vertical force. */
  function AddGravity(b: Body): (r: Body)
    ensures r.pos == b.pos && r.vel == b.vel && r.mass == b.mass && r.fixed == b.fixed
    ensures r.force[0] + r.force[1] == b.force[0] + b.force[1] + GRAVITY * b.mass
  {
    b.(force := b.force[1 := b.force[1] + GRAVITY * b.mass])
  }

  /** `Ball.update`: a free ball moves by its velocity from before the step
      and then takes a velocity step from the accumulated force; a fixed
      ball keeps both; either way the force accumulator is cleared. */
  function Integrate(b: Body): (r: Body)
    requires b.fixed || b.mass != 0.0
    ensures r.force == ZERO && r.mass == b.mass && r.fixed == b.fixed
  {
    if b.fixed then
      b.(force := ZERO)
    else
      b.(pos := seq(DIMENSION, i requires 0 <= i < DIMENSION => b.pos[i] + b.vel[i] * DELTA_T),
         vel := seq(DIMENSION, i requires 0 <= i < DIMENSION => b.vel[i] + b.force[i] / b.mass * DELTA_T),
         force := ZERO)
  }

  /** One ball's turn in the ball pass of a frame: gravity, then the step. */
  function StepBall(b: Body): (r: Body)
    requires b.fixed || b.mass != 0.0
    ensures r.force == ZERO && r.mass == b.mass && r.fixed == b.fixed
    ensures b.fixed ==> r.pos == b.pos && r.vel == b.vel
  {
    Integrate(AddGravity(b))
  }

  /** The force vector `Spring.calcForce` computes into `this.force`:
      per axis `(distance - length) * (p1[i] - p2[i]) / distance * k`.
      It is added to the second ball and subtracted from the first. The
      force lies on the line through the two balls. */
  function SpringForce(p1: Vec, p2: Vec, distance: real, length: real, k: real): (r: Vec)
    requires distance != 0.0
    ensures r[0] * (p1[1] - p2[1]) == r[1] * (p1[0] - p2[0])
  {
    ParallelAlgebra(distance - length, k, distance, p1[0] - p2[0], p1[1] - p2[1]);
    seq(DIMENSION, i requires 0 <= i < DIMENSION =>
      (distance - length) * ((p1[i] - p2[i]) / distance) * k)
  }

  /** A spring of the scene: the indices of its two balls, its rest length
      (`length`) and its spring constant. */
  datatype Link = Link(first: nat, second: nat, length: real, stiffness: real)

  /** The link joins two balls of `bs` that do not coincide, so that its
      force is defined. */
  predicate LinkFits(bs: seq<Body>, l: Link)
  {
    l.first < |bs| && l.second < |bs| && bs[l.first].pos != bs[l.second].pos
  }

  predicate LinksFit(bs: seq<Body>, links: seq<Link>)
  {
    forall j :: 0 <= j < |links| ==> LinkFits(bs, links[j])
  }

  /** Every ball can be integrated: fixed, or of non-zero mass. */
  predicate Integrable(bs: seq<Body>)
  {
    forall i :: 0 <= i < |bs| ==> bs[i].fixed || bs[i].mass != 0.0
  }

  /** Positions, velocities, masses and fixedness agree ball by ball. */
  predicate SameKinematics(a: seq<Body>, b: seq<Body>)
  {
    |a| == |b| &&
    forall i :: 0 <= i < |a| ==>
      a[i].pos == b[i].pos && a[i].vel == b[i].vel && a[i].mass == b[i].mass && a[i].fixed == b[i].fixed
  }

  /** The spring's current length, as `calcForce` recomputes it. */
  function LinkDistance(bs: seq<Body>, l: Link, sqrt: real -> real): (d: real)
    requires IsSqrt(sqrt) && LinkFits(bs, l)
    ensures 0.0 < d
  {
    DistanceZeroIff(sqrt, bs[l.first].pos, bs[l.second].pos);
    Distance(sqrt, bs[l.first].pos, bs[l.second].pos)
  }

  /** The force of a spring of the scene; it vanishes at rest length. */
  function LinkForce(bs: seq<Body>, l: Link, sqrt: real -> real): (f: Vec)
    requires IsSqrt(sqrt) && LinkFits(bs, l)
    ensures LinkDistance(bs, l, sqrt) == l.length ==> f == ZERO
  {
    SpringForceAtRest(bs[l.first].pos, bs[l.second].pos, LinkDistance(bs, l, sqrt), l.stiffness);
    SpringForce(bs[l.first].pos, bs[l.second].pos, LinkDistance(bs, l, sqrt), l.length, l.stiffness)
  }

  /** `Spring.calcForce` on the scene: the force leaves the first ball's
      accumulator and enters the second's. */
  function ApplyLink(bs: seq<Body>, l: Link, sqrt: real -> real): (r: seq<Body>)
    requires IsSqrt(sqrt) && LinkFits(bs, l)
    ensures SameKinematics(bs, r)
  {
    var f := LinkForce(bs, l, sqrt);
    var bs1 := bs[l.first := bs[l.first].(force := Sub(bs[l.first].force, f))];
    bs1[l.second := bs1[l.second].(force := Add(bs1[l.second].force, f))]
  }

  /** The spring pass of a frame: every spring's `calcForce`, in order. */
  function SpringPass(bs: seq<Body>, links: seq<Link>, sqrt: real -> real): (r: seq<Body>)
    requires IsSqrt(sqrt) && LinksFit(bs, links)
    ensures SameKinematics(bs, r)
  {
    if links == [] then bs
    else
      var prev := SpringPass(bs, links[..|links| - 1], sqrt);
      ApplyLink(prev, links[|links| - 1], sqrt)
  }

  /** The ball pass of a frame: every ball's `calcForce` then `update`. */
  function BallPass(bs: seq<Body>): (r: seq<Body>)
    requires Integrable(bs)
    ensures |r| == |bs|
    ensures forall i :: 0 <= i < |bs| ==>
      r[i].force == ZERO && r[i].mass == bs[i].mass && r[i].fixed == bs[i].fixed
  {
    seq(|bs|, i requires 0 <= i < |bs| => StepBall(bs[i]))
  }

  /** What one running frame does to the balls: afterwards every force
      accumulator is empty again. */
  function StepScene(bs: seq<Body>, links: seq<Link>, sqrt: real -> real): (r: seq<Body>)
    requires IsSqrt(sqrt) && LinksFit(bs, links) && Integrable(bs)
    ensures |r| == |bs|
    ensures forall i :: 0 <= i < |bs| ==> r[i].force == ZERO && r[i].fixed == bs[i].fixed
  {
    BallPass(SpringPass(bs, links, sqrt))
  }

  /** The sum of component `c` of all force accumulators. */
  function TotalForce(bs: seq<Body>, c: nat): real
    requires c < DIMENSION
  {
    if bs == [] then 0.0 else TotalForce(bs[..|bs| - 1], c) + bs[|bs| - 1].force[c]
  }

  // ---------------------------------------------------------------------
  // Ball

  /** Gravity only adds the ball's weight to `force[1]`: the horizontal
      force, the position and the velocity are untouched. */
  lemma GravityIsVertical(b: Body)
    ensures AddGravity(b).force[0] == b.force[0]
    ensures AddGravity(b).force[1] == b.force[1] + GRAVITY * b.mass
    ensures AddGravity(b).pos == b.pos && AddGravity(b).vel == b.vel
    ensures AddGravity(b).mass == b.mass && AddGravity(b).fixed == b.fixed
  {
  }

  /** A fixed ball neither moves nor changes velocity; its force is cleared. */
  lemma FixedBallStays(b: Body)
    requires b.fixed
    ensures Integrate(b).pos == b.pos && Integrate(b).vel == b.vel
    ensures Integrate(b).force == ZERO
  {
  }

  /** A free ball advances its position with the velocity it had before the
      step, then its velocity with the accumulated force over its mass. */
  lemma FreeBallSteps(b: Body)
    requires !b.fixed && b.mass != 0.0
    ensures forall i :: 0 <= i < DIMENSION ==>
      && Integrate(b).pos[i] == b.pos[i] + b.vel[i] * DELTA_T
      && Integrate(b).vel[i] == b.vel[i] + b.force[i] / b.mass * DELTA_T
    ensures Integrate(b).force == ZERO
  {
  }

  // ---------------------------------------------------------------------
  // Spring

  /** At rest length the spring exerts no force. */
  lemma SpringForceAtRest(p1: Vec, p2: Vec, distance: real, k: real)
    requires distance != 0.0
    ensures SpringForce(p1, p2, distance, distance, k) == ZERO
  {
    var f := SpringForce(p1, p2, distance, distance, k);
    assert f[0] == 0.0 && f[1] == 0.0;
  }

  /** Hooke's law along the line of the balls: the dot product of the
      force the first ball receives with the displacement `p2 - p1` is
      `(distance - length) * k * distance` (so its component along the unit
      vector is `(distance - length) * k`). A stretched spring with a
      positive constant pulls the first ball towards the second, a
      compressed one pushes it away, and the second ball gets the opposite. */
  lemma SpringPullsAlongLine(sqrt: real -> real, p1: Vec, p2: Vec, length: real, k: real)
    requires IsSqrt(sqrt) && p1 != p2
    ensures var d := Distance(sqrt, p1, p2);
      d != 0.0 &&
      Dot(Sub(ZERO, SpringForce(p1, p2, d, length, k)), Sub(p2, p1)) == (d - length) * k * d
  {
    var d := Distance(sqrt, p1, p2);
    DistanceZeroIff(sqrt, p1, p2);
    PlaneSumOfSquares(p1, p2);
    var f := SpringForce(p1, p2, d, length, k);
    var g, u := Sub(ZERO, f), Sub(p2, p1);
    PullAlgebra(f[0], f[1], d - length, k, d, p1[0] - p2[0], p1[1] - p2[1]);
    assert Dot(g, u) == (0.0 - f[0]) * (0.0 - (p1[0] - p2[0])) + (0.0 - f[1]) * (0.0 - (p1[1] - p2[1]));
  }

  /** The magnitude of the spring force is `|distance - length| * k`. */
  lemma SpringForceMagnitude(sqrt: real -> real, p1: Vec, p2: Vec, length: real, k: real)
    requires IsSqrt(sqrt) && p1 != p2
    ensures var d := Distance(sqrt, p1, p2);
      d != 0.0 &&
      Dot(SpringForce(p1, p2, d, length, k), SpringForce(p1, p2, d, length, k))
        == ((d - length) * k) * ((d - length) * k)
  {
    var d := Distance(sqrt, p1, p2);
    DistanceZeroIff(sqrt, p1, p2);
    PlaneSumOfSquares(p1, p2);
    var f := SpringForce(p1, p2, d, length, k);
    MagnitudeAlgebra(f[0], f[1], d - length, k, d, p1[0] - p2[0], p1[1] - p2[1]);
  }

  /** The algebra behind the direction of the force: both components
      carry the same factor `s * k / d`. */
  lemma ParallelAlgebra(s: real, k: real, d: real, a0: real, a1: real)
    requires d != 0.0
    ensures (s * (a0 / d) * k) * a1 == (s * (a1 / d) * k) * a0
  {
    var e := 1.0 / d;
    assert a0 / d == a0 * e && a1 / d == a1 * e;
    assert (s * (a0 * e) * k) * a1 == (s * (a1 * e) * k) * a0;
  }

  /** The algebra behind the projection: with `d` the length of `(a0, a1)`,
      the pull `x` projected on `-(a0, a1)` is `s * k * d`. */
  lemma PullAlgebra(x0: real, x1: real, s: real, k: real, d: real, a0: real, a1: real)
    requires d != 0.0 && d * d == a0 * a0 + a1 * a1
    requires x0 == s * (a0 / d) * k && x1 == s * (a1 / d) * k
    ensures (0.0 - x0) * (0.0 - a0) + (0.0 - x1) * (0.0 - a1) == s * k * d
  {
    var e := 1.0 / d;
    assert a0 / d == a0 * e && a1 / d == a1 * e;
    PullIdentity(s, k, e, a0, a1);
    assert e * (d * d) == (e * d) * d;
    assert e * d == 1.0;
  }

  lemma PullIdentity(s: real, k: real, e: real, a0: real, a1: real)
    ensures (0.0 - s * (a0 * e) * k) * (0.0 - a0) + (0.0 - s * (a1 * e) * k) * (0.0 - a1)
         == (s * k) * (e * (a0 * a0 + a1 * a1))
  {
  }

  /** The algebra behind the magnitude: scaling the unit vector
      `(a0, a1) / d` by `s * k` gives a vector of squared length `(s * k)^2`. */
  lemma MagnitudeAlgebra(x0: real, x1: real, s: real, k: real, d: real, a0: real, a1: real)
    requires d != 0.0 && d * d == a0 * a0 + a1 * a1
    requires x0 == s * (a0 / d) * k && x1 == s * (a1 / d) * k
    ensures x0 * x0 + x1 * x1 == (s * k) * (s * k)
  {
    var e := 1.0 / d;
    assert a0 / d == a0 * e && a1 / d == a1 * e;
    PolynomialIdentity(s, k, e, a0, a1);
    assert (e * e) * (d * d) == (e * d) * (e * d);
    assert e * d == 1.0;
  }

  lemma PolynomialIdentity(s: real, k: real, e: real, a0: real, a1: real)
    ensures (s * (a0 * e) * k) * (s * (a0 * e) * k) + (s * (a1 * e) * k) * (s * (a1 * e) * k)
         == ((s * k) * (s * k)) * ((e * e) * (a0 * a0 + a1 * a1))
  {
  }

  /** Equal and opposite: the first ball loses exactly what the second one
      gains, and no other ball's force changes. */
  lemma ApplyLinkEqualAndOpposite(bs: seq<Body>, l: Link, sqrt: real -> real, i: nat)
    requires IsSqrt(sqrt) && LinkFits(bs, l) && i < |bs|
    ensures l.first != l.second
    ensures var r, f := ApplyLink(bs, l, sqrt), LinkForce(bs, l, sqrt);
      r[i].force == if i == l.first then Sub(bs[i].force, f)
                    else if i == l.second then Add(bs[i].force, f)
                    else bs[i].force
  {
  }

  /** At its rest length a spring leaves every accumulator as it was. */
  lemma ApplyLinkAtRest(bs: seq<Body>, l: Link, sqrt: real -> real)
    requires IsSqrt(sqrt) && LinkFits(bs, l) && LinkDistance(bs, l, sqrt) == l.length
    ensures ApplyLink(bs, l, sqrt) == bs
  {
    var d := LinkDistance(bs, l, sqrt);
    SpringForceAtRest(bs[l.first].pos, bs[l.second].pos, d, l.stiffness);
    assert Sub(bs[l.first].force, ZERO) == bs[l.first].force;
    assert Add(bs[l.second].force, ZERO) == bs[l.second].force;
  }

  /** The spring's distance and force depend on the positions alone, so
      scenes with the same kinematics give the same ones. */
  lemma LinkForceKinematic(a: seq<Body>, b: seq<Body>, l: Link, sqrt: real -> real)
    requires IsSqrt(sqrt) && SameKinematics(a, b) && LinkFits(a, l)
    ensures LinkFits(b, l)
    ensures LinkDistance(a, l, sqrt) == LinkDistance(b, l, sqrt)
    ensures LinkForce(a, l, sqrt) == LinkForce(b, l, sqrt)
  {
  }

  /** One more spring of the pass, as `loop` runs them in order. */
  lemma SpringPassStep(bs: seq<Body>, links: seq<Link>, sqrt: real -> real, j: nat)
    requires IsSqrt(sqrt) && LinksFit(bs, links) && j < |links|
    ensures LinksFit(bs, links[..j]) && LinksFit(bs, links[..j + 1])
    ensures LinkFits(SpringPass(bs, links[..j], sqrt), links[j])
    ensures SpringPass(bs, links[..j + 1], sqrt) == ApplyLink(SpringPass(bs, links[..j], sqrt), links[j], sqrt)
  {
    assert links[..j + 1][..j] == links[..j];
    assert LinkFits(bs, links[j]);
    LinkForceKinematic(bs, SpringPass(bs, links[..j], sqrt), links[j], sqrt);
  }

  lemma {:induction false} TotalForceUpdate(bs: seq<Body>, i: nat, b: Body, c: nat)
    requires i < |bs| && c < DIMENSION
    ensures TotalForce(bs[i := b], c) == TotalForce(bs, c) - bs[i].force[c] + b.force[c]
  {
    var n := |bs| - 1;
    if i < n {
      TotalForceUpdate(bs[..n], i, b, c);
      assert bs[i := b][..n] == bs[..n][i := b];
    } else {
      assert bs[i := b][..n] == bs[..n];
    }
  }

  /** One spring leaves the sum of all forces unchanged. */
  lemma ApplyLinkKeepsTotal(bs: seq<Body>, l: Link, sqrt: real -> real, c: nat)
    requires IsSqrt(sqrt) && LinkFits(bs, l) && c < DIMENSION
    ensures TotalForce(ApplyLink(bs, l, sqrt), c) == TotalForce(bs, c)
  {
    var f := LinkForce(bs, l, sqrt);
    var bs1 := bs[l.first := bs[l.first].(force := Sub(bs[l.first].force, f))];
    TotalForceUpdate(bs, l.first, bs1[l.first], c);
    TotalForceUpdate(bs1, l.second, bs1[l.second].(force := Add(bs1[l.second].force, f)), c);
  }

  /** The spring pass is internal to the scene: it moves force between
      balls but leaves the total force unchanged. */
  lemma {:induction false} SpringPassKeepsTotal(bs: seq<Body>, links: seq<Link>, sqrt: real -> real, c: nat)
    requires IsSqrt(sqrt) && LinksFit(bs, links) && c < DIMENSION
    ensures TotalForce(SpringPass(bs, links, sqrt), c) == TotalForce(bs, c)
  {
    if links != [] {
      var front := links[..|links| - 1];
      assert LinksFit(bs, front);
      SpringPassKeepsTotal(bs, front, sqrt, c);
      ApplyLinkKeepsTotal(SpringPass(bs, front, sqrt), links[|links| - 1], sqrt, c);
    }
  }

  // ---------------------------------------------------------------------
  // A whole frame

  /** After a running frame every force accumulator is zero, fixed balls are
      where they were with the velocity they had, and free balls moved by
      their velocity from before the frame. */
  lemma StepSceneEffect(bs: seq<Body>, links: seq<Link>, sqrt: real -> real, i: nat)
    requires IsSqrt(sqrt) && LinksFit(bs, links) && Integrable(bs) && i < |bs|
    ensures |StepScene(bs, links, sqrt)| == |bs|
    ensures StepScene(bs, links, sqrt)[i].force == ZERO
    ensures StepScene(bs, links, sqrt)[i].mass == bs[i].mass
    ensures StepScene(bs, links, sqrt)[i].fixed == bs[i].fixed
    ensures bs[i].fixed ==>
      StepScene(bs, links, sqrt)[i].pos == bs[i].pos && StepScene(bs, links, sqrt)[i].vel == bs[i].vel
    ensures !bs[i].fixed ==> forall c :: 0 <= c < DIMENSION ==>
      StepScene(bs, links, sqrt)[i].pos[c] == bs[i].pos[c] + bs[i].vel[c] * DELTA_T
  {
    var mid := SpringPass(bs, links, sqrt);
    assert mid[i].pos == bs[i].pos && mid[i].vel == bs[i].vel;
    assert StepScene(bs, links, sqrt)[i] == StepBall(mid[i]);
  }

  /** The velocity a free ball has after a frame: its force after the
      spring pass plus its weight, over its mass, times the time step. */
  lemma StepSceneVelocity(bs: seq<Body>, links: seq<Link>, sqrt: real -> real, i: nat, c: nat)
    requires IsSqrt(sqrt) && LinksFit(bs, links) && Integrable(bs) && i < |bs| && c < DIMENSION
    requires !bs[i].fixed
    ensures var springForce := SpringPass(bs, links, sqrt)[i].force[c];
      var weight := if c == 1 then GRAVITY * bs[i].mass else 0.0;
      |StepScene(bs, links, sqrt)| == |bs| &&
      StepScene(bs, links, sqrt)[i].vel[c] == bs[i].vel[c] + (springForce + weight) / bs[i].mass * DELTA_T
  {
    var mid := SpringPass(bs, links, sqrt);
    assert mid[i].vel == bs[i].vel && mid[i].mass == bs[i].mass && !mid[i].fixed;
    StepBallVelocity(mid[i], c);
    assert StepScene(bs, links, sqrt)[i] == StepBall(mid[i]);
  }

  /** A free ball's velocity after its turn of the ball pass. */
  lemma StepBallVelocity(b: Body, c: nat)
    requires !b.fixed && b.mass != 0.0 && c < DIMENSION
    ensures var weight := if c == 1 then GRAVITY * b.mass else 0.0;
      StepBall(b).vel[c] == b.vel[c] + (b.force[c] + weight) / b.mass * DELTA_T
  {
    var g := AddGravity(b);
    assert g.force[c] == b.force[c] + (if c == 1 then GRAVITY * b.mass else 0.0);
  }

  /** `n` ball passes over a lone ball (no springs). */
  function Fall(b: Body, n: nat): (r: Body)
    requires b.fixed || b.mass != 0.0
    ensures r.mass == b.mass && r.fixed == b.fixed
  {
    if n == 0 then b else StepBall(Fall(b, n - 1))
  }

  /** One ball pass over a free ball whose accumulator is empty: only its
      weight acts, and the mass cancels. */
  lemma WeightOnlyStep(b: Body)
    requires !b.fixed && b.mass != 0.0 && b.force == ZERO
    ensures StepBall(b).vel == [b.vel[0], b.vel[1] + GRAVITY * DELTA_T]
    ensures StepBall(b).pos == [b.pos[0] + b.vel[0] * DELTA_T, b.pos[1] + b.vel[1] * DELTA_T]
    ensures StepBall(b).force == ZERO
  {
    var g := AddGravity(b);
    assert g.force[0] == 0.0 && g.force[1] == GRAVITY * b.mass;
    assert GRAVITY * b.mass / b.mass == GRAVITY;
  }

  /** `0 + 1 + ... + (n - 1)`: how many velocity increments the position
      has accumulated after `n` steps from rest. */
  function Triangle(n: nat): (t: nat)
  {
    if n == 0 then 0 else Triangle(n - 1) + (n - 1)
  }

  lemma {:induction false} TriangleClosedForm(n: nat)
    ensures 2 * Triangle(n) == n * (n - 1)
  {
    if n > 0 {
      TriangleClosedForm(n - 1);
      assert (n - 1) * (n - 2) + 2 * (n - 1) == n * (n - 1);
    }
  }

  /** A free ball dropped from rest: after `n` steps its velocity is
      `[0, n * GRAVITY * DELTA_T]` (the mass cancels) and it has fallen
      `Triangle(n) * GRAVITY * DELTA_T^2`, that is
      `n * (n - 1) / 2 * GRAVITY * DELTA_T^2`: the discrete recurrence in
      which each step moves with the velocity from before that step. */
  lemma {:induction false} FreeFall(b: Body, n: nat)
    requires !b.fixed && b.mass != 0.0 && b.vel == ZERO && b.force == ZERO
    ensures Fall(b, n).vel == [0.0, (n as real) * GRAVITY * DELTA_T]
    ensures Fall(b, n).pos == [b.pos[0], b.pos[1] + (Triangle(n) as real) * GRAVITY * DELTA_T * DELTA_T]
    ensures Fall(b, n).force == ZERO
    ensures 2 * Triangle(n) == n * (n - 1)
  {
    TriangleClosedForm(n);
    if n > 0 {
      FreeFall(b, n - 1);
      WeightOnlyStep(Fall(b, n - 1));
    }
  }
}
