/** The two kinds of entity of the simulation, as the objects the frame
    loop updates in place. A ball's three vectors are arrays it owns; a
    spring refers to two balls it does not own and writes into their force
    accumulators. Each method is proved to compute the function of module
    Mechanics that describes it. */
module Entities {
  import opened Geometry
  import opened Mechanics

  /** Two plane vectors that agree on both axes are equal. */
  lemma SameVec(u: seq<real>, v: Vec)
    requires |u| == DIMENSION && u[0] == v[0] && u[1] == v[1]
    ensures u == v
  {
  }

  class Ball {
    const pos: array<real>
    const vel: array<real>
    const force: array<real>
    const size: real
    const density: real
    /** A CSS colour such as "rgb(0, 0, 0)"; only drawing reads it. */
    const color: string
    const mass: real
    const isFixed: bool

    /** Every vector has two components and lives in its own array, and the
        mass is the one the constructor derives. */
    ghost predicate Valid()
    {
      && pos.Length == DIMENSION && vel.Length == DIMENSION && force.Length == DIMENSION
      && pos != vel && pos != force && vel != force
      && mass == Mass(size, density)
    }

    /** The arrays this ball's methods write. */
    function Repr(): set<object>
    {
      {pos, vel, force}
    }

    ghost function State(): Body
      requires Valid()
      reads pos, vel, force
    {
      Body(pos[..], vel[..], force[..], mass, isFixed)
    }

    /** `new Ball(pos, vel, size, density, color, is_fixed)`: the ball keeps
        the arrays it is given and starts with an empty force accumulator. */
    constructor (pos: array<real>, vel: array<real>, size: real, density: real, color: string, isFixed: bool)
      requires pos.Length == DIMENSION && vel.Length == DIMENSION && pos != vel
      ensures Valid() && fresh(force)
      ensures this.pos == pos && this.vel == vel
      ensures this.size == size && this.density == density && this.color == color && this.isFixed == isFixed
      ensures State() == Body(pos[..], vel[..], ZERO, Mass(size, density), isFixed)
    {
      this.pos := pos;
      this.vel := vel;
      this.force := new real[DIMENSION](_ => 0.0);
      this.size := size;
      this.density := density;
      this.color := color;
      this.mass := Mass(size, density);
      this.isFixed := isFixed;
    }

    /** `calcForce`: adds the ball's weight to the vertical force and
        nothing else. */
    method CalcForce()
      requires Valid()
      modifies force
      ensures State() == AddGravity(old(State()))
      ensures force[0] == old(force[0]) && force[1] == old(force[1]) + GRAVITY * mass
      ensures unchanged(pos) && unchanged(vel)
    {
      force[1] := force[1] + GRAVITY * mass;
    }

    /** `update`: one integration step, then the force accumulator is
        cleared whether or not the ball is fixed. */
    method Update()
      requires Valid() && (isFixed || mass != 0.0)
      modifies pos, vel, force
      ensures State() == Integrate(old(State()))
      ensures forall i :: 0 <= i < DIMENSION ==> force[i] == 0.0
      ensures isFixed ==> pos[..] == old(pos[..]) && vel[..] == old(vel[..])
      ensures !isFixed ==> forall i :: 0 <= i < DIMENSION ==>
        pos[i] == old(pos[i]) + old(vel[i]) * DELTA_T && vel[i] == old(vel[i]) + old(force[i]) / mass * DELTA_T
    {
      ghost var next := Integrate(State());
      for i := 0 to DIMENSION
        invariant forall j :: 0 <= j < i ==> pos[j] == next.pos[j] && vel[j] == next.vel[j] && force[j] == 0.0
        invariant forall j :: i <= j < DIMENSION ==>
          pos[j] == old(pos[j]) && vel[j] == old(vel[j]) && force[j] == old(force[j])
      {
        if !isFixed {
          pos[i] := pos[i] + vel[i] * DELTA_T;
          vel[i] := vel[i] + force[i] / mass * DELTA_T;
        }
        force[i] := 0.0;
      }
      assert pos[..] == next.pos && vel[..] == next.vel && force[..] == next.force;
    }
  }

  class Spring {
    const ball1: Ball
    const ball2: Ball
    /** The force of the last `calcForce`, as the first ball's loss. */
    const force: array<real>
    /** The rest length. */
    const length: real
    const springConstant: real
    const color: string
    /** The distance of the two balls when it was last computed. */
    var distance: real

    /** Both balls are valid and share no array with each other or with the
        spring's own force vector. */
    ghost predicate Valid()
    {
      && force.Length == DIMENSION
      && ball1.Valid() && ball2.Valid()
      && ball1.Repr() !! ball2.Repr()
      && force !in ball1.Repr() && force !in ball2.Repr()
    }

    /** `new Spring(ball1, ball2, length, spring_constant)`: it records the
        current distance of the two balls; its force vector is allocated but
        not yet computed. */
    constructor (ball1: Ball, ball2: Ball, length: real, springConstant: real, sqrt: real -> real)
      requires ball1.Valid() && ball2.Valid() && IsSqrt(sqrt)
      ensures this.ball1 == ball1 && this.ball2 == ball2
      ensures this.length == length && this.springConstant == springConstant
      ensures color == "rgb(0, 0, 0)"
      ensures fresh(force) && force.Length == DIMENSION
      ensures distance == Distance(sqrt, ball1.pos[..], ball2.pos[..])
      ensures ball1.Repr() !! ball2.Repr() ==> Valid()
    {
      this.ball1 := ball1;
      this.ball2 := ball2;
      this.force := new real[DIMENSION];
      this.length := length;
      this.distance := Distance(sqrt, ball1.pos[..], ball2.pos[..]);
      this.springConstant := springConstant;
      this.color := "rgb(0, 0, 0)";
    }

    /** `calcForce`: recomputes the distance, then per axis computes Hooke's
        force and moves it from the first ball's accumulator to the second's.
        The balls must not coincide: the source divides by the distance. */
    method CalcForce(sqrt: real -> real)
      requires Valid() && IsSqrt(sqrt)
      requires ball1.pos[..] != ball2.pos[..]
      modifies this, force, ball1.force, ball2.force
      ensures distance == Distance(sqrt, ball1.pos[..], ball2.pos[..]) && distance != 0.0
      ensures force[..] == SpringForce(ball1.pos[..], ball2.pos[..], distance, length, springConstant)
      ensures ball1.force[..] == Sub(old(ball1.force[..]), force[..])
      ensures ball2.force[..] == Add(old(ball2.force[..]), force[..])
      ensures unchanged(ball1.pos, ball1.vel, ball2.pos, ball2.vel)
      ensures forall i :: 0 <= i < DIMENSION ==> ball1.force[i] + ball2.force[i] == old(ball1.force[i] + ball2.force[i])
      ensures distance == length ==> ball1.force[..] == old(ball1.force[..]) && ball2.force[..] == old(ball2.force[..])
    {
      distance := Distance(sqrt, ball1.pos[..], ball2.pos[..]);
      DistanceZeroIff(sqrt, ball1.pos[..], ball2.pos[..]);
      Transfer();
      if distance == length {
        SpringForceAtRest(ball1.pos[..], ball2.pos[..], distance, springConstant);
        SameVec(ball1.force[..], old(ball1.force[..]));
        SameVec(ball2.force[..], old(ball2.force[..]));
      }
    }

    /** The loop of `calcForce`, once the distance is known: per axis,
        Hooke's force is computed and moved from the first ball's
        accumulator to the second's. */
    method Transfer()
      requires Valid() && distance != 0.0
      modifies force, ball1.force, ball2.force
      ensures force[..] == SpringForce(ball1.pos[..], ball2.pos[..], distance, length, springConstant)
      ensures ball1.force[..] == Sub(old(ball1.force[..]), force[..])
      ensures ball2.force[..] == Add(old(ball2.force[..]), force[..])
    {
      ghost var f := SpringForce(ball1.pos[..], ball2.pos[..], distance, length, springConstant);
      for i := 0 to DIMENSION
        invariant forall j :: 0 <= j < i ==> force[j] == f[j]
        invariant forall j :: 0 <= j < i ==>
          ball1.force[j] == old(ball1.force[j]) - f[j] && ball2.force[j] == old(ball2.force[j]) + f[j]
        invariant forall j :: i <= j < DIMENSION ==>
          ball1.force[j] == old(ball1.force[j]) && ball2.force[j] == old(ball2.force[j])
      {
        TransferAxis(i);
      }
      SameVec(force[..], f);
      SameVec(ball1.force[..], Sub(old(ball1.force[..]), f));
      SameVec(ball2.force[..], Add(old(ball2.force[..]), f));
    }

    /** One turn of that loop: Hooke's force along axis `i`, taken from
        the first ball and given to the second. */
    method TransferAxis(i: nat)
      requires Valid() && distance != 0.0 && i < DIMENSION
      modifies force, ball1.force, ball2.force
      ensures force[i] == SpringForce(ball1.pos[..], ball2.pos[..], distance, length, springConstant)[i]
      ensures ball1.force[i] == old(ball1.force[i]) - force[i]
      ensures ball2.force[i] == old(ball2.force[i]) + force[i]
      ensures forall j :: 0 <= j < DIMENSION && j != i ==>
        force[j] == old(force[j]) && ball1.force[j] == old(ball1.force[j]) && ball2.force[j] == old(ball2.force[j])
    {
      force[i] := distance - length;
      force[i] := force[i] * ((ball1.pos[i] - ball2.pos[i]) / distance);
      force[i] := force[i] * springConstant;
      ball1.force[i] := ball1.force[i] + -force[i];
      ball2.force[i] := ball2.force[i] + force[i];
    }
  }
}
