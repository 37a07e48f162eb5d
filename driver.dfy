/** The module-level state of main.js (`balls`, `springs`, `start`), the
    scene `init` builds, and the update part of `loop`: the elapsed-time
    check, the spring pass and the ball pass. Drawing, logging and the
    scheduling of the next frame are not modelled; `loop` reports instead
    whether it would schedule one. */
module Driver {
  import opened Geometry
  import opened Mechanics
  import opened Entities
  import Padding

  datatype Option<T> = None | Some(value: T)

  /** The start time after `if(!start) start = timestamp;`. Both `null` and
      `0` are falsy, so a start of 0 is replaced as well. */
  function CapturedStart(start: Option<real>, timestamp: real): (s: real)
    ensures s != 0.0 || timestamp == 0.0
  {
    if start.None? || start.value == 0.0 then timestamp else start.value
  }

  /** Whether a frame at `timestamp` does its work and schedules the next
      one: it returns early once the elapsed time exceeds the budget. */
  function Proceeds(start: Option<real>, timestamp: real): bool
  {
    !(timestamp - CapturedStart(start, timestamp) > NUM_OF_STEPS)
  }

  /** The first frame of a run always proceeds: it takes its own timestamp
      as the start. */
  lemma FirstFrameProceeds(timestamp: real)
    ensures CapturedStart(None, timestamp) == timestamp
    ensures Proceeds(None, timestamp)
  {
  }

  /** With a (truthy) start recorded, a frame proceeds exactly when no more
      than `NUM_OF_STEPS` has elapsed since it. */
  lemma ProceedsWithin(start: real, timestamp: real)
    requires start != 0.0
    ensures CapturedStart(Some(start), timestamp) == start
    ensures Proceeds(Some(start), timestamp) <==> timestamp - start <= NUM_OF_STEPS
  {
  }

  /** Once a frame stops, every later frame stops too: the start a frame
      records is the one the next frame sees. */
  lemma StopIsFinal(start: Option<real>, t1: real, t2: real)
    requires t1 <= t2 && !Proceeds(start, t1)
    ensures !Proceeds(Some(CapturedStart(start, t1)), t2)
  {
  }

  /** The colour text of the free ball: `"rgb(" + r + ", " + g + ", " + b + ")"`. */
  function RgbText(red: int, green: int, blue: int): string
  {
    "rgb(" + Padding.DecimalText(red) + ", " + Padding.DecimalText(green) + ", " + Padding.DecimalText(blue) + ")"
  }

  /** The value state of a list of balls, ball by ball; `fp` is a set of
      objects holding all their arrays. */
  ghost function States(bs: seq<Ball>, fp: set<object>): (r: seq<Body>)
    requires forall i :: 0 <= i < |bs| ==> bs[i].Valid() && bs[i].Repr() <= fp
    reads fp
    ensures |r| == |bs| && forall i :: 0 <= i < |bs| ==> r[i] == bs[i].State()
    decreases |bs|
  {
    if bs == [] then []
    else
      var last := bs[|bs| - 1];
      assert last.Repr() <= fp;
      States(bs[..|bs| - 1], fp) + [last.State()]
  }

  /** The scene `init` builds on a canvas of the given size: a fixed ball
      hanging at the top centre and a free ball below and to the left, both
      at rest with empty accumulators. */
  function InitialBodies(width: real, height: real): (r: seq<Body>)
    ensures |r| == 2 && r[0].fixed && !r[1].fixed
    ensures forall i :: 0 <= i < |r| ==> 0.0 < r[i].mass && r[i].vel == ZERO && r[i].force == ZERO
  {
    [ Body([width / 2.0, 10.0], ZERO, ZERO, Mass(5.0, 0.5), true),
      Body([width / 4.0, height / 2.0], ZERO, ZERO, Mass(11.0, 0.5), false) ]
  }

  /** The one spring of that scene: its rest length is the initial distance
      of the two balls, its constant 10. */
  function InitialLinks(width: real, height: real, sqrt: real -> real): (r: seq<Link>)
    requires IsSqrt(sqrt)
    ensures |r| == 1 && r[0].first == 0 && r[0].second == 1
    ensures r[0].length == Distance(sqrt, InitialBodies(width, height)[0].pos, InitialBodies(width, height)[1].pos)
  {
    [Link(0, 1, Distance(sqrt, [width / 2.0, 10.0], [width / 4.0, height / 2.0]), 10.0)]
  }

  /** The initial spring is well defined exactly when the two balls do not
      start at the same point, which happens only on a canvas of width 0 and
      height 20. */
  lemma InitialSceneFits(width: real, height: real, sqrt: real -> real)
    requires IsSqrt(sqrt)
    ensures Integrable(InitialBodies(width, height))
    ensures LinksFit(InitialBodies(width, height), InitialLinks(width, height, sqrt))
        <==> (width != 0.0 || height != 20.0)
  {
    var bs := InitialBodies(width, height);
    var links := InitialLinks(width, height, sqrt);
    assert LinksFit(bs, links) <==> LinkFits(bs, links[0]);
    if width == 0.0 && height == 20.0 {
      assert bs[0].pos == bs[1].pos;
    } else if width != 0.0 {
      assert bs[0].pos[0] != bs[1].pos[0];
    } else {
      assert bs[0].pos[1] != bs[1].pos[1];
    }
  }

  /** The first running frame of a fresh scene: the spring is at its rest
      length and exerts nothing, so the fixed ball stays and the free ball
      only takes its weight: it keeps its position and gains the velocity
      `GRAVITY * DELTA_T` downwards. */
  lemma FirstFrame(width: real, height: real, sqrt: real -> real)
    requires IsSqrt(sqrt) && (width != 0.0 || height != 20.0)
    ensures LinksFit(InitialBodies(width, height), InitialLinks(width, height, sqrt))
    ensures Integrable(InitialBodies(width, height))
    ensures StepScene(InitialBodies(width, height), InitialLinks(width, height, sqrt), sqrt)
      == [ InitialBodies(width, height)[0],
           InitialBodies(width, height)[1].(vel := [0.0, GRAVITY * DELTA_T]) ]
  {
    var bs, links := InitialBodies(width, height), InitialLinks(width, height, sqrt);
    InitialSceneFits(width, height, sqrt);
    assert links[..0] == [] && links[..1] == links;
    SpringPassStep(bs, links, sqrt, 0);
    ApplyLinkAtRest(bs, links[0], sqrt);
    var mid := SpringPass(bs, links, sqrt);
    assert mid == bs;
    FixedBallStays(AddGravity(bs[0]));
    WeightOnlyStep(bs[1]);
    assert ZERO == [0.0, 0.0];
  }

  /** `new Ball([x, y], [0.0, 0.0], size, density, color, isFixed)`, with
      the two array literals allocated afresh. */
  method NewBall(x: real, y: real, size: real, density: real, color: string, isFixed: bool) returns (b: Ball)
    ensures b.Valid() && fresh(b.Repr())
    ensures b.size == size && b.density == density && b.color == color && b.isFixed == isFixed
    ensures b.State() == Body([x, y], ZERO, ZERO, Mass(size, density), isFixed)
  {
    var pos := new real[DIMENSION];
    pos[0], pos[1] := x, y;
    var vel := new real[DIMENSION];
    vel[0], vel[1] := 0.0, 0.0;
    assert pos[..] == [x, y] && vel[..] == ZERO;
    b := new Ball(pos, vel, size, density, color, isFixed);
  }

  /** A scene of two distinct balls joined by one spring, with the
      footprints `init` gives it, keeps the invariant. */
  lemma TwoBallSceneValid(sim: Simulation, ball1: Ball, ball2: Ball, spring: Spring)
    requires sim.balls == [ball1, ball2] && sim.springs == [spring]
    requires sim.links == [Link(0, 1, spring.length, spring.springConstant)]
    requires spring.ball1 == ball1 && spring.ball2 == ball2 && spring.Valid()
    requires ball1.isFixed || ball1.mass != 0.0
    requires ball2.isFixed || ball2.mass != 0.0
    requires sim.BallRepr == ball1.Repr() + ball2.Repr() && sim.SpringRepr == {spring, spring.force}
    requires spring.force !in sim.BallRepr && sim !in sim.BallRepr && sim !in sim.SpringRepr
    ensures sim.Valid()
  {
    assert sim.Joins(0);
  }

  class Simulation {
    const balls: seq<Ball>
    const springs: seq<Spring>
    /** Which balls each spring joins, by position in `balls`. */
    ghost const links: seq<Link>
    /** The arrays of all balls. */
    ghost const BallRepr: set<object>
    /** The springs and their force vectors. */
    ghost const SpringRepr: set<object>
    var start: Option<real>

    /** Spring `j` joins the balls `links[j]` names, with its rest length
        and constant. */
    ghost predicate Joins(j: nat)
      requires j < |springs| && |springs| == |links|
    {
      var l := links[j];
      && l.first < |balls| && l.second < |balls|
      && springs[j].ball1 == balls[l.first] && springs[j].ball2 == balls[l.second]
      && springs[j].length == l.length && springs[j].springConstant == l.stiffness
      && springs[j].Valid()
    }

    /** Every ball is valid, owns its arrays alone and can be integrated;
        every spring joins two balls of the list and owns its force vector;
        no spring is listed twice; the balls' arrays and the springs are
        apart. */
    ghost predicate Valid()
    {
      && (forall i :: 0 <= i < |balls| ==> balls[i].Valid() && balls[i].Repr() <= BallRepr)
      && (forall i :: 0 <= i < |balls| ==> balls[i].isFixed || balls[i].mass != 0.0)
      && (forall i, k :: 0 <= i < |balls| && 0 <= k < |balls| && i != k ==> balls[i].Repr() !! balls[k].Repr())
      && |springs| == |links|
      && (forall j :: 0 <= j < |springs| ==> Joins(j))
      && (forall j :: 0 <= j < |springs| ==> springs[j] in SpringRepr && springs[j].force in SpringRepr)
      && (forall j, m :: 0 <= j < |springs| && 0 <= m < |springs| && j != m ==>
            springs[j] != springs[m] && springs[j].force != springs[m].force)
      && BallRepr !! SpringRepr
      && this !in BallRepr && this !in SpringRepr
    }

    /** The balls as values. */
    ghost function Bodies(): (r: seq<Body>)
      requires Valid()
      reads BallRepr
      ensures |r| == |balls| && Integrable(r)
    {
      States(balls, BallRepr)
    }

    /** `init()`: the start is cleared and the two-ball, one-spring scene is
        built. The free ball's colour is made from three given components
        (`getRandomInt(0, 255)` in the source). */
    constructor Init(width: real, height: real, red: int, green: int, blue: int, sqrt: real -> real)
      requires IsSqrt(sqrt)
      ensures Valid() && start.None?
      ensures fresh(BallRepr) && fresh(SpringRepr)
      ensures |balls| == 2 && |springs| == 1
      ensures links == InitialLinks(width, height, sqrt)
      ensures Bodies() == InitialBodies(width, height)
      ensures balls[0].size == 5.0 && balls[0].density == 0.5 && balls[0].color == "rgb(0, 0, 0)"
      ensures balls[1].size == 11.0 && balls[1].density == 0.5 && balls[1].color == RgbText(red, green, blue)
      ensures springs[0].distance == springs[0].length && springs[0].color == "rgb(0, 0, 0)"
    {
      var ball1 := NewBall(width / 2.0, 10.0, 5.0, 0.5, "rgb(0, 0, 0)", true);
      var ball2 := NewBall(width / 4.0, height / 2.0, 11.0, 0.5, RgbText(red, green, blue), false);
      assert ball1.State().pos == [width / 2.0, 10.0] && ball2.State().pos == [width / 4.0, height / 2.0];
      assert ball1.Repr() !! ball2.Repr();
      var spring := new Spring(ball1, ball2, Distance(sqrt, ball1.pos[..], ball2.pos[..]), 10.0, sqrt);
      balls := [ball1, ball2];
      springs := [spring];
      links := InitialLinks(width, height, sqrt);
      BallRepr := ball1.Repr() + ball2.Repr();
      SpringRepr := {spring, spring.force};
      start := None;
      new;
      TwoBallSceneValid(this, ball1, ball2, spring);
      assert States(balls, BallRepr) == [ball1.State(), ball2.State()];
    }

    /** The update part of `loop(timestamp)`: the start is captured; past
        the budget the frame returns at once and changes nothing; otherwise
        every spring's `calcForce` runs, then every ball's `calcForce` and
        `update`, and the frame would schedule the next one. The balls end
        in the state `StepScene` gives; each spring records the distance and
        the force of the positions the frame started from. */
    method Loop(timestamp: real, sqrt: real -> real) returns (scheduled: bool)
      requires Valid() && IsSqrt(sqrt)
      requires Proceeds(start, timestamp) ==> LinksFit(Bodies(), links)
      modifies this, BallRepr, SpringRepr
      ensures start == Some(CapturedStart(old(start), timestamp))
      ensures scheduled == Proceeds(old(start), timestamp)
      ensures !scheduled ==> unchanged(BallRepr) && unchanged(SpringRepr)
      ensures scheduled ==> Bodies() == StepScene(old(Bodies()), links, sqrt)
      ensures scheduled ==> forall j :: 0 <= j < |springs| ==>
        && springs[j].distance == LinkDistance(old(Bodies()), links[j], sqrt)
        && springs[j].force[..] == LinkForce(old(Bodies()), links[j], sqrt)
    {
      if start.None? || start.value == 0.0 {
        start := Some(timestamp);
      }
      var elapsed := timestamp - start.value;
      if elapsed > NUM_OF_STEPS {
        return false;
      }
      RunSprings(sqrt);
      RunBalls();
      return true;
    }

    /** The spring pass of `loop`. */
    method RunSprings(sqrt: real -> real)
      requires Valid() && IsSqrt(sqrt) && LinksFit(Bodies(), links)
      modifies BallRepr, SpringRepr
      ensures Bodies() == SpringPass(old(Bodies()), links, sqrt)
      ensures forall j :: 0 <= j < |springs| ==>
        && springs[j].distance == LinkDistance(old(Bodies()), links[j], sqrt)
        && springs[j].force[..] == LinkForce(old(Bodies()), links[j], sqrt)
    {
      ghost var initial := Bodies();
      for j := 0 to |springs|
        invariant Bodies() == SpringPass(initial, links[..j], sqrt)
        invariant forall m :: 0 <= m < j ==>
          && springs[m].distance == LinkDistance(initial, links[m], sqrt)
          && springs[m].force[..] == LinkForce(initial, links[m], sqrt)
      {
        SpringPassStep(initial, links, sqrt, j);
        LinkForceKinematic(initial, Bodies(), links[j], sqrt);
        assert Joins(j);
        RunSpring(j, sqrt);
      }
      assert links[..|springs|] == links;
    }

    /** One spring's `calcForce` inside the spring pass: the balls change as
        `ApplyLink` says, and no other spring changes. */
    method RunSpring(j: nat, sqrt: real -> real)
      requires Valid() && IsSqrt(sqrt) && j < |springs|
      requires LinkFits(Bodies(), links[j])
      modifies springs[j], springs[j].force, springs[j].ball1.force, springs[j].ball2.force
      ensures Bodies() == ApplyLink(old(Bodies()), links[j], sqrt)
      ensures springs[j].distance == LinkDistance(old(Bodies()), links[j], sqrt)
      ensures springs[j].force[..] == LinkForce(old(Bodies()), links[j], sqrt)
      ensures forall m :: 0 <= m < |springs| && m != j ==>
        springs[m].distance == old(springs[m].distance) && springs[m].force[..] == old(springs[m].force[..])
    {
      ghost var prev := Bodies();
      var l := links[j];
      var s := springs[j];
      assert Joins(j);
      assert s.ball1 == balls[l.first] && s.ball2 == balls[l.second];
      s.CalcForce(sqrt);
      ghost var next := ApplyLink(prev, l, sqrt);
      forall i | 0 <= i < |balls|
        ensures balls[i].State() == next[i]
      {
        ApplyLinkEqualAndOpposite(prev, l, sqrt, i);
      }
      assert Bodies() == next;
    }

    /** The ball pass of `loop`: each ball's `calcForce` then `update`. */
    method RunBalls()
      requires Valid()
      modifies BallRepr
      ensures Bodies() == BallPass(old(Bodies()))
    {
      ghost var mid := Bodies();
      for i := 0 to |balls|
        invariant forall k :: 0 <= k < i ==> balls[k].State() == StepBall(mid[k])
        invariant forall k :: i <= k < |balls| ==> balls[k].State() == mid[k]
      {
        balls[i].CalcForce();
        balls[i].Update();
      }
      assert Bodies() == BallPass(mid);
    }
  }

  /** The start button: `init()`, then the first frame of `loop`. That
      frame always runs; it records its timestamp as the start, the fixed
      ball stays, and the free ball only takes its weight. The balls may
      not start at the same point (a 0 by 20 canvas), where the spring's
      first `calcForce` would divide by zero. */
  method StartRun(width: real, height: real, red: int, green: int, blue: int, timestamp: real, sqrt: real -> real)
    returns (sim: Simulation, scheduled: bool)
    requires IsSqrt(sqrt) && (width != 0.0 || height != 20.0)
    ensures fresh(sim) && fresh(sim.BallRepr) && fresh(sim.SpringRepr)
    ensures sim.Valid() && |sim.balls| == 2 && |sim.springs| == 1
    ensures sim.links == InitialLinks(width, height, sqrt)
    ensures scheduled && sim.start == Some(timestamp)
    ensures sim.Bodies() == [ InitialBodies(width, height)[0],
                              InitialBodies(width, height)[1].(vel := [0.0, GRAVITY * DELTA_T]) ]
    ensures sim.springs[0].distance == sim.springs[0].length && sim.springs[0].force[..] == ZERO
  {
    sim := new Simulation.Init(width, height, red, green, blue, sqrt);
    FirstFrame(width, height, sqrt);
    ghost var bs, links := InitialBodies(width, height), InitialLinks(width, height, sqrt);
    assert LinkDistance(bs, links[0], sqrt) == links[0].length;
    assert sim.Joins(0);
    scheduled := sim.Loop(timestamp, sqrt);
  }
}
