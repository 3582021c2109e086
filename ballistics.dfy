/** A shell in flight (`Projectile`, game.js:331-349): its position, its
    clock and the trail of its last 20 positions, which `update` keeps as a
    bounded first-in-first-out buffer.

    `Math.cos` and `Math.sin` of the launch angle are not computed here: the
    caller supplies them to `Update`. */
module Ballistics {
  import opened Util

  /** A point of the trail, in screen coordinates. */
  datatype Point = Point(x: real, y: real)

  /** The most positions the trail keeps. */
  const TrailCapacity: nat := 20

  /** The last `n` elements of `s`, or all of `s` when it is shorter:
      what the trail is meant to hold. */
  function LastN<T>(s: seq<T>, n: nat): (r: seq<T>)
    ensures |r| == MinI(|s|, n)
    ensures forall i :: 0 <= i < |r| ==> r[i] == s[|s| - |r| + i]
  {
    s[|s| - MinI(|s|, n)..]
  }

  /** One `trail.push(p)` followed by `trail.shift()` when the trail has
      grown past its capacity. */
  function PushTrail(trail: seq<Point>, p: Point): (r: seq<Point>)
    ensures |trail| <= TrailCapacity ==> |r| <= TrailCapacity
    ensures |r| > 0 && r[|r| - 1] == p
    ensures |trail| < TrailCapacity ==> r == trail + [p]
    ensures |trail| == TrailCapacity ==> r == trail[1..] + [p]
  {
    var pushed := trail + [p];
    if |pushed| > TrailCapacity then pushed[1..] else pushed
  }

  /** A trail that holds the last positions of a flight still holds them
      after the next position is pushed. */
  lemma PushTrailKeepsLastPositions(ps: seq<Point>, p: Point)
    ensures PushTrail(LastN(ps, TrailCapacity), p) == LastN(ps + [p], TrailCapacity)
  {
    var before := LastN(ps, TrailCapacity);
    var after := LastN(ps + [p], TrailCapacity);
    var pushed := PushTrail(before, p);
    assert |pushed| == |after|;
    forall i | 0 <= i < |after| ensures pushed[i] == after[i] {
      if i < |after| - 1 {
        assert after[i] == ps[|ps| + 1 - |after| + i];
      }
    }
  }

  /** The trail after the positions `ps` have been pushed one by one onto
      an empty trail. */
  function TrailOf(ps: seq<Point>): seq<Point>
  {
    if ps == [] then [] else PushTrail(TrailOf(ps[..|ps| - 1]), ps[|ps| - 1])
  }

  /** Whatever the length of the flight, the trail holds exactly its last
      `TrailCapacity` positions (all of them for a shorter flight), oldest
      first. */
  lemma {:induction false} TrailHoldsLastPositions(ps: seq<Point>)
    ensures TrailOf(ps) == LastN(ps, TrailCapacity)
    ensures |TrailOf(ps)| <= TrailCapacity
  {
    if ps != [] {
      var init, last := ps[..|ps| - 1], ps[|ps| - 1];
      assert init + [last] == ps;
      assert TrailOf(ps) == PushTrail(TrailOf(init), last);
      TrailHoldsLastPositions(init);
      PushTrailKeepsLastPositions(init, last);
    }
  }

  /** A shell's position and clock one frame later (game.js:342-345): the
      clock advances by 0.1, the shell moves by its launch velocity (`cosA`,
      `sinA` are the cosine and sine of its angle) and the wind, and falls
      under gravity measured at the new clock. */
  function FlightStep(x: real, y: real, time: real, velocity: real, gravity: real,
                      cosA: real, sinA: real, windSpeed: real): (next: (real, real, real))
    ensures next.2 == time + 0.1
    ensures windSpeed == 0.0 && cosA == 0.0 ==> next.0 == x
    ensures sinA == 0.0 && 0.0 <= gravity && 0.0 <= time ==> y <= next.1
  {
    var t := time + 0.1;
    assert sinA == 0.0 && 0.0 <= gravity && 0.0 <= time ==> 0.0 <= gravity * t;
    (x + velocity * cosA * 0.1 + windSpeed * 0.1, y - (velocity * sinA - 0.5 * gravity * t) * 0.1, t)
  }

  class Projectile {
    var x: real
    var y: real
    /** Seconds of flight, advanced by 0.1 per frame. */
    var time: real
    var trail: seq<Point>
    /** Launch angle in degrees. */
    const angle: real
    const velocity: real
    const gravity: real

    ghost predicate Valid()
      reads this
    {
      |trail| <= TrailCapacity
    }

    /** A new shell at `(x, y)`: its speed is a twentieth of the power, its
        gravity 9.8, its clock 0 and its trail empty. */
    constructor(x: real, y: real, angle: real, power: real)
      ensures Valid()
      ensures this.x == x && this.y == y && this.angle == angle
      ensures velocity == power / 20.0 && gravity == 9.8
      ensures time == 0.0 && trail == []
    {
      this.x := x;
      this.y := y;
      this.angle := angle;
      velocity := power / 20.0;
      gravity := 9.8;
      time := 0.0;
      trail := [];
    }

    /** One animation frame: advance the clock, move by the launch velocity
        (`cosA`, `sinA` are the cosine and sine of `angle`), fall under
        gravity, drift with the wind, and record the new position. */
    method Update(cosA: real, sinA: real, windSpeed: real)
      requires Valid()
      modifies this
      ensures Valid()
      ensures time == old(time) + 0.1
      ensures x == old(x) + velocity * cosA * 0.1 + windSpeed * 0.1
      ensures y == old(y) - (velocity * sinA - 0.5 * gravity * time) * 0.1
      ensures trail == PushTrail(old(trail), Point(x, y))
      ensures |trail| > 0 && trail[|trail| - 1] == Point(x, y)
      ensures (x, y, time) == FlightStep(old(x), old(y), old(time), velocity, gravity, cosA, sinA, windSpeed)
    {
      var next := FlightStep(x, y, time, velocity, gravity, cosA, sinA, windSpeed);
      x, y, time := next.0, next.1, next.2;
      trail := trail + [Point(x, y)];
      if |trail| > TrailCapacity {
        trail := trail[1..];
      }
    }
  }
}
